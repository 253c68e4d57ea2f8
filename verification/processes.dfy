/** A module registration process, reduced to a deterministic state machine.

    The real process is a thread that does its own work concurrently with
    the scheduler.  Here it is a value with a priority, an observable state
    and a budget of scheduler steps it still needs: every `Start` or
    `Interrupt` consumes one step, and the process reports TERMINATED exactly
    when its budget is used up. */
module Processes {

  datatype State = NEW | RUNNING | WAITING | TERMINATED

  datatype Process = Process(priority: int, state: State, remaining: nat)
  {
    /** A process has finished its work exactly when it has no steps left. */
    predicate Wf() {
      state == TERMINATED <==> remaining == 0
    }

    /** Neither new nor finished: the scheduler's "any other state" branch. */
    predicate Started() {
      state != NEW && state != TERMINATED
    }
  }

  /** One quantum of the process's own work. */
  function Consume(p: Process): (r: Process)
    requires p.Wf() && p.state != TERMINATED
    ensures r.Wf() && r.priority == p.priority && r.state != NEW
    ensures r.remaining + 1 == p.remaining
  {
    var left := p.remaining - 1;
    Process(p.priority, if left == 0 then TERMINATED else RUNNING, left)
  }

  /** Launches a process; only a NEW process may be started. */
  function Start(p: Process): (r: Process)
    requires p.Wf() && p.state == NEW
    ensures r.Wf() && r.priority == p.priority
    ensures r.Started() || r.state == TERMINATED
    ensures r.remaining + 1 == p.remaining
    ensures r.state == TERMINATED <==> p.remaining == 1
  {
    Consume(p)
  }

  /** Wakes a process that has been started; never valid on a TERMINATED one. */
  function Interrupt(p: Process): (r: Process)
    requires p.Wf() && p.state != TERMINATED
    ensures r.Wf() && r.priority == p.priority && r.state != NEW
    ensures r.remaining + 1 == p.remaining
    ensures r.state == TERMINATED <==> p.remaining == 1
  {
    Consume(p)
  }
}
