/** The multi-level feedback queue receiver: a young list for processes
    that have just arrived and an old list for those already served, with
    the young list always served first. */
module FeedbackQueue {
  import opened Processes
  import opened Scheduling

  datatype Config = Config(youngList: seq<Pid>, oldList: seq<Pid>, procs: Table, completed: seq<Pid>)
  {
    ghost predicate Valid() {
      Tracked(youngList, procs) && Tracked(oldList, procs) && AllWf(procs)
    }

    /** Everything in the completed list has finished. */
    ghost predicate Retired() {
      Tracked(completed, procs) && AllTerminated(completed, procs)
    }

    /** Only served processes are in the old list. */
    ghost predicate OldStarted()
      requires Valid()
    {
      forall id :: id in oldList ==> procs[id].state != NEW
    }

    /** The process the next iteration serves: the head of the young list
        when there is one, else the head of the old list. */
    function Selected(): Pid
      requires youngList != [] || oldList != []
    {
      if youngList != [] then youngList[0] else oldList[0]
    }

    /** The young list once the selected process is removed. */
    function YoungRest(): seq<Pid>
      requires youngList != [] || oldList != []
    {
      if youngList != [] then youngList[1..] else youngList
    }

    /** The old list once the selected process is removed. */
    function OldRest(): seq<Pid>
      requires youngList != [] || oldList != []
    {
      if youngList != [] then oldList else oldList[1..]
    }

    /** The steps both lists can still take together. */
    function Load(): (w: nat)
      requires Valid()
      ensures w >= |youngList| + |oldList|
    {
      Budget(youngList, procs) + Budget(oldList, procs)
    }
  }

  /** Selecting removes exactly one queued process and leaves the rest. */
  lemma SelectionSplits(c: Config)
    requires c.Valid() && (c.youngList != [] || c.oldList != [])
    ensures c.Selected() in c.procs
    ensures c.Selected() in c.youngList || c.Selected() in c.oldList
    ensures forall id :: id in c.YoungRest() ==> id in c.youngList
    ensures forall id :: id in c.OldRest() ==> id in c.oldList
    ensures multiset(c.youngList) + multiset(c.oldList)
            == multiset(c.YoungRest()) + multiset(c.OldRest()) + multiset{c.Selected()}
    ensures Budget(c.YoungRest(), c.procs) + Budget(c.OldRest(), c.procs)
            + c.procs[c.Selected()].remaining + 1 == c.Load()
  {
    if c.youngList != [] {
      assert c.youngList == [c.Selected()] + c.YoungRest();
    } else {
      assert c.oldList == [c.Selected()] + c.OldRest();
    }
  }

  /** One iteration of the scheduling loop.  The head of the young list is
      taken when there is one, else the head of the old list.  A NEW process
      is started and goes to the old list; a TERMINATED one is completed; any
      other is interrupted and goes to the old list if the young list still
      holds something, and back to the young list otherwise. */
  function Step(c: Config): (r: Config)
    requires c.Valid() && (c.youngList != [] || c.oldList != [])
    ensures r.Valid()
    ensures r.Load() < c.Load()
  {
    var process, young, aged := c.Selected(), c.YoungRest(), c.OldRest();
    SelectionSplits(c);
    var p := c.procs[process];
    if p.state == TERMINATED then
      Config(young, aged, c.procs, c.completed + [process])
    else
      var t := c.procs[process := Serve(p)];
      if p.state == NEW || young != [] then
        ServeBudget(young, aged, c.procs, process);
        Config(young, aged + [process], t, c.completed)
      else
        ServeBudget(aged, young, c.procs, process);
        Config(young + [process], aged, t, c.completed)
  }

  /** Which process is served and where it goes, case by case. */
  lemma StepShape(c: Config)
    requires c.Valid() && (c.youngList != [] || c.oldList != [])
    ensures var r, h := Step(c), c.Selected();
      && (c.procs[h].state == NEW ==>
            r == Config(c.YoungRest(), c.OldRest() + [h], c.procs[h := Start(c.procs[h])], c.completed))
      && (c.procs[h].state == TERMINATED ==>
            r == Config(c.YoungRest(), c.OldRest(), c.procs, c.completed + [h]))
      && (c.procs[h].Started() && c.YoungRest() != [] ==>
            r == Config(c.YoungRest(), c.OldRest() + [h], c.procs[h := Interrupt(c.procs[h])], c.completed))
      && (c.procs[h].Started() && c.YoungRest() == [] ==>
            r == Config([h], c.OldRest(), c.procs[h := Interrupt(c.procs[h])], c.completed))
  {
  }

  /** The old list is only drawn from when the young list is empty: while
      young processes wait, the old list loses nothing from its front, and
      the young list loses its head. */
  lemma YoungFirst(c: Config)
    requires c.Valid() && c.youngList != []
    ensures |Step(c).oldList| >= |c.oldList|
    ensures Step(c).oldList[..|c.oldList|] == c.oldList
    ensures |Step(c).youngList| >= |c.youngList| - 1
    ensures Step(c).youngList[..|c.youngList| - 1] == c.youngList[1..]
  {
    StepShape(c);
  }

  /** The young list never grows, except from empty to a single process. */
  lemma YoungNeverGrows(c: Config)
    requires c.Valid() && (c.youngList != [] || c.oldList != [])
    ensures |Step(c).youngList| <= |c.youngList| || |Step(c).youngList| == 1
  {
    StepShape(c);
  }

  /** A process alone in the young list that is neither NEW nor TERMINATED
      is interrupted and put straight back into the young list, so the lists
      do not strictly alternate. */
  lemma LoneProcessStaysYoung(c: Config, h: Pid)
    requires c.Valid() && c.youngList == [h] && c.procs[h].Started()
    ensures Step(c).youngList == [h] && Step(c).oldList == c.oldList
  {
    StepShape(c);
  }

  /** The old list never holds a NEW process, so the NEW branch only ever
      fires on a process drawn from the young list. */
  lemma StepOldStarted(c: Config)
    requires c.Valid() && (c.youngList != [] || c.oldList != []) && c.OldStarted()
    ensures Step(c).OldStarted()
    ensures c.youngList == [] ==> c.procs[c.oldList[0]].state != NEW
  {
    StepShape(c);
  }

  /** A step moves processes between the lists and the completed list,
      never creating or losing one. */
  lemma StepConserves(c: Config)
    requires c.Valid() && (c.youngList != [] || c.oldList != [])
    ensures var r := Step(c);
      && multiset(r.youngList) + multiset(r.oldList) + multiset(r.completed)
         == multiset(c.youngList) + multiset(c.oldList) + multiset(c.completed)
      && c.completed <= r.completed
  {
    var r, h, young, aged := Step(c), c.Selected(), c.YoungRest(), c.OldRest();
    SelectionSplits(c);
    StepShape(c);
    if c.procs[h].state == TERMINATED {
      assert r.youngList == young && r.oldList == aged && r.completed == c.completed + [h];
    } else if r.oldList == aged + [h] {
      assert r.youngList == young && r.completed == c.completed;
    } else {
      assert r.youngList == young + [h] && r.oldList == aged && r.completed == c.completed;
    }
  }

  /** No process is ever in two places at once: if the two lists hold no
      duplicates before a step, they hold none after it. */
  lemma StepDistinct(c: Config)
    requires c.Valid() && (c.youngList != [] || c.oldList != [])
    ensures Distinct(c.youngList + c.oldList) ==> Distinct(Step(c).youngList + Step(c).oldList)
  {
    var r := Step(c);
    StepConserves(c);
    var extra := r.completed[|c.completed|..];
    assert r.completed == c.completed + extra;
    forall x ensures multiset(r.youngList + r.oldList)[x] <= multiset(c.youngList + c.oldList)[x] {
      assert (multiset(r.youngList) + multiset(r.oldList) + multiset(r.completed))[x]
             == (multiset(c.youngList) + multiset(c.oldList) + multiset(c.completed))[x];
    }
    if Distinct(c.youngList + c.oldList) {
      DistinctSub(c.youngList + c.oldList, r.youngList + r.oldList);
    }
  }

  /** A step touches only the process it serves, which was queued, and
      queues nothing that was not queued before. */
  lemma StepTouchesServed(c: Config)
    requires c.Valid() && (c.youngList != [] || c.oldList != [])
    ensures var r := Step(c);
      && (forall id :: id in r.youngList || id in r.oldList ==> id in c.youngList || id in c.oldList)
      && r.procs.Keys == c.procs.Keys
      && (forall id :: id in c.procs && id != c.Selected() ==> r.procs[id] == c.procs[id])
      && (forall id :: id in c.procs ==> r.procs[id].priority == c.procs[id].priority)
  {
    var r, h, young, aged := Step(c), c.Selected(), c.YoungRest(), c.OldRest();
    SelectionSplits(c);
    StepShape(c);
    if c.procs[h].state == TERMINATED {
      assert r.procs == c.procs;
    } else {
      assert r.procs == c.procs[h := Serve(c.procs[h])];
      assert forall id :: id in r.youngList || id in r.oldList ==> id in young || id in aged || id == h;
    }
  }

  /** A process is only completed once it is TERMINATED, and a TERMINATED
      process is never served again, so the completed list stays finished. */
  lemma StepRetires(c: Config)
    requires c.Valid() && (c.youngList != [] || c.oldList != []) && c.Retired()
    ensures Step(c).Retired()
  {
    StepShape(c);
  }

  /** The loop run to the end: what `startRegistration` leaves behind. */
  function Run(c: Config): (r: Config)
    requires c.Valid()
    ensures r.Valid() && r.youngList == [] && r.oldList == []
    decreases c.Load()
  {
    if c.youngList == [] && c.oldList == [] then c else Run(Step(c))
  }

  /** Every queued process ends up completed, each occurrence exactly once,
      after the processes already completed. */
  lemma {:induction false} RunConserves(c: Config)
    requires c.Valid()
    ensures multiset(Run(c).completed)
            == multiset(c.youngList) + multiset(c.oldList) + multiset(c.completed)
    ensures c.completed <= Run(c).completed
    decreases c.Load()
  {
    if c.youngList != [] || c.oldList != [] {
      StepConserves(c);
      RunConserves(Step(c));
    }
  }

  /** On return every completed process is TERMINATED. */
  lemma {:induction false} RunRetires(c: Config)
    requires c.Valid() && c.Retired()
    ensures Run(c).Retired()
    decreases c.Load()
  {
    if c.youngList != [] || c.oldList != [] {
      StepRetires(c);
      RunRetires(Step(c));
    }
  }

  /** The run changes no process it was not given, and no priority. */
  lemma {:induction false} RunKeeps(c: Config)
    requires c.Valid()
    ensures Run(c).procs.Keys == c.procs.Keys
    ensures forall id :: id in c.procs ==> Run(c).procs[id].priority == c.procs[id].priority
    ensures forall id :: id in c.procs && id !in c.youngList && id !in c.oldList ==>
              Run(c).procs[id] == c.procs[id]
    decreases c.Load()
  {
    if c.youngList != [] || c.oldList != [] {
      SelectionSplits(c);
      StepTouchesServed(c);
      RunKeeps(Step(c));
    }
  }

  class MLFQReceiver {
    /** Processes not yet served, or sent back by the routing rule. */
    var youngList: seq<Pid>
    /** Processes already served at least once. */
    var oldList: seq<Pid>
    /** The current state of every process handed to this receiver. */
    var procs: Table

    ghost predicate Valid()
      reads this
    {
      var c := Config(youngList, oldList, procs, []);
      c.Valid() && c.OldStarted()
    }

    constructor ()
      ensures Valid() && youngList == [] && oldList == [] && procs == map[]
    {
      youngList := [];
      oldList := [];
      procs := map[];
    }

    /** Adds process `m`, currently in state `p`, at the tail of the young
        list; the old list is untouched. */
    method Enqueue(m: Pid, p: Process)
      requires Valid() && p.Wf()
      requires m in procs ==> procs[m] == p
      modifies this
      ensures Valid()
      ensures youngList == old(youngList) + [m]
      ensures oldList == old(oldList)
      ensures procs == old(procs)[m := p]
    {
      youngList := youngList + [m];
      procs := procs[m := p];
    }

    /** One iteration of the loop of `startRegistration`: take the head of
        the young list, or of the old list when the young one is empty; start
        a NEW process and move it to the old list, complete a TERMINATED one,
        and interrupt any other, moving it to the old list while young
        processes wait and to the young list otherwise. */
    method ServeNext(completed: seq<Pid>) returns (completed': seq<Pid>)
      requires Config(youngList, oldList, procs, completed).Valid()
      requires youngList != [] || oldList != []
      modifies this
      ensures Config(youngList, oldList, procs, completed')
              == Step(Config(old(youngList), old(oldList), old(procs), completed))
    {
      ghost var before := Config(youngList, oldList, procs, completed);
      StepShape(before);
      var process;
      if youngList != [] {
        process := youngList[0];
        youngList := youngList[1..];
      } else {
        process := oldList[0];
        oldList := oldList[1..];
      }
      var p := procs[process];
      completed' := completed;
      if p.state == NEW {
        procs := procs[process := Start(p)];
        oldList := oldList + [process];
      } else if p.state == TERMINATED {
        completed' := completed + [process];
      } else {
        procs := procs[process := Interrupt(p)];
        if youngList != [] {
          oldList := oldList + [process];
        } else {
          youngList := youngList + [process];
        }
      }
    }

    /** Drives every queued process to completion and returns them in the
        order they were observed TERMINATED. */
    method StartRegistration() returns (completedProcesses: seq<Pid>)
      requires Valid()
      modifies this
      ensures Valid() && youngList == [] && oldList == []
      ensures Config(youngList, oldList, procs, completedProcesses)
              == Run(Config(old(youngList), old(oldList), old(procs), []))
      ensures multiset(completedProcesses) == multiset(old(youngList)) + multiset(old(oldList))
      ensures forall id :: id in completedProcesses ==> id in procs && procs[id].state == TERMINATED
      ensures procs.Keys == old(procs).Keys
      ensures forall id :: id in procs ==> procs[id].priority == old(procs)[id].priority
      ensures forall id :: id in old(procs) && id !in old(youngList) && id !in old(oldList) ==> procs[id] == old(procs)[id]
    {
      ghost var start := Config(youngList, oldList, procs, []);
      RunConserves(start);
      RunRetires(start);
      RunKeeps(start);
      completedProcesses := [];
      while youngList != [] || oldList != []
        invariant Config(youngList, oldList, procs, completedProcesses).Valid()
        invariant Config(youngList, oldList, procs, completedProcesses).OldStarted()
        invariant Run(Config(youngList, oldList, procs, completedProcesses)) == Run(start)
        decreases Config(youngList, oldList, procs, completedProcesses).Load()
      {
        ghost var before := Config(youngList, oldList, procs, completedProcesses);
        StepOldStarted(before);
        completedProcesses := ServeNext(completedProcesses);
      }
    }
  }
}
