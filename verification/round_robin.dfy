/** The Round Robin receiver: one FIFO list, served from the head, with every
    process that has not finished put back at the tail. */
module RoundRobin {
  import opened Processes
  import opened Scheduling

  /** The receiver's state during a run: the list, the processes, and the
      completed processes in the order they were observed TERMINATED. */
  datatype Config = Config(queue: seq<Pid>, procs: Table, results: seq<Pid>)
  {
    ghost predicate Valid() {
      Tracked(queue, procs) && AllWf(procs)
    }

    /** Everything in the results has finished. */
    ghost predicate Retired() {
      Tracked(results, procs) && AllTerminated(results, procs)
    }
  }

  /** One iteration of the scheduling loop: take the head, start it if NEW,
      retire it if TERMINATED, interrupt it otherwise, and put it back at the
      tail unless it was retired. */
  function Step(c: Config): (r: Config)
    requires c.Valid() && c.queue != []
    ensures r.Valid()
    ensures Budget(r.queue, r.procs) < Budget(c.queue, c.procs)
  {
    var process := c.queue[0];
    var rest := c.queue[1..];
    assert forall id :: id in rest ==> id in c.queue;
    var p := c.procs[process];
    if p.state == TERMINATED then
      Config(rest, c.procs, c.results + [process])
    else
      var t := c.procs[process := Serve(p)];
      ServeBudget(rest, [], c.procs, process);
      assert [] + [process] == [process];
      BudgetConcat(rest, [process], t);
      Config(rest + [process], t, c.results)
  }

  /** The head leaves and the others keep their order at the front; a
      TERMINATED head goes to the results, any other head is started if NEW,
      interrupted otherwise, and rotated to the tail. */
  lemma StepShape(c: Config)
    requires c.Valid() && c.queue != []
    ensures var r := Step(c);
      var h := c.queue[0];
      && (c.procs[h].state == TERMINATED ==>
            r == Config(c.queue[1..], c.procs, c.results + [h]))
      && (c.procs[h].state == NEW ==>
            r == Config(c.queue[1..] + [h], c.procs[h := Start(c.procs[h])], c.results))
      && (c.procs[h].Started() ==>
            r == Config(c.queue[1..] + [h], c.procs[h := Interrupt(c.procs[h])], c.results))
  {
  }

  /** A step that does not retire its process is a rotation: the served
      process moves from the front to the back, the others keep their order,
      and it has one step less to go. */
  lemma StepRotates(c: Config)
    requires c.Valid() && c.queue != [] && c.procs[c.queue[0]].state != TERMINATED
    ensures var r := Step(c);
      && |r.queue| == |c.queue|
      && r.queue[|r.queue| - 1] == c.queue[0]
      && (forall i :: 0 <= i < |c.queue| - 1 ==> r.queue[i] == c.queue[i + 1])
      && r.procs[c.queue[0]].remaining + 1 == c.procs[c.queue[0]].remaining
      && r.results == c.results
  {
    StepShape(c);
  }

  /** A step moves processes between the list and the results, never
      creating or losing one, and touches only the process it serves. */
  lemma StepConserves(c: Config)
    requires c.Valid() && c.queue != []
    ensures var r := Step(c);
      && multiset(r.queue) + multiset(r.results) == multiset(c.queue) + multiset(c.results)
      && (forall id :: id in r.queue ==> id in c.queue)
      && c.results <= r.results
      && r.procs.Keys == c.procs.Keys
      && (forall id :: id in c.procs && id != c.queue[0] ==> r.procs[id] == c.procs[id])
      && (forall id :: id in c.procs ==> r.procs[id].priority == c.procs[id].priority)
  {
    StepShape(c);
    assert c.queue == [c.queue[0]] + c.queue[1..];
  }

  /** A process is only retired once it is TERMINATED, and a TERMINATED
      process is never served again, so the results stay finished. */
  lemma StepRetires(c: Config)
    requires c.Valid() && c.queue != [] && c.Retired()
    ensures Step(c).Retired()
  {
    StepShape(c);
  }

  /** Without duplicates a step costs exactly one unit of budget, and the
      list stays free of duplicates. */
  lemma StepExact(c: Config)
    requires c.Valid() && c.queue != []
    ensures Distinct(c.queue) ==> Distinct(Step(c).queue)
    ensures Distinct(c.queue) ==> Budget(Step(c).queue, Step(c).procs) + 1 == Budget(c.queue, c.procs)
  {
    if !Distinct(c.queue) {
      return;
    }
    var process := c.queue[0];
    var rest := c.queue[1..];
    var r := Step(c);
    StepShape(c);
    assert process !in rest by {
      forall i | 0 <= i < |rest| ensures rest[i] != process {
        assert rest[i] == c.queue[i + 1];
      }
    }
    assert forall id :: id in rest ==> id in c.queue;
    if c.procs[process].state != TERMINATED {
      assert r.queue == rest + [process];
      ServeBudget(rest, [], c.procs, process);
      assert [] + [process] == [process];
      BudgetConcat(rest, [process], r.procs);
    }
  }

  /** The loop run to the end: what `startRegistration` leaves behind. */
  function Run(c: Config): (r: Config)
    requires c.Valid()
    ensures r.Valid() && r.queue == []
    decreases Budget(c.queue, c.procs)
  {
    if c.queue == [] then c else Run(Step(c))
  }

  /** Every queued process ends up in the results, each occurrence exactly
      once, after the results already there. */
  lemma {:induction false} RunConserves(c: Config)
    requires c.Valid()
    ensures multiset(Run(c).results) == multiset(c.queue) + multiset(c.results)
    ensures c.results <= Run(c).results
    decreases Budget(c.queue, c.procs)
  {
    if c.queue != [] {
      StepConserves(c);
      RunConserves(Step(c));
    }
  }

  /** On return every completed process is TERMINATED. */
  lemma {:induction false} RunRetires(c: Config)
    requires c.Valid() && c.Retired()
    ensures Run(c).Retired()
    decreases Budget(c.queue, c.procs)
  {
    if c.queue != [] {
      StepRetires(c);
      RunRetires(Step(c));
    }
  }

  /** The run changes no process it was not given, and no priority. */
  lemma {:induction false} RunKeeps(c: Config)
    requires c.Valid()
    ensures Run(c).procs.Keys == c.procs.Keys
    ensures forall id :: id in c.procs ==> Run(c).procs[id].priority == c.procs[id].priority
    ensures forall id :: id in c.procs && id !in c.queue ==> Run(c).procs[id] == c.procs[id]
    decreases Budget(c.queue, c.procs)
  {
    if c.queue != [] {
      StepConserves(c);
      RunKeeps(Step(c));
    }
  }

  /** Moving the head of a list without duplicates to its tail keeps it
      without duplicates. */
  lemma RotateDistinct(a: seq<Pid>, b: seq<Pid>)
    requires a != [] && Distinct(a + b)
    ensures a[0] !in a[1..] + b
    ensures Distinct(a[1..] + (b + [a[0]]))
  {
    var q, q' := a + b, a[1..] + (b + [a[0]]);
    forall id | id in a[1..] + b ensures id != a[0] {
      var i :| 0 <= i < |a[1..] + b| && (a[1..] + b)[i] == id;
      assert q[0] == a[0] && q[i + 1] == id;
    }
    forall i, i' | 0 <= i < i' < |q'| ensures q'[i] != q'[i'] {
      assert q'[i] == q[i + 1];
      if i' < |q'| - 1 {
        assert q'[i'] == q[i' + 1];
      } else {
        assert q'[i'] == q[0];
      }
    }
  }

  lemma MoveToTail(x: seq<Pid>, y: seq<Pid>, h: Pid, z: seq<Pid>)
    ensures x + (y + [h]) + z == x + y + ([h] + z)
  {
  }

  /** Serving a head that has not finished sends it to the tail. */
  lemma RunServesHead(a: seq<Pid>, b: seq<Pid>, t: Table, res: seq<Pid>)
    requires Config(a + b, t, res).Valid() && a != [] && t[a[0]].state != TERMINATED
    ensures Config(a[1..] + (b + [a[0]]), t[a[0] := Serve(t[a[0]])], res).Valid()
    ensures Run(Config(a + b, t, res))
            == Run(Config(a[1..] + (b + [a[0]]), t[a[0] := Serve(t[a[0]])], res))
  {
    var c := Config(a + b, t, res);
    StepShape(c);
    assert c.queue[1..] + [a[0]] == a[1..] + (b + [a[0]]);
  }

  /** A TERMINATED head goes to the results. */
  lemma RunRetiresHead(a: seq<Pid>, t: Table, res: seq<Pid>)
    requires Config(a, t, res).Valid() && a != [] && t[a[0]].state == TERMINATED
    ensures Config(a[1..], t, res + [a[0]]).Valid()
    ensures Run(Config(a, t, res)) == Run(Config(a[1..], t, res + [a[0]]))
  {
    StepShape(Config(a, t, res));
  }

  lemma HeadToResults(res: seq<Pid>, a: seq<Pid>)
    requires a != []
    ensures res + [a[0]] + a[1..] == res + a
  {
    assert a == [a[0]] + a[1..];
  }

  /** The round in progress: the processes of `a` still have `j` steps to
      go, those of `b` have already been served this round and have `j - 1`.
      Round after round the list keeps its cyclic order, so the processes
      finish in the order `b + a`. */
  lemma {:induction false} RunRounds(a: seq<Pid>, b: seq<Pid>, t: Table, res: seq<Pid>, j: nat)
    requires Config(a + b, t, res).Valid() && Distinct(a + b)
    requires forall id :: id in a ==> t[id].remaining == j
    requires forall id :: id in b ==> t[id].remaining + 1 == j
    requires b != [] ==> j > 0
    ensures Run(Config(a + b, t, res)).results == res + b + a
    decreases j, |a|, 1
  {
    if a == [] && b == [] {
      assert res + b + a == res;
    } else if a == [] {
      assert a + b == b + a && res + b + a == res + a + b;
      RunRounds(b, a, t, res, j - 1);
    } else if j == 0 {
      assert a + b == a && res + b + a == res + a;
      RunRetiresAll(a, t, res);
    } else {
      RunRoundsServe(a, b, t, res, j);
    }
  }

  /** The last round: every process is TERMINATED and is retired in turn. */
  lemma {:induction false} RunRetiresAll(a: seq<Pid>, t: Table, res: seq<Pid>)
    requires Config(a, t, res).Valid()
    requires forall id :: id in a ==> t[id].state == TERMINATED
    ensures Run(Config(a, t, res)).results == res + a
    decreases |a|
  {
    if a == [] {
      assert res + a == res;
    } else {
      assert a[0] in a;
      RunRetiresHead(a, t, res);
      assert forall id :: id in a[1..] ==> id in a;
      RunRetiresAll(a[1..], t, res + [a[0]]);
      HeadToResults(res, a);
    }
  }

  /** A round under way: the head is served and joins the processes
      already served this round, at the tail. */
  lemma {:induction false} RunRoundsServe(a: seq<Pid>, b: seq<Pid>, t: Table, res: seq<Pid>, j: nat)
    requires Config(a + b, t, res).Valid() && Distinct(a + b) && a != [] && j > 0
    requires forall id :: id in a ==> t[id].remaining == j
    requires forall id :: id in b ==> t[id].remaining + 1 == j
    ensures Run(Config(a + b, t, res)).results == res + b + a
    decreases j, |a|, 0
  {
    var h := a[0];
    assert h in a;
    RotateDistinct(a, b);
    RunServesHead(a, b, t, res);
    RunRounds(a[1..], b + [h], t[h := Serve(t[h])], res, j);
    MoveToTail(res, b, h, a[1..]);
    assert a == [h] + a[1..];
  }

  /** Round Robin is fair: when no process is queued twice and every one
      needs the same number of steps, they complete in the order they were
      queued. */
  lemma EqualWorkKeepsOrder(q: seq<Pid>, t: Table, k: nat)
    requires Config(q, t, []).Valid() && Distinct(q)
    requires forall id :: id in q ==> t[id].remaining == k
    ensures Run(Config(q, t, [])).results == q
  {
    assert q + [] == q;
    RunRounds(q, [], t, [], k);
  }

  /** With unequal work the order can change: a process queued first that
      needs two steps completes after one queued behind it that needs one. */
  lemma ShorterWorkOvertakes()
    ensures var t := map[1 := Process(0, NEW, 2), 2 := Process(0, NEW, 1)];
      Run(Config([1, 2], t, [])).results == [2, 1]
  {
    var t0 := map[1 := Process(0, NEW, 2), 2 := Process(0, NEW, 1)];
    var t1 := t0[1 := Process(0, RUNNING, 1)];
    var t2 := t1[2 := Process(0, TERMINATED, 0)];
    var t3 := t2[1 := Process(0, TERMINATED, 0)];
    var c0 := Config([1, 2], t0, []);
    var c1 := Config([2, 1], t1, []);
    var c2 := Config([1, 2], t2, []);
    var c3 := Config([2, 1], t3, []);
    var c4 := Config([1], t3, [2]);
    var c5 := Config([], t3, [2, 1]);
    StepShape(c0);
    assert Step(c0) == c1;
    StepShape(c1);
    assert Step(c1) == c2;
    StepShape(c2);
    assert Step(c2) == c3;
    StepShape(c3);
    assert Step(c3) == c4;
    StepShape(c4);
    assert Step(c4) == c5;
    assert Run(c0) == Run(c1) == Run(c2) == Run(c3) == Run(c4) == Run(c5) == c5;
  }

  /** How many iterations the loop makes before the list is empty: at most
      the budget, and exactly the budget when no process is queued twice. */
  function Iterations(c: Config): (n: nat)
    requires c.Valid()
    ensures n <= Budget(c.queue, c.procs)
    ensures Distinct(c.queue) ==> n == Budget(c.queue, c.procs)
    decreases Budget(c.queue, c.procs)
  {
    if c.queue == [] then 0 else StepExact(c); 1 + Iterations(Step(c))
  }

  class RRReceiver {
    /** The processes waiting for a turn, head first. */
    var queue: seq<Pid>
    /** The current state of every process handed to this receiver. */
    var procs: Table

    ghost predicate Valid()
      reads this
    {
      Config(queue, procs, []).Valid()
    }

    constructor ()
      ensures Valid() && queue == [] && procs == map[]
    {
      queue := [];
      procs := map[];
    }

    /** Adds process `m`, currently in state `p`, at the tail of the list. */
    method Enqueue(m: Pid, p: Process)
      requires Valid() && p.Wf()
      requires m in procs ==> procs[m] == p
      modifies this
      ensures Valid()
      ensures queue == old(queue) + [m]
      ensures procs == old(procs)[m := p]
    {
      queue := queue + [m];
      procs := procs[m := p];
    }

    /** One iteration of the loop of `startRegistration`: take the head,
        start it if NEW, add it to `results` if TERMINATED, interrupt it
        otherwise, and put it back at the tail unless it was retired. */
    method ServeHead(results: seq<Pid>) returns (results': seq<Pid>)
      requires Config(queue, procs, results).Valid() && queue != []
      modifies this
      ensures Config(queue, procs, results') == Step(Config(old(queue), old(procs), results))
    {
      ghost var before := Config(queue, procs, results);
      StepShape(before);
      var process := queue[0];
      queue := queue[1..];
      var p := procs[process];
      results' := results;
      if p.state == NEW {
        procs := procs[process := Start(p)];
        queue := queue + [process];
      } else if p.state == TERMINATED {
        results' := results + [process];
      } else {
        procs := procs[process := Interrupt(p)];
        queue := queue + [process];
      }
    }

    /** Drives every queued process to completion and returns them in the
        order they were observed TERMINATED. */
    method StartRegistration() returns (results: seq<Pid>)
      requires Valid()
      modifies this
      ensures Valid() && queue == []
      ensures Config(queue, procs, results) == Run(Config(old(queue), old(procs), []))
      ensures multiset(results) == multiset(old(queue))
      ensures forall id :: id in results ==> id in procs && procs[id].state == TERMINATED
      ensures procs.Keys == old(procs).Keys
      ensures forall id :: id in procs ==> procs[id].priority == old(procs)[id].priority
      ensures forall id :: id in old(procs) && id !in old(queue) ==> procs[id] == old(procs)[id]
    {
      ghost var start := Config(queue, procs, []);
      RunConserves(start);
      RunRetires(start);
      RunKeeps(start);
      results := [];
      while queue != []
        invariant Config(queue, procs, results).Valid()
        invariant Run(Config(queue, procs, results)) == Run(start)
        decreases Budget(queue, procs)
      {
        results := ServeHead(results);
      }
    }
  }
}
