/** The Priority receiver: processes wait in a priority queue ordered by a
    hand-written comparator, and the loop always serves a process of least
    priority value. */
module PriorityScheduling {
  import opened Processes
  import opened Scheduling

  /** Java's `Integer.compare`: the sign of `x - y`, as -1, 0 or 1. */
  function IntegerCompare(x: int, y: int): (r: int)
    ensures r == -1 || r == 0 || r == 1
    ensures r < 0 <==> x < y
    ensures r == 0 <==> x == y
  {
    if x < y then -1 else if x == y then 0 else 1
  }

  /** The comparator handed to the priority queue: -1 on equal priorities,
      otherwise the ordinary comparison of the two priorities. */
  function ComparePriority(p1: int, p2: int): (r: int)
    ensures r != 0
    ensures r == -1 <==> p1 <= p2
    ensures r == 1 <==> p1 > p2
  {
    if p1 == p2 then -1 else IntegerCompare(p1, p2)
  }

  /** Two processes of equal priority each compare as less than the other. */
  lemma EqualPrioritiesBothLess(a: int, b: int)
    requires a == b
    ensures ComparePriority(a, b) == -1 && ComparePriority(b, a) == -1
  {
  }

  /** So the comparator is not antisymmetric, which a `Comparator` must be:
      the order in which ties leave the queue is not fixed by this code. */
  lemma NotAntisymmetric()
    ensures exists a: int, b: int :: ComparePriority(a, b) != -ComparePriority(b, a)
  {
    assert ComparePriority(0, 0) != -ComparePriority(0, 0);
  }

  /** The comparator's "less" is `<=` on priorities, which is transitive. */
  lemma {:induction false} CompareTransitive(a: int, b: int, c: int)
    requires ComparePriority(a, b) < 0 && ComparePriority(b, c) < 0
    ensures ComparePriority(a, c) < 0
  {
    assert a <= b && b <= c;
  }

  /** `m` is queued and no queued process has a smaller priority. */
  predicate IsLeast(q: seq<Pid>, t: Table, m: Pid)
    requires Tracked(q, t)
  {
    m in q && forall id :: id in q ==> ComparePriority(t[id].priority, t[m].priority) > 0 || t[id].priority == t[m].priority
  }

  /** A non-empty queue always has a least element. */
  lemma {:induction false} LeastExists(q: seq<Pid>, t: Table)
    requires Tracked(q, t) && q != []
    ensures exists m :: IsLeast(q, t, m)
    decreases |q|
  {
    if |q| == 1 {
      assert IsLeast(q, t, q[0]);
    } else {
      assert forall id :: id in q[1..] ==> id in q;
      LeastExists(q[1..], t);
      var m :| IsLeast(q[1..], t, m);
      assert q == [q[0]] + q[1..];
      if t[q[0]].priority <= t[m].priority {
        assert IsLeast(q, t, q[0]);
      } else {
        assert IsLeast(q, t, m);
      }
    }
  }

  /** The receiver's state during a run: the queue's contents, the
      processes, and the completed processes in the order they were observed
      TERMINATED.  The order of `queue` stands for the queue's storage, which
      the contracts below never rely on. */
  datatype Config = Config(queue: seq<Pid>, procs: Table, results: seq<Pid>)
  {
    ghost predicate Valid() {
      Tracked(queue, procs) && AllWf(procs)
    }

    /** Everything in the results has finished. */
    ghost predicate Retired() {
      Tracked(results, procs) && AllTerminated(results, procs)
    }

    /** The results are in priority order. */
    ghost predicate Sorted()
      requires Retired()
    {
      forall i, j :: 0 <= i < j < |results| ==>
        procs[results[i]].priority <= procs[results[j]].priority
    }

    /** No process still queued comes before a completed one. */
    ghost predicate Ahead()
      requires Valid() && Retired()
    {
      forall i, id :: 0 <= i < |results| && id in queue ==>
        procs[results[i]].priority <= procs[id].priority
    }
  }

  /** `c` is reachable from `c0` as far as the processes are concerned: the
      same processes with the same priorities, only those of `c0`'s queue
      touched, and only those still queued. */
  ghost predicate Follows(c0: Config, c: Config)
    requires c0.Valid() && c.Valid()
  {
    && c.procs.Keys == c0.procs.Keys
    && (forall id :: id in c.procs ==> c.procs[id].priority == c0.procs[id].priority)
    && (forall id :: id in c0.procs && id !in c0.queue ==> c.procs[id] == c0.procs[id])
    && (forall id :: id in c.queue ==> id in c0.queue)
  }

  /** One iteration of the scheduling loop, once `poll` has chosen the
      process at position k of the queue's storage: start it if NEW, retire
      it if TERMINATED, interrupt it otherwise, and add it back unless it was
      retired. */
  function Step(c: Config, k: nat): (r: Config)
    requires c.Valid() && k < |c.queue|
    ensures r.Valid()
    ensures Budget(r.queue, r.procs) < Budget(c.queue, c.procs)
  {
    var process := c.queue[k];
    var rest := c.queue[..k] + c.queue[k + 1..];
    BudgetRemove(c.queue, k, c.procs);
    var p := c.procs[process];
    if p.state == TERMINATED then
      Config(rest, c.procs, c.results + [process])
    else
      var t := c.procs[process := Serve(p)];
      ServeBudget(rest, [], c.procs, process);
      assert [] + [process] == [process];
      BudgetConcat(rest, [process], t);
      Config(rest + [process], t, c.results)
  }

  /** The three branches of a step, spelled out. */
  lemma StepShape(c: Config, k: nat)
    requires c.Valid() && k < |c.queue|
    ensures var r, h, rest := Step(c, k), c.queue[k], c.queue[..k] + c.queue[k + 1..];
      && (c.procs[h].state == TERMINATED ==> r == Config(rest, c.procs, c.results + [h]))
      && (c.procs[h].state == NEW ==>
            r == Config(rest + [h], c.procs[h := Start(c.procs[h])], c.results))
      && (c.procs[h].Started() ==>
            r == Config(rest + [h], c.procs[h := Interrupt(c.procs[h])], c.results))
  {
  }

  /** A step moves processes between the queue and the results, never
      creating or losing one. */
  lemma StepConserves(c: Config, k: nat)
    requires c.Valid() && k < |c.queue|
    ensures multiset(Step(c, k).queue) + multiset(Step(c, k).results)
            == multiset(c.queue) + multiset(c.results)
  {
    var h, rest := c.queue[k], c.queue[..k] + c.queue[k + 1..];
    assert c.queue == c.queue[..k] + [h] + c.queue[k + 1..];
    StepShape(c, k);
  }

  /** No process is ever queued twice: a queue without duplicates keeps
      none after a step. */
  lemma StepDistinct(c: Config, k: nat)
    requires c.Valid() && k < |c.queue|
    ensures Distinct(c.queue) ==> Distinct(Step(c, k).queue)
  {
    var r := Step(c, k);
    StepConserves(c, k);
    StepShape(c, k);
    var extra := r.results[|c.results|..];
    assert r.results == c.results + extra;
    forall x ensures multiset(r.queue)[x] <= multiset(c.queue)[x] {
      assert (multiset(r.queue) + multiset(r.results))[x] == (multiset(c.queue) + multiset(c.results))[x];
    }
    if Distinct(c.queue) {
      DistinctSub(c.queue, r.queue);
    }
  }

  /** A step touches only the process it serves, which was queued. */
  lemma {:induction false} StepFollows(c0: Config, c: Config, k: nat)
    requires c0.Valid() && c.Valid() && k < |c.queue| && Follows(c0, c)
    ensures Follows(c0, Step(c, k))
  {
    var r, h, rest := Step(c, k), c.queue[k], c.queue[..k] + c.queue[k + 1..];
    StepShape(c, k);
    assert forall id :: id in rest ==> id in c.queue by {
      assert c.queue == c.queue[..k] + [h] + c.queue[k + 1..];
    }
    if c.procs[h].state != TERMINATED {
      assert r.procs == c.procs[h := Serve(c.procs[h])];
    }
  }

  /** A process is only retired once it is TERMINATED, and a TERMINATED
      process is never served again, so the results stay finished. */
  lemma StepRetires(c: Config, k: nat)
    requires c.Valid() && k < |c.queue| && c.Retired()
    ensures Step(c, k).Retired()
  {
    StepShape(c, k);
  }

  /** Serving a least process keeps every completed process ahead of the
      queue: the served process is no later than anything still queued. */
  lemma {:induction false} StepAhead(c: Config, k: nat)
    requires c.Valid() && k < |c.queue| && c.Retired() && c.Ahead()
    requires IsLeast(c.queue, c.procs, c.queue[k])
    ensures Step(c, k).Retired() && Step(c, k).Ahead()
  {
    var r, h, rest := Step(c, k), c.queue[k], c.queue[..k] + c.queue[k + 1..];
    StepShape(c, k);
    StepRetires(c, k);
    assert forall id :: id in rest ==> id in c.queue by {
      assert c.queue == c.queue[..k] + [h] + c.queue[k + 1..];
    }
    if c.procs[h].state == TERMINATED {
      forall i, id | 0 <= i < |r.results| && id in r.queue
        ensures r.procs[r.results[i]].priority <= r.procs[id].priority
      {
        assert id in c.queue;
        if i < |c.results| {
          assert r.results[i] == c.results[i];
        } else {
          assert r.results[i] == h;
        }
      }
    } else {
      assert r.procs == c.procs[h := Serve(c.procs[h])];
      forall i, id | 0 <= i < |r.results| && id in r.queue
        ensures r.procs[r.results[i]].priority <= r.procs[id].priority
      {
        assert r.results[i] == c.results[i];
        assert id in c.queue;
      }
    }
  }

  /** Serving a least process keeps the results in priority order: a
      process retired now is no earlier than anything retired before. */
  lemma {:induction false} StepSorted(c: Config, k: nat)
    requires c.Valid() && k < |c.queue| && c.Retired() && c.Ahead() && c.Sorted()
    ensures Step(c, k).Retired() && Step(c, k).Sorted()
  {
    var r, h := Step(c, k), c.queue[k];
    StepShape(c, k);
    StepRetires(c, k);
    if c.procs[h].state == TERMINATED {
      forall i, j | 0 <= i < j < |r.results|
        ensures r.procs[r.results[i]].priority <= r.procs[r.results[j]].priority
      {
        assert r.results[i] == c.results[i];
        if j < |c.results| {
          assert r.results[j] == c.results[j];
        } else {
          assert r.results[j] == h;
        }
      }
    } else {
      assert r.procs == c.procs[h := Serve(c.procs[h])];
      forall i, j | 0 <= i < j < |r.results|
        ensures r.procs[r.results[i]].priority <= r.procs[r.results[j]].priority
      {
        assert r.results[i] == c.results[i] && r.results[j] == c.results[j];
      }
    }
  }

  /** What the scheduling loop keeps true, from its start `c0` to the
      current state `c`. */
  ghost predicate Invariant(c0: Config, c: Config)
  {
    && c0.Valid() && c.Valid() && c.Retired() && c.Sorted() && c.Ahead()
    && Follows(c0, c)
    && multiset(c.queue) + multiset(c.results) == multiset(c0.queue)
  }

  /** Once the queue is empty the invariant is what `startRegistration`
      promises: every queued process completed, in priority order, and no
      process the run was not given touched. */
  lemma Finished(c0: Config, c: Config)
    requires Invariant(c0, c) && c.queue == []
    ensures multiset(c.results) == multiset(c0.queue)
    ensures forall id :: id in c.results ==> id in c.procs && c.procs[id].state == TERMINATED
    ensures forall i, j :: 0 <= i < j < |c.results| ==>
              c.procs[c.results[i]].priority <= c.procs[c.results[j]].priority
    ensures c.procs.Keys == c0.procs.Keys
    ensures forall id :: id in c.procs ==> c.procs[id].priority == c0.procs[id].priority
    ensures forall id :: id in c0.procs && id !in c0.queue ==> c.procs[id] == c0.procs[id]
  {
  }

  /** One iteration that serves a least process keeps the invariant. */
  lemma StepKeepsInvariant(c0: Config, c: Config, k: nat)
    requires Invariant(c0, c) && k < |c.queue| && IsLeast(c.queue, c.procs, c.queue[k])
    ensures Invariant(c0, Step(c, k))
  {
    StepConserves(c, k);
    StepFollows(c0, c, k);
    StepAhead(c, k);
    StepSorted(c, k);
  }

  class PReceiver {
    /** The priority queue's contents; the order of its storage is not part
        of the model, only which processes it holds. */
    var queue: seq<Pid>
    /** The current state of every process handed to this receiver. */
    var procs: Table

    ghost predicate Valid()
      reads this
    {
      Config(queue, procs, []).Valid()
    }

    constructor ()
      ensures Valid() && queue == [] && procs == map[]
    {
      queue := [];
      procs := map[];
    }

    /** Adds process `m`, currently in state `p`, to the queue. */
    method Enqueue(m: Pid, p: Process)
      requires Valid() && p.Wf()
      requires m in procs ==> procs[m] == p
      modifies this
      ensures Valid()
      ensures multiset(queue) == multiset(old(queue)) + multiset{m}
      ensures procs == old(procs)[m := p]
    {
      queue := queue + [m];
      procs := procs[m := p];
    }

    /** Removes and returns some process of least priority; which one among
        equal priorities is left open.  `k` is where the queue kept it. */
    method Poll() returns (m: Pid, ghost k: nat)
      requires Valid() && queue != []
      modifies this
      ensures Valid() && procs == old(procs)
      ensures IsLeast(old(queue), procs, m)
      ensures multiset(queue) == multiset(old(queue)) - multiset{m}
      ensures k < |old(queue)| && m == old(queue)[k]
      ensures queue == old(queue)[..k] + old(queue)[k + 1..]
    {
      LeastExists(queue, procs);
      var least :| IsLeast(queue, procs, least);
      var i :| 0 <= i < |queue| && queue[i] == least;
      assert queue == queue[..i] + [least] + queue[i + 1..];
      m, k := least, i;
      queue := queue[..i] + queue[i + 1..];
    }

    /** One iteration of the loop of `startRegistration`: poll some least
        process, then start it if NEW, add it to `results` if TERMINATED, or
        interrupt it, and offer it back to the queue unless it was retired. */
    method ServeLeast(results: seq<Pid>) returns (results': seq<Pid>, ghost k: nat)
      requires Valid() && queue != []
      modifies this
      ensures k < |old(queue)| && IsLeast(old(queue), old(procs), old(queue)[k])
      ensures Config(queue, procs, results') == Step(Config(old(queue), old(procs), results), k)
    {
      ghost var before := Config(queue, procs, results);
      var process;
      process, k := Poll();
      StepShape(before, k);
      var p := procs[process];
      results' := results;
      if p.state == NEW {
        procs := procs[process := Start(p)];
        queue := queue + [process];
      } else if p.state == TERMINATED {
        results' := results + [process];
      } else {
        procs := procs[process := Interrupt(p)];
        queue := queue + [process];
      }
    }

    /** Drives every queued process to completion and returns them in the
        order they were observed TERMINATED, which is by priority. */
    method StartRegistration() returns (results: seq<Pid>)
      requires Valid()
      modifies this
      ensures Valid() && queue == []
      ensures multiset(results) == multiset(old(queue))
      ensures forall id :: id in results ==> id in procs && procs[id].state == TERMINATED
      ensures forall i, j :: 0 <= i < j < |results| ==>
                procs[results[i]].priority <= procs[results[j]].priority
      ensures procs.Keys == old(procs).Keys
      ensures forall id :: id in procs ==> procs[id].priority == old(procs)[id].priority
      ensures forall id :: id in old(procs) && id !in old(queue) ==> procs[id] == old(procs)[id]
    {
      ghost var start := Config(queue, procs, []);
      results := [];
      while queue != []
        invariant Invariant(start, Config(queue, procs, results))
        decreases Budget(queue, procs)
      {
        ghost var before := Config(queue, procs, results);
        ghost var k;
        results, k := ServeLeast(results);
        StepKeepsInvariant(start, before, k);
      }
      Finished(start, Config(queue, procs, results));
    }
  }
}
