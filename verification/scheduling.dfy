/** What the three receivers share: process identities, the table that maps
    each identity to its process, and the step budget that bounds every run. */
module Scheduling {
  import opened Processes

  /** A process is referenced, never copied: queues hold identities. */
  type Pid = nat

  /** The current state of every process a receiver knows. */
  type Table = map<Pid, Process>

  /** Every identity in `q` names a process of `t`. */
  ghost predicate Tracked(q: seq<Pid>, t: Table) {
    forall id :: id in q ==> id in t
  }

  ghost predicate AllWf(t: Table) {
    forall id :: id in t ==> t[id].Wf()
  }

  ghost predicate AllTerminated(q: seq<Pid>, t: Table)
    requires Tracked(q, t)
  {
    forall id :: id in q ==> t[id].state == TERMINATED
  }

  /** No process is queued twice (enqueueing one twice is a caller error). */
  ghost predicate Distinct(q: seq<Pid>) {
    forall i, j :: 0 <= i < j < |q| ==> q[i] != q[j]
  }

  /** Without duplicates every identity occurs at most once. */
  lemma {:induction false} DistinctOnce(q: seq<Pid>, x: Pid)
    requires Distinct(q)
    ensures multiset(q)[x] <= 1
  {
    if q != [] {
      assert q == [q[0]] + q[1..];
      assert Distinct(q[1..]) by {
        forall i, j | 0 <= i < j < |q[1..]| ensures q[1..][i] != q[1..][j] {
          assert q[1..][i] == q[i + 1] && q[1..][j] == q[j + 1];
        }
      }
      DistinctOnce(q[1..], x);
      if q[0] == x {
        assert x !in q[1..] by {
          forall i | 0 <= i < |q[1..]| ensures q[1..][i] != x {
            assert q[1..][i] == q[i + 1];
          }
        }
      }
    }
  }

  /** A queue holding no more than a queue without duplicates has none
      either. */
  lemma DistinctSub(q: seq<Pid>, q': seq<Pid>)
    requires Distinct(q) && multiset(q') <= multiset(q)
    ensures Distinct(q')
  {
    forall i, j | 0 <= i < j < |q'| ensures q'[i] != q'[j] {
      if q'[i] == q'[j] {
        var x := q'[j];
        assert q' == q'[..j] + [x] + q'[j + 1..];
        assert x in q'[..j] by {
          assert q'[..j][i] == q'[i];
        }
        assert multiset(q')[x] >= 2;
        DistinctOnce(q, x);
        assert false;
      }
    }
  }

  /** The scheduler iterations the queue `q` can still take: each queued
      process needs its remaining steps plus one final look at TERMINATED. */
  function Budget(q: seq<Pid>, t: Table): (w: nat)
    requires Tracked(q, t)
    ensures w >= |q|
    ensures q != [] ==> w > t[q[0]].remaining
  {
    if q == [] then 0 else t[q[0]].remaining + 1 + Budget(q[1..], t)
  }

  lemma {:induction false} BudgetConcat(a: seq<Pid>, b: seq<Pid>, t: Table)
    requires Tracked(a, t) && Tracked(b, t)
    ensures Tracked(a + b, t)
    ensures Budget(a + b, t) == Budget(a, t) + Budget(b, t)
  {
    if a == [] {
      assert a + b == b;
    } else {
      assert (a + b)[0] == a[0] && (a + b)[1..] == a[1..] + b;
      BudgetConcat(a[1..], b, t);
    }
  }

  lemma BudgetAppend(q: seq<Pid>, x: Pid, t: Table)
    requires Tracked(q, t) && x in t
    ensures Tracked(q + [x], t)
    ensures Budget(q + [x], t) == Budget(q, t) + t[x].remaining + 1
  {
    BudgetConcat(q, [x], t);
  }

  /** Removing the element at index k takes exactly its share off the budget. */
  lemma BudgetRemove(q: seq<Pid>, k: nat, t: Table)
    requires Tracked(q, t) && k < |q|
    ensures Tracked(q[..k] + q[k + 1..], t)
    ensures Budget(q[..k] + q[k + 1..], t) + t[q[k]].remaining + 1 == Budget(q, t)
  {
    assert q == q[..k] + ([q[k]] + q[k + 1..]);
    BudgetConcat(q[..k], [q[k]] + q[k + 1..], t);
    BudgetConcat(q[..k], q[k + 1..], t);
  }

  /** Lowering the budget of one process never raises the budget of a queue,
      and leaves it unchanged when that process is not queued. */
  lemma {:induction false} BudgetUpdate(q: seq<Pid>, t: Table, h: Pid, p: Process)
    requires Tracked(q, t) && h in t && p.remaining <= t[h].remaining
    ensures Tracked(q, t[h := p])
    ensures Budget(q, t[h := p]) <= Budget(q, t)
    ensures h !in q ==> Budget(q, t[h := p]) == Budget(q, t)
  {
    if q != [] {
      assert forall id :: id in q[1..] ==> id in q;
      BudgetUpdate(q[1..], t, h, p);
    }
  }

  /** The scheduler's action on a process that has not finished: a NEW
      process is started, any other one is interrupted. */
  function Serve(p: Process): (r: Process)
    requires p.Wf() && p.state != TERMINATED
    ensures r.Wf() && r.priority == p.priority && r.state != NEW
    ensures r.remaining + 1 == p.remaining
  {
    if p.state == NEW then Start(p) else Interrupt(p)
  }

  /** Serving the process `h` taken off a queue and putting it back at the
      tail of `dest` costs the run exactly one step of `h`'s budget. */
  lemma ServeBudget(src: seq<Pid>, dest: seq<Pid>, t: Table, h: Pid)
    requires Tracked(src, t) && Tracked(dest, t) && h in t
    requires t[h].Wf() && t[h].state != TERMINATED
    ensures Tracked(src, t[h := Serve(t[h])]) && Tracked(dest + [h], t[h := Serve(t[h])])
    ensures Budget(src, t[h := Serve(t[h])]) + Budget(dest + [h], t[h := Serve(t[h])])
            < Budget(src, t) + Budget(dest, t) + t[h].remaining + 1
    ensures h !in src && h !in dest ==>
              Budget(src, t[h := Serve(t[h])]) + Budget(dest + [h], t[h := Serve(t[h])])
              == Budget(src, t) + Budget(dest, t) + t[h].remaining
  {
    var t' := t[h := Serve(t[h])];
    BudgetUpdate(src, t, h, Serve(t[h]));
    BudgetUpdate(dest, t, h, Serve(t[h]));
    BudgetAppend(dest, h, t');
  }
}
