/** The thread table shared with libsinsp: entries, parent links and ancestors. */
module Threads {
  import opened Wrappers
  import opened CppString

  datatype Category = CatNone | CatContainer | CatHealthcheck | CatLivenessProbe | CatReadinessProbe

  datatype Thread = Thread(
    vpid: int, ptid: int, exe: string, args: seq<string>, cgroups: seq<Str>,
    containerId: string, category: Category)

  type Table = map<int, Thread>

  /** The thread id that n parent links lead to from tid; it need not have an entry itself. */
  function Up(t: Table, tid: int, n: nat): Option<int> {
    if n == 0 then Some(tid)
    else match Up(t, tid, n - 1)
      case Some(u) => if u in t then Some(t[u].ptid) else None
      case None => None
  }

  /** a is a strict ancestor of tid: one or more links lead from tid to a. */
  ghost predicate Above(t: Table, tid: int, a: int) {
    exists n: nat :: n >= 1 && Up(t, tid, n) == Some(a)
  }

  ghost predicate Acyclic(t: Table) {
    forall tid :: tid in t ==> !Above(t, tid, tid)
  }

  /** The first process of a container's pid namespace. */
  predicate IsInit(t: Table, a: int) {
    a in t && t[a].vpid == 1 && t[a].containerId != ""
  }

  ghost predicate HasInitAbove(t: Table, tid: int) {
    exists a :: Above(t, tid, a) && IsInit(t, a)
  }

  /** The climb from tid ends after n links: at an entry that is missing, or at an init. */
  predicate StopsAt(t: Table, tid: int, n: nat) {
    n >= 1 && Up(t, tid, n).Some? && (Up(t, tid, n).value !in t || IsInit(t, Up(t, tid, n).value))
  }

  ghost predicate ClimbStops(t: Table, tid: int) {
    exists n: nat :: StopsAt(t, tid, n)
  }

  // ---- links compose ----

  lemma {:induction false} UpUp(t: Table, tid: int, m: nat, n: nat)
    requires Up(t, tid, m).Some?
    ensures Up(t, tid, m + n) == Up(t, Up(t, tid, m).value, n)
  {
    if n > 0 {
      UpUp(t, tid, m, n - 1);
    }
  }

  /** What several links reach, every smaller number of links reaches an entry. */
  lemma {:induction false} UpThrough(t: Table, tid: int, m: nat, n: nat)
    requires m < n && Up(t, tid, n).Some?
    ensures Up(t, tid, m).Some? && Up(t, tid, m).value in t
  {
    if m < n - 1 {
      UpThrough(t, tid, m, n - 1);
    }
  }

  lemma AboveTransitive(t: Table, a: int, b: int, c: int)
    requires Above(t, a, b) && Above(t, b, c)
    ensures Above(t, a, c)
  {
    var m: nat :| m >= 1 && Up(t, a, m) == Some(b);
    var n: nat :| n >= 1 && Up(t, b, n) == Some(c);
    UpUp(t, a, m, n);
  }

  lemma ParentIsAbove(t: Table, tid: int)
    requires tid in t
    ensures Above(t, tid, t[tid].ptid)
  {
    assert Up(t, tid, 0) == Some(tid);
    assert Up(t, tid, 1) == Some(t[tid].ptid);
  }

  /** A strict ancestor is the parent, or a strict ancestor of the parent. */
  lemma AboveSplit(t: Table, tid: int, a: int)
    requires tid in t && Above(t, tid, a)
    ensures a == t[tid].ptid || (t[tid].ptid in t && Above(t, t[tid].ptid, a))
  {
    var n: nat :| n >= 1 && Up(t, tid, n) == Some(a);
    assert Up(t, tid, 0) == Some(tid);
    assert Up(t, tid, 1) == Some(t[tid].ptid);
    if n > 1 {
      UpUp(t, tid, 1, n - 1);
      UpThrough(t, tid, 1, n);
    }
  }

  /** Where the climb first stops decides whether there is an init above. */
  lemma FirstStopDecides(t: Table, tid: int, n: nat)
    requires StopsAt(t, tid, n) && forall m :: 1 <= m < n ==> !StopsAt(t, tid, m)
    ensures HasInitAbove(t, tid) <==> IsInit(t, Up(t, tid, n).value)
  {
    if HasInitAbove(t, tid) {
      var a :| Above(t, tid, a) && IsInit(t, a);
      var k: nat :| k >= 1 && Up(t, tid, k) == Some(a);
      assert StopsAt(t, tid, k);
      if n < k {
        UpThrough(t, tid, n, k);
      }
    }
    if IsInit(t, Up(t, tid, n).value) {
      assert Above(t, tid, Up(t, tid, n).value);
    }
  }

  // ---- the climb ends on every acyclic table ----

  /**
   * From a point whose climb has seen the entries of seen, each of them below the point, the climb
   * ends: the unvisited entries run out.
   */
  lemma {:induction false} ClimbEnds(t: Table, tid: int, n: nat, seen: set<int>)
    requires Acyclic(t) && n >= 1 && Up(t, tid, n).Some? && seen <= t.Keys
    requires forall v :: v in seen ==> Above(t, v, Up(t, tid, n).value)
    ensures ClimbStops(t, tid)
    decreases t.Keys - seen
  {
    var p := Up(t, tid, n).value;
    if StopsAt(t, tid, n) {
    } else {
      assert p !in seen;
      ParentIsAbove(t, p);
      forall v | v in seen + {p}
        ensures Above(t, v, t[p].ptid)
      {
        if v in seen {
          AboveTransitive(t, v, p, t[p].ptid);
        }
      }
      ClimbEnds(t, tid, n + 1, seen + {p});
    }
  }

  lemma AcyclicClimbStops(t: Table, tid: int)
    requires Acyclic(t) && tid in t
    ensures ClimbStops(t, tid)
  {
    assert Up(t, tid, 0) == Some(tid);
    ClimbEnds(t, tid, 1, {});
  }

  /** A climb that never stops runs through entries only, and meets no init, for ever. */
  lemma EndlessClimb(t: Table, tid: int, n: nat)
    requires tid in t && !ClimbStops(t, tid) && n >= 1
    ensures Up(t, tid, n).Some? && Up(t, tid, n).value in t && !IsInit(t, Up(t, tid, n).value)
  {
    assert Up(t, tid, 0) == Some(tid);
    if n > 1 {
      EndlessClimb(t, tid, n - 1);
    }
    assert Up(t, tid, n).Some?;
    assert !StopsAt(t, tid, n);
  }

  // ---- tables that differ in what the links do not see ----

  /** Same entries, same parents. */
  predicate SameLinks(t: Table, u: Table) {
    t.Keys == u.Keys && forall v :: v in t ==> t[v].ptid == u[v].ptid
  }

  lemma {:induction false} SameLinksUp(t: Table, u: Table, tid: int, n: nat)
    requires SameLinks(t, u)
    ensures Up(t, tid, n) == Up(u, tid, n)
  {
    if n > 0 {
      SameLinksUp(t, u, tid, n - 1);
    }
  }

  lemma SameLinksAbove(t: Table, u: Table)
    requires SameLinks(t, u)
    ensures forall v, a :: Above(t, v, a) <==> Above(u, v, a)
    ensures Acyclic(t) <==> Acyclic(u)
  {
    forall v, n: nat
      ensures Up(t, v, n) == Up(u, v, n)
    {
      SameLinksUp(t, u, v, n);
    }
    forall v, a
      ensures Above(t, v, a) <==> Above(u, v, a)
    {
      if Above(t, v, a) {
        var n: nat :| n >= 1 && Up(t, v, n) == Some(a);
        assert Up(u, v, n) == Some(a);
      }
      if Above(u, v, a) {
        var n: nat :| n >= 1 && Up(u, v, n) == Some(a);
        assert Up(t, v, n) == Some(a);
      }
    }
  }

  /** In a larger table with the same links the ancestors remain. */
  lemma {:induction false} LargerTableUp(t: Table, u: Table, tid: int, n: nat)
    requires t.Keys <= u.Keys && (forall v :: v in t ==> t[v].ptid == u[v].ptid) && Up(t, tid, n).Some?
    ensures Up(u, tid, n) == Up(t, tid, n)
  {
    if n > 0 {
      LargerTableUp(t, u, tid, n - 1);
    }
  }

  lemma LargerTableAbove(t: Table, u: Table)
    requires t.Keys <= u.Keys && forall v :: v in t ==> t[v].ptid == u[v].ptid
    ensures forall v, a :: Above(t, v, a) ==> Above(u, v, a)
    ensures Acyclic(u) ==> Acyclic(t)
  {
    forall v, a | Above(t, v, a)
      ensures Above(u, v, a)
    {
      var n: nat :| n >= 1 && Up(t, v, n) == Some(a);
      LargerTableUp(t, u, v, n);
    }
  }

  /** tid occurs nowhere: neither as an entry nor as a parent. */
  predicate Fresh(t: Table, tid: int) {
    tid !in t && forall v :: v in t ==> t[v].ptid != tid
  }

  lemma {:induction false} FreshNotReached(t: Table, tid: int, th: Thread, v: int, n: nat)
    requires Fresh(t, tid) && v != tid && th.ptid != tid
    ensures Up(t[tid := th], v, n) == Up(t, v, n)
    ensures Up(t, v, n) != Some(tid)
  {
    if n > 0 {
      FreshNotReached(t, tid, th, v, n - 1);
    }
  }

  /** A new leaf: the others keep their ancestors, and no cycle appears. */
  lemma FreshLeaf(t: Table, tid: int, th: Thread)
    requires Fresh(t, tid) && th.ptid != tid
    ensures forall v, a :: v != tid ==> (Above(t[tid := th], v, a) <==> Above(t, v, a)) && !Above(t, v, tid)
    ensures Acyclic(t) ==> Acyclic(t[tid := th])
  {
    var u := t[tid := th];
    forall v, a | v != tid
      ensures (Above(u, v, a) <==> Above(t, v, a)) && !Above(t, v, tid)
    {
      forall n: nat
        ensures Up(u, v, n) == Up(t, v, n) && Up(t, v, n) != Some(tid)
      {
        FreshNotReached(t, tid, th, v, n);
      }
      if Above(t, v, a) {
        var n: nat :| n >= 1 && Up(t, v, n) == Some(a);
        assert Up(u, v, n) == Some(a);
      }
      if Above(u, v, a) {
        var n: nat :| n >= 1 && Up(u, v, n) == Some(a);
        assert Up(t, v, n) == Some(a);
      }
    }
    if Above(u, tid, tid) {
      AboveSplit(u, tid, tid);
    }
  }
}
