/** Finite relations: one without a cycle has a rank that goes down along it. */
module Cycles {
  ghost predicate IsWalk(edge: (string, string) -> bool, p: seq<string>) {
    |p| > 0 && forall i | 0 <= i < |p| - 1 :: edge(p[i], p[i + 1])
  }

  /** A walk along the relation that comes back to where it began. */
  ghost predicate IsCycle(edge: (string, string) -> bool, p: seq<string>) {
    |p| > 1 && IsWalk(edge, p) && p[0] == p[|p| - 1]
  }

  ghost predicate Cyclic(edge: (string, string) -> bool) { exists p :: IsCycle(edge, p) }

  ghost predicate Descends(edge: (string, string) -> bool, names: set<string>, rank: string -> nat, top: nat) {
    && (forall n | n in names :: rank(n) < top)
    && (forall n, m | n in names && m in names && edge(n, m) :: rank(m) < rank(n))
  }

  /** A successor within the names for each of them. */
  ghost predicate Leads(edge: (string, string) -> bool, names: set<string>, next: string -> string) {
    forall a {:trigger next(a)} :: a in names ==> next(a) in names && edge(a, next(a))
  }

  lemma {:induction false} WalkWithin(edge: (string, string) -> bool, names: set<string>, next: string -> string,
                                      n: string, k: nat)
    returns (p: seq<string>)
    requires n in names && Leads(edge, names, next)
    ensures |p| == k + 1 && p[0] == n && IsWalk(edge, p) && forall i | 0 <= i < |p| :: p[i] in names
    decreases k
  {
    if k == 0 {
      p := [n];
    } else {
      var m := next(n);
      var rest := WalkWithin(edge, names, next, m, k - 1);
      p := [n] + rest;
    }
  }

  lemma {:induction false} Repeats(p: seq<string>, names: set<string>) returns (i: nat, j: nat)
    requires |p| > |names| && forall i | 0 <= i < |p| :: p[i] in names
    ensures i < j < |p| && p[i] == p[j]
    decreases |p|
  {
    var last := |p| - 1;
    if k :| 0 <= k < last && p[k] == p[last] {
      i, j := k, last;
    } else {
      i, j := Repeats(p[..last], names - {p[last]});
    }
  }

  lemma CycleWithin(edge: (string, string) -> bool, names: set<string>, next: string -> string)
    requires names != {} && Leads(edge, names, next)
    ensures Cyclic(edge)
  {
    var n :| n in names;
    var p := WalkWithin(edge, names, next, n, |names|);
    var i, j := Repeats(p, names);
    assert IsCycle(edge, p[i..j + 1]);
  }

  ghost predicate LeadsNowhere(edge: (string, string) -> bool, names: set<string>, n: string) {
    forall m | m in names :: !edge(n, m)
  }

  ghost function Successor(edge: (string, string) -> bool, names: set<string>, n: string): string {
    if LeadsNowhere(edge, names, n) then n else var m :| m in names && edge(n, m); m
  }

  /** Without a cycle, some name leads nowhere. */
  lemma SinkExists(edge: (string, string) -> bool, names: set<string>)
    requires names != {} && !Cyclic(edge)
    ensures exists n :: n in names && LeadsNowhere(edge, names, n)
  {
    if forall n | n in names :: !LeadsNowhere(edge, names, n) {
      CycleWithin(edge, names, n => Successor(edge, names, n));
    }
  }

  lemma {:induction false} RankExists(edge: (string, string) -> bool, names: set<string>)
    returns (rank: string -> nat, top: nat)
    requires !Cyclic(edge)
    ensures Descends(edge, names, rank, top)
  {
    if names == {} {
      rank, top := n => 0, 0;
    } else {
      SinkExists(edge, names);
      var sink :| sink in names && LeadsNowhere(edge, names, sink);
      var above, more := RankExists(edge, names - {sink});
      rank, top := n => if n == sink then 0 else above(n) + 1, more + 1;
    }
  }

  /** Something that goes down along the relation does not go round a cycle. */
  lemma {:induction false} WalkDescends(edge: (string, string) -> bool, p: seq<string>, size: string -> nat)
    requires IsWalk(edge, p) && forall i | 0 <= i < |p| - 1 :: size(p[i + 1]) < size(p[i])
    ensures |p| > 1 ==> size(p[|p| - 1]) < size(p[0])
  {
    if |p| > 2 {
      WalkDescends(edge, p[..|p| - 1], size);
    }
  }
}
