/**
 How results of goroutines reach the loop that collects them: there is one receive per goroutine, and each receive
 either takes a result not taken before or finds the context cancelled.
 */
module Schedules {
  import opened Wrappers

  /** `Some(i)` receives the result of goroutine i, `None` finds the context cancelled. */
  type Schedule = seq<Option<nat>>

  ghost predicate IsSchedule(schedule: Schedule, n: nat) {
    && |schedule| == n
    && (forall i :: 0 <= i < n && schedule[i].Some? ==> schedule[i].value < n)
    && (forall i, j :: 0 <= i < j < n && schedule[i].Some? ==> schedule[i] != schedule[j])
  }

  predicate Arrived(schedule: Schedule, i: nat) { Some(i) in schedule }

  predicate Undisturbed(schedule: Schedule) { None !in schedule }

  ghost function Below(n: nat): (s: set<nat>)
    ensures |s| == n && forall i: nat :: i in s <==> i < n
  {
    if n == 0 then {} else Below(n - 1) + {n - 1}
  }

  ghost function Values(schedule: Schedule, k: nat): (s: set<nat>)
    requires k <= |schedule| && (forall i :: 0 <= i < k ==> schedule[i].Some?)
    requires forall i, j :: 0 <= i < j < k ==> schedule[i] != schedule[j]
    ensures |s| == k && forall v :: v in s <==> exists i :: 0 <= i < k && schedule[i] == Some(v)
  {
    if k == 0 then {} else Values(schedule, k - 1) + {schedule[k - 1].value}
  }

  lemma {:induction false} SubsetOfSameSize(a: set<nat>, b: set<nat>)
    requires a <= b && |a| == |b|
    ensures a == b
  {
    if a != {} {
      var e :| e in a;
      SubsetOfSameSize(a - {e}, b - {e});
      assert a == (a - {e}) + {e} && b == (b - {e}) + {e};
    }
  }

  /** As many receives as results and no cancellation: every result arrives. */
  lemma EverythingArrives(schedule: Schedule, n: nat, i: nat)
    requires IsSchedule(schedule, n) && Undisturbed(schedule) && i < n
    ensures Arrived(schedule, i)
  {
    forall k | 0 <= k < n ensures schedule[k].Some? {
      assert schedule[k] in schedule;
    }
    var values := Values(schedule, n);
    SubsetOfSameSize(values, Below(n));
    assert i in values;
  }

  ghost function Received(schedule: Schedule, n: nat): set<nat> { set i | 0 <= i < n && Arrived(schedule, i) }

  /** The goroutines whose results the first k receives took. */
  ghost predicate Took(schedule: Schedule, k: nat, got: set<nat>)
    requires k <= |schedule|
  {
    forall i: nat :: i in got <==> exists j | 0 <= j < k :: schedule[j] == Some(i)
  }

  /** No result is taken twice. */
  lemma TookNext(schedule: Schedule, n: nat, k: nat, got: set<nat>)
    requires IsSchedule(schedule, n) && k < n && Took(schedule, k, got)
    ensures schedule[k].Some? ==> schedule[k].value < n && schedule[k].value !in got
    ensures Took(schedule, k + 1, if schedule[k].Some? then got + {schedule[k].value} else got)
  {
  }

  lemma TookAll(schedule: Schedule, n: nat, got: set<nat>)
    requires IsSchedule(schedule, n) && Took(schedule, n, got)
    ensures got == Received(schedule, n)
  {
  }
}
