/**
 Convergence: once the environment is quiet and API calls succeed, no infinite run of the controller exists, whatever
 stale copies its workers still hold, and where a run stops the queue is empty and every policy is settled.
 The compiled entry embeds the resourceVersion, so writing a status outdates the entry just written; and a policy may
 take its text from the entry of another, so that writing an entry outdates others. The loop settles because a
 lexicographic measure, with one pair of components for each rank of that relation, pays for these writes.
 */
module Convergence {
  import opened V1alpha1
  import opened Inlining
  import opened EntryReads
  import opened Reconcile
  import opened QueuedOrSynced

  // ---------- sums and counts ----------

  ghost function Sum(m: map<string, nat>): nat {
    if m == map[] then 0 else var k :| k in m; m[k] + Sum(m - {k})
  }

  lemma {:induction false} SumWithout(m: map<string, nat>, k: string)
    requires k in m
    ensures Sum(m) == m[k] + Sum(m - {k})
    decreases |m|
  {
    var p :| p in m && Sum(m) == m[p] + Sum(m - {p});
    if p != k {
      SumWithout(m - {p}, k);
      SumWithout(m - {k}, p);
      assert m - {p} - {k} == m - {k} - {p};
    }
  }

  lemma {:induction false} SumMonotone(m: map<string, nat>, m': map<string, nat>)
    requires m'.Keys <= m.Keys && forall k :: k in m' ==> m'[k] <= m[k]
    ensures Sum(m') <= Sum(m)
    decreases |m|
  {
    if m != map[] {
      var k :| k in m;
      SumWithout(m, k);
      SumMonotone(m - {k}, m' - {k});
      if k in m' {
        SumWithout(m', k);
      } else {
        assert m' - {k} == m';
      }
    }
  }

  /** One term shrinks or goes, none grows. */
  lemma SumShrinks(m: map<string, nat>, m': map<string, nat>, k: string)
    requires m'.Keys <= m.Keys && forall n :: n in m' ==> m'[n] <= m[n]
    requires k in m && m[k] > 0 && (k in m' ==> m'[k] < m[k])
    ensures Sum(m') < Sum(m)
  {
    SumWithout(m, k);
    SumMonotone(m - {k}, m' - {k});
    if k in m' {
      SumWithout(m', k);
    } else {
      assert m' - {k} == m';
    }
  }

  lemma {:induction false} FewerElements(a: set<string>, b: set<string>)
    requires a <= b
    ensures |a| <= |b|
  {
    if a != {} {
      var e :| e in a;
      FewerElements(a - {e}, b - {e});
    }
  }

  lemma OneFewer(a: set<string>, b: set<string>, e: string)
    requires a <= b && e in b && e !in a
    ensures |a| < |b|
  {
    FewerElements(a, b - {e});
  }

  lemma SumStep(m: map<string, nat>, m': map<string, nat>, name: string)
    requires forall n | n in m' && n != name :: n in m && m'[n] == m[n]
    requires name in m' ==> name in m && m'[name] < m[name]
    requires name in m ==> m[name] > 0
    ensures Sum(m') <= Sum(m)
    ensures name in m ==> Sum(m') < Sum(m)
  {
    SumMonotone(m, m');
    if name in m {
      SumShrinks(m, m', name);
    }
  }

  // ---------- jobs ----------

  predicate Live(s: State, n: string) { n in s.cips && !s.cips[n].deleting }

  /**
   The copy is what the first k visits give now, but for texts of policies: all of them, or those yet to be fetched.
   */
  ghost predicate Alike(x: External, s: State, all: bool, spec: Spec, k: nat, partial: Spec) {
    && k <= |Plan(spec)| && ExecPrefix(x, ViewOf(s), spec, k).Ok?
    && Like(all, ExecPrefix(x, ViewOf(s), spec, k).value, partial)
  }

  /** The job holds the stored object and is not bound to fail; texts it has read may be outdated. */
  ghost predicate Sound(x: External, s: State, name: string, j: Job) {
    && name in s.cips
    && match j
       case Fetched(orig) => s.cips[name] == orig && !orig.deleting
       case Inlining(orig, res, partial, k, _) =>
         ReadyToPublish(s, name, orig, res) && Alike(x, s, true, res.spec, k, partial)
       case Withdrawing(_, _, _) => false
       case Publishing(orig, res, compiled) =>
         ReadyToPublish(s, name, orig, res) && Alike(x, s, true, res.spec, |Plan(res.spec)|, compiled)
       case Reporting(orig, res, status, failed) =>
         !failed && ReadyToPublish(s, name, orig, res) && status == OkStatus(res.generation)
       case Finalizing(orig) => s.cips[name] == orig && orig.deleting
       case Releasing(orig) => s.cips[name] == orig && orig.deleting && name !in Entries(s)
  }

  /** Nor are the texts outdated. */
  ghost predicate Current(x: External, s: State, name: string, j: Job) {
    && Sound(x, s, name, j)
    && (j.Inlining? ==> Alike(x, s, false, j.res.spec, j.k, j.partial))
    && (j.Publishing? ==> Alike(x, s, false, j.res.spec, |Plan(j.res.spec)|, j.compiled))
    && (j.Reporting? ==> Synced(x, s, name))
  }

  // ---------- the quiet environment ----------

  ghost predicate Compiles(x: External, s: State, n: string) { Live(s, n) ==> Inline(x, ViewOf(s), s.cips[n].spec).Ok? }

  ghost predicate ReadBySome(s: State, m: string) { exists n :: Live(s, n) && Reads(s.cips[n].spec, m) }

  ghost predicate AllCompile(x: External, s: State) { forall n :: Compiles(x, s, n) }

  /** A policy that takes the entry of another live one has the higher rank. */
  ghost predicate Ranked(s: State, rank: string -> nat, top: nat) {
    && (forall n :: Live(s, n) ==> rank(n) < top)
    && (forall n, m :: Live(s, n) && Live(s, m) && Takes(s.cips[n].spec, m) ==> rank(m) < rank(n))
  }

  ghost predicate RendersText(x: External) { forall uid, version, spec :: x.render(uid, version, spec) != "" }

  /** A step of the controller when every call is answered. */
  ghost predicate QuietStep(x: External, s: State, a: Action) {
    Enabled(s, a) && (a.Start? || (a.Advance? && a.reply == Done))
  }

  /** Steps of the controller, all of which are answered. */
  ghost predicate OfController(actions: seq<Action>) {
    forall a :: a in actions ==> a.Start? || (a.Advance? && a.reply == Done)
  }

  // ---------- the measure ----------

  function Left(j: Job): nat {
    match j
    case Fetched(orig) => 2 * |Plan(orig.spec)| + 6
    case Inlining(_, res, _, k, tracked) =>
      (if k <= |Plan(res.spec)| then 2 * (|Plan(res.spec)| - k) else 0) + (if tracked then 4 else 5)
    case Publishing(_, _, _) => 3
    case Withdrawing(_, _, _) => 3
    case Reporting(_, _, _, _) => 2
    case Finalizing(_) => 2
    case Releasing(_) => 1
  }

  /** The job comes nearer to its end, or reaches it. */
  predicate Nearer(s: State, s': State, name: string) {
    name in s.jobs && (name in s'.jobs ==> Left(s'.jobs[name]) < Left(s.jobs[name]))
  }

  ghost predicate NotDoomed(x: External, s: State, name: string) { name in s.jobs ==> Sound(x, s, name, s.jobs[name]) }

  ghost predicate IsStale(x: External, s: State, name: string) {
    name in s.jobs && Sound(x, s, name, s.jobs[name]) && !Current(x, s, name, s.jobs[name])
  }

  ghost predicate IsUnsynced(x: External, s: State, name: string) { Live(s, name) && !Synced(x, s, name) }

  /** Steps still to be taken by jobs that are not sound, and by sound jobs of a rank that hold outdated texts. */
  ghost function Doomed(x: External, s: State): map<string, nat> {
    map n | n in s.jobs && !NotDoomed(x, s, n) :: Left(s.jobs[n])
  }

  ghost function Stale(x: External, s: State, rank: string -> nat, r: nat): map<string, nat> {
    map n | n in s.jobs && rank(n) == r && IsStale(x, s, n) :: Left(s.jobs[n])
  }

  ghost function Work(s: State): map<string, nat> { map n | n in s.jobs :: Left(s.jobs[n]) }

  ghost function Unsynced(x: External, s: State, rank: string -> nat, r: nat): set<string> {
    set n | n in s.cips && rank(n) == r && IsUnsynced(x, s, n)
  }

  /** The policies that still owe a write to the cluster, by the write they owe. */
  datatype Debts = Debts(
    unreleased: set<string>,
    unwithdrawn: set<string>,
    unprotected: set<string>,
    unreported: set<string>)

  ghost function DebtsOf(s: State): Debts {
    Debts(set n | n in s.cips && s.cips[n].deleting && OURS in s.cips[n].finalizers,
          set n | n in s.cips && s.cips[n].deleting && n in Entries(s),
          set n | n in s.cips && !s.cips[n].deleting && OURS !in s.cips[n].finalizers,
          set n | n in s.cips && !s.cips[n].deleting && s.cips[n].status != OkStatus(s.cips[n].generation))
  }

  /** The components of the measure, each a pair; those that weigh most come first. */
  ghost function Component(x: External, s: State, rank: string -> nat, top: nat, c: nat): (nat, nat) {
    var d := DebtsOf(s);
    if c == 0 then (Sum(Doomed(x, s)), |d.unreleased| + |d.unwithdrawn|)
    else if c == 1 then (|d.unprotected|, |d.unreported|)
    else if c < 2 + top then (Sum(Stale(x, s, rank, c - 2)), |Unsynced(x, s, rank, c - 2)|)
    else (|s.queue|, Sum(Work(s)))
  }

  function Size(top: nat): nat { 3 + top }

  /** One component, as a pair, goes down; or does not go up. */
  ghost predicate Falls(x: External, s: State, s': State, rank: string -> nat, top: nat, c: nat) {
    var p, p' := Component(x, s, rank, top, c), Component(x, s', rank, top, c);
    p'.0 < p.0 || (p'.0 == p.0 && p'.1 < p.1)
  }

  ghost predicate Stays(x: External, s: State, s': State, rank: string -> nat, top: nat, c: nat) {
    Falls(x, s, s', rank, top, c) || Component(x, s', rank, top, c) == Component(x, s, rank, top, c)
  }

  ghost predicate EarlierStay(x: External, s: State, s': State, rank: string -> nat, top: nat, c: nat) {
    forall d | 0 <= d < c :: Stays(x, s, s', rank, top, d)
  }

  /** One of the first n components goes down, and none before it goes up. */
  ghost predicate Lowers(x: External, s: State, s': State, rank: string -> nat, top: nat, n: nat) {
    exists c | 0 <= c < n :: Falls(x, s, s', rank, top, c) && EarlierStay(x, s, s', rank, top, c)
  }

  // ---------- a quiet step leaves the others as they are ----------

  lemma SuppliesIs(s: State, m: string)
    ensures Supplies(ViewOf(s), m) <==> m in Entries(s) && Entries(s)[m] != ""
  {
  }

  /** What the policy n reads is still there, and is the same where its text counts. */
  lemma StillFed(x: External, s: State, s': State, name: string, n: string, all: bool)
    requires OnlyTouches(s, s', name) && Live(s, n) && Compiles(x, s, n)
    requires Reads(s.cips[n].spec, name) ==> Supplies(ViewOf(s'), name)
    requires all || !Takes(s.cips[n].spec, name) || s.cm == s'.cm
    ensures SameOutside(ViewOf(s), ViewOf(s')) && Feeds(all, ViewOf(s), ViewOf(s'), s.cips[n].spec)
  {
    var v, w, spec := ViewOf(s), ViewOf(s'), s.cips[n].spec;
    forall key | Reads(spec, key) ensures
      && Supplies(v, key) && Supplies(w, key)
      && (!all && Takes(spec, key) ==> v.configMaps[IMAGE_POLICIES][key] == w.configMaps[IMAGE_POLICIES][key])
    {
      SuccessSupplies(x, v, spec, key);
      SuppliesIs(s, key);
      SuppliesIs(s', key);
    }
  }

  lemma StillAlike(x: External, s: State, s': State, all: bool, spec: Spec, k: nat, partial: Spec)
    requires SameOutside(ViewOf(s), ViewOf(s')) && Feeds(all, ViewOf(s), ViewOf(s'), spec)
    ensures Alike(x, s, all, spec, k, partial) <==> Alike(x, s', all, spec, k, partial)
  {
    if k <= |Plan(spec)| {
      PrefixLike(x, all, ViewOf(s), ViewOf(s'), spec, k);
      if ExecPrefix(x, ViewOf(s), spec, k).Ok? {
        var a, b := ExecPrefix(x, ViewOf(s), spec, k).value, ExecPrefix(x, ViewOf(s'), spec, k).value;
        if Like(all, a, partial) {
          LikeThrough(all, a, b, b);
          LikeThrough(all, b, a, partial);
        }
        if Like(all, b, partial) {
          LikeThrough(all, a, b, partial);
        }
      }
    }
  }

  /** A step on `name`: an entry that some live policy reads stays. */
  ghost predicate Kept(x: External, s: State, s': State, name: string) {
    && OnlyTouches(s, s', name) && AllCompile(x, s)
    && (ReadBySome(s, name) ==> Supplies(ViewOf(s'), name))
  }

  lemma KeptFeeds(x: External, s: State, s': State, name: string, n: string, all: bool)
    requires Kept(x, s, s', name) && Live(s, n)
    requires all || !Takes(s.cips[n].spec, name) || s.cm == s'.cm
    ensures SameOutside(ViewOf(s), ViewOf(s')) && Feeds(all, ViewOf(s), ViewOf(s'), s.cips[n].spec)
  {
    assert Compiles(x, s, n);
    if Reads(s.cips[n].spec, name) {
      assert ReadBySome(s, name);
    }
    StillFed(x, s, s', name, n, all);
  }

  /** A job elsewhere stays sound, or not, as long as what its policy reads stays there. */
  lemma SparedSound(x: External, s: State, s': State, name: string, n: string)
    requires OnlyTouches(s, s', name) && n != name && n in s.jobs && Compiles(x, s, n)
    requires Live(s, n) && Reads(s.cips[n].spec, name) ==> Supplies(ViewOf(s'), name)
    ensures Sound(x, s, n, s.jobs[n]) <==> Sound(x, s', n, s.jobs[n])
  {
    var j := s.jobs[n];
    if (j.Inlining? || j.Publishing?) && Live(s, n) && s.cips[n] == j.res {
      StillFed(x, s, s', name, n, true);
      if j.Inlining? {
        StillAlike(x, s, s', true, j.res.spec, j.k, j.partial);
      } else {
        StillAlike(x, s, s', true, j.res.spec, |Plan(j.res.spec)|, j.compiled);
      }
    }
  }

  lemma OtherSound(x: External, s: State, s': State, name: string, n: string)
    requires Kept(x, s, s', name) && n != name && n in s.jobs
    ensures Sound(x, s, n, s.jobs[n]) <==> Sound(x, s', n, s.jobs[n])
  {
    assert Compiles(x, s, n);
    if Live(s, n) && Reads(s.cips[n].spec, name) {
      assert ReadBySome(s, name);
    }
    SparedSound(x, s, s', name, n);
  }

  lemma OtherSynced(x: External, s: State, s': State, name: string, n: string)
    requires Kept(x, s, s', name) && n != name && Live(s, n) && (!Takes(s.cips[n].spec, name) || s.cm == s'.cm)
    ensures Synced(x, s, n) <==> Synced(x, s', n)
  {
    assert Compiles(x, s, n);
    KeptFeeds(x, s, s', name, n, false);
    SameCompilation(x, ViewOf(s), ViewOf(s'), s.cips[n].spec);
  }

  lemma OtherCurrent(x: External, s: State, s': State, name: string, n: string)
    requires Kept(x, s, s', name) && n != name && n in s.jobs
    requires Live(s, n) ==> !Takes(s.cips[n].spec, name) || s.cm == s'.cm
    ensures Current(x, s, n, s.jobs[n]) <==> Current(x, s', n, s.jobs[n])
  {
    var j := s.jobs[n];
    OtherSound(x, s, s', name, n);
    if Sound(x, s, n, j) && Live(s, n) {
      KeptFeeds(x, s, s', name, n, false);
      match j
      case Inlining(_, res, partial, k, _) => StillAlike(x, s, s', false, res.spec, k, partial);
      case Publishing(_, res, compiled) => StillAlike(x, s, s', false, res.spec, |Plan(res.spec)|, compiled);
      case Reporting(_, _, _, _) => OtherSynced(x, s, s', name, n);
      case _ =>
    }
  }

  // ---------- from one name to the whole measure ----------

  lemma DoomedElsewhere(x: External, s: State, s': State, name: string)
    requires Kept(x, s, s', name)
    requires NotDoomed(x, s', name) || (!NotDoomed(x, s, name) && Nearer(s, s', name))
    ensures Sum(Doomed(x, s')) <= Sum(Doomed(x, s))
    ensures !NotDoomed(x, s, name) ==> Sum(Doomed(x, s')) < Sum(Doomed(x, s))
  {
    var m, m' := Doomed(x, s), Doomed(x, s');
    forall n | n in m' && n != name ensures n in m && m'[n] == m[n] {
      OtherSound(x, s, s', name, n);
    }
    SumStep(m, m', name);
  }

  /** No other policy of the rank takes the touched entry, or it has not changed. */
  ghost predicate Indifferent(s: State, s': State, name: string, rank: string -> nat, r: nat) {
    forall n :: Live(s, n) && n != name && rank(n) == r ==> !Takes(s.cips[n].spec, name) || s.cm == s'.cm
  }

  lemma StaleElsewhere(x: External, s: State, s': State, name: string, rank: string -> nat, r: nat)
    requires Kept(x, s, s', name) && Indifferent(s, s', name, rank, r)
    requires rank(name) == r && IsStale(x, s', name) ==> IsStale(x, s, name) && Nearer(s, s', name)
    ensures Sum(Stale(x, s', rank, r)) <= Sum(Stale(x, s, rank, r))
    ensures rank(name) == r && IsStale(x, s, name) ==> Sum(Stale(x, s', rank, r)) < Sum(Stale(x, s, rank, r))
  {
    var m, m' := Stale(x, s, rank, r), Stale(x, s', rank, r);
    forall n | n in m' && n != name ensures n in m && m'[n] == m[n] {
      OtherSound(x, s, s', name, n);
      OtherCurrent(x, s, s', name, n);
    }
    SumStep(m, m', name);
  }

  lemma UnsyncedElsewhere(x: External, s: State, s': State, name: string, rank: string -> nat, r: nat)
    requires Kept(x, s, s', name) && Indifferent(s, s', name, rank, r)
    requires rank(name) == r && IsUnsynced(x, s', name) ==> IsUnsynced(x, s, name)
    ensures |Unsynced(x, s', rank, r)| <= |Unsynced(x, s, rank, r)|
    ensures rank(name) == r && IsUnsynced(x, s, name) && !IsUnsynced(x, s', name) ==>
      |Unsynced(x, s', rank, r)| < |Unsynced(x, s, rank, r)|
  {
    var a, b := Unsynced(x, s', rank, r), Unsynced(x, s, rank, r);
    forall n | n in a && n != name ensures n in b {
      OtherSynced(x, s, s', name, n);
    }
    FewerElements(a, b);
    if name in b && name !in a {
      OneFewer(a, b, name);
    }
  }

  predicate SameDebts(d: Debts, d': Debts, n: string) {
    && (n in d.unreleased <==> n in d'.unreleased)
    && (n in d.unwithdrawn <==> n in d'.unwithdrawn)
    && (n in d.unprotected <==> n in d'.unprotected)
    && (n in d.unreported <==> n in d'.unreported)
  }

  /** A debt of `name` is paid and none that weighs more is made. */
  predicate PaysDebt(d: Debts, d': Debts, name: string) {
    && (name in d'.unreleased ==> name in d.unreleased)
    && (name in d'.unwithdrawn ==> name in d.unwithdrawn)
    && (|| (name in d.unreleased && name !in d'.unreleased)
        || (name in d.unwithdrawn && name !in d'.unwithdrawn)
        || (&& (name in d'.unprotected ==> name in d.unprotected)
            && (|| (name in d.unprotected && name !in d'.unprotected)
                || (name in d.unreported && name !in d'.unreported))))
  }

  lemma SameElsewhere(a: set<string>, b: set<string>, name: string)
    requires forall n :: n != name ==> (n in a <==> n in b)
    ensures (name in a ==> name in b) ==> |a| <= |b|
    ensures name !in a && name in b ==> |a| < |b|
    ensures (name in a <==> name in b) ==> a == b
  {
    if name in a ==> name in b {
      FewerElements(a, b);
    }
    if name !in a && name in b {
      OneFewer(a, b, name);
    }
  }

  /** What the debts of the touched name do to the counts. */
  lemma DebtsElsewhere(s: State, s': State, name: string)
    requires OnlyTouches(s, s', name)
    ensures var d, d' := DebtsOf(s), DebtsOf(s');
      && (SameDebts(d, d', name) ==> d == d')
      && (PaysDebt(d, d', name) ==>
            || |d'.unreleased| + |d'.unwithdrawn| < |d.unreleased| + |d.unwithdrawn|
            || (&& |d'.unreleased| + |d'.unwithdrawn| <= |d.unreleased| + |d.unwithdrawn|
                && (|| |d'.unprotected| < |d.unprotected|
                    || (|d'.unprotected| <= |d.unprotected| && |d'.unreported| < |d.unreported|))))
  {
    var d, d' := DebtsOf(s), DebtsOf(s');
    SameElsewhere(d'.unreleased, d.unreleased, name);
    SameElsewhere(d'.unwithdrawn, d.unwithdrawn, name);
    SameElsewhere(d'.unprotected, d.unprotected, name);
    SameElsewhere(d'.unreported, d.unreported, name);
  }

  lemma LowersAt(x: External, s: State, s': State, rank: string -> nat, top: nat, c: nat)
    requires c < Size(top) && Falls(x, s, s', rank, top, c) && EarlierStay(x, s, s', rank, top, c)
    ensures Lowers(x, s, s', rank, top, Size(top))
  {
  }

  lemma LowersDoomed(x: External, s: State, s': State, name: string, rank: string -> nat, top: nat)
    requires Kept(x, s, s', name) && !NotDoomed(x, s, name) && Nearer(s, s', name)
    ensures Lowers(x, s, s', rank, top, Size(top))
  {
    DoomedElsewhere(x, s, s', name);
    LowersAt(x, s, s', rank, top, 0);
  }

  lemma DebtComponents(x: External, s: State, s': State, name: string, rank: string -> nat, top: nat)
    requires Kept(x, s, s', name) && NotDoomed(x, s', name) && PaysDebt(DebtsOf(s), DebtsOf(s'), name)
    ensures Falls(x, s, s', rank, top, 0) || (Stays(x, s, s', rank, top, 0) && Falls(x, s, s', rank, top, 1))
  {
    hide Doomed, Stale, Unsynced, Work, Sum, NotDoomed, AllCompile, OnlyTouches, PaysDebt, DebtsOf;
    DoomedElsewhere(x, s, s', name);
    DebtsElsewhere(s, s', name);
  }

  lemma LowersDebt(x: External, s: State, s': State, name: string, rank: string -> nat, top: nat)
    requires Kept(x, s, s', name) && NotDoomed(x, s', name) && PaysDebt(DebtsOf(s), DebtsOf(s'), name)
    ensures Lowers(x, s, s', rank, top, Size(top))
  {
    DebtComponents(x, s, s', name, rank, top);
    LowersAt(x, s, s', rank, top, if Falls(x, s, s', rank, top, 0) then 0 else 1);
  }

  lemma TopStay(x: External, s: State, s': State, name: string, rank: string -> nat, top: nat)
    requires Kept(x, s, s', name) && NotDoomed(x, s', name) && SameDebts(DebtsOf(s), DebtsOf(s'), name)
    ensures Stays(x, s, s', rank, top, 0) && Stays(x, s, s', rank, top, 1)
  {
    hide Doomed, Stale, Unsynced, Work, Sum, NotDoomed, PaysDebt, AllCompile, OnlyTouches, SameDebts, DebtsOf;
    DoomedElsewhere(x, s, s', name);
    DebtsElsewhere(s, s', name);
  }

  lemma RankStays(x: External, s: State, s': State, name: string, rank: string -> nat, top: nat, c: nat)
    requires Kept(x, s, s', name) && 2 <= c < 2 + top && Indifferent(s, s', name, rank, c - 2)
    requires rank(name) == c - 2 ==> !IsStale(x, s', name) && (IsUnsynced(x, s', name) ==> IsUnsynced(x, s, name))
    ensures Stays(x, s, s', rank, top, c)
  {
    StaleElsewhere(x, s, s', name, rank, c - 2);
    UnsyncedElsewhere(x, s, s', name, rank, c - 2);
  }

  lemma LowerRanksIndifferent(s: State, s': State, name: string, rank: string -> nat, top: nat, r: nat)
    requires Ranked(s, rank, top) && Live(s, name) && r <= rank(name)
    ensures Indifferent(s, s', name, rank, r)
  {
  }

  lemma LowerRanksStay(x: External, s: State, s': State, name: string, rank: string -> nat, top: nat)
    requires Kept(x, s, s', name) && NotDoomed(x, s', name) && SameDebts(DebtsOf(s), DebtsOf(s'), name)
    requires Ranked(s, rank, top) && Live(s, name)
    ensures EarlierStay(x, s, s', rank, top, 2 + rank(name))
  {
    hide Stays, Component, Falls, OnlyTouches, SameDebts, DebtsOf, NotDoomed, Indifferent, AllCompile;
    TopStay(x, s, s', name, rank, top);
    forall c | 2 <= c < 2 + rank(name) ensures Stays(x, s, s', rank, top, c) {
      LowerRanksIndifferent(s, s', name, rank, top, c - 2);
      RankStays(x, s, s', name, rank, top, c);
    }
  }

  /** A sound job on outdated texts comes nearer to its end. */
  lemma StaleFalls(x: External, s: State, s': State, name: string, rank: string -> nat, top: nat)
    requires Kept(x, s, s', name) && Ranked(s, rank, top) && Live(s, name)
    requires IsStale(x, s, name) && Nearer(s, s', name)
    ensures Falls(x, s, s', rank, top, 2 + rank(name))
  {
    LowerRanksIndifferent(s, s', name, rank, top, rank(name));
    StaleElsewhere(x, s, s', name, rank, rank(name));
  }

  /** An entry comes into sync. */
  lemma UnsyncedFalls(x: External, s: State, s': State, name: string, rank: string -> nat, top: nat)
    requires Kept(x, s, s', name) && Ranked(s, rank, top) && Live(s, name) && !IsStale(x, s', name)
    requires IsUnsynced(x, s, name) && !IsUnsynced(x, s', name)
    ensures Falls(x, s, s', rank, top, 2 + rank(name))
  {
    LowerRanksIndifferent(s, s', name, rank, top, rank(name));
    StaleElsewhere(x, s, s', name, rank, rank(name));
    UnsyncedElsewhere(x, s, s', name, rank, rank(name));
  }

  lemma RankHasPlace(s: State, name: string, rank: string -> nat, top: nat)
    requires Ranked(s, rank, top) && Live(s, name)
    ensures 2 + rank(name) < Size(top)
  {
  }

  /** Progress at the rank of the policy: what its step outdates is of higher rank. */
  lemma LowersAtRank(x: External, s: State, s': State, name: string, rank: string -> nat, top: nat)
    requires Kept(x, s, s', name) && NotDoomed(x, s', name) && SameDebts(DebtsOf(s), DebtsOf(s'), name)
    requires Ranked(s, rank, top) && Live(s, name) && Falls(x, s, s', rank, top, 2 + rank(name))
    ensures Lowers(x, s, s', rank, top, Size(top))
  {
    hide *;
    RankHasPlace(s, name, rank, top);
    LowerRanksStay(x, s, s', name, rank, top);
    LowersAt(x, s, s', rank, top, 2 + rank(name));
  }

  lemma WorkShrinks(s: State, s': State, name: string)
    requires OnlyTouches(s, s', name) && Nearer(s, s', name)
    ensures Sum(Work(s')) < Sum(Work(s))
  {
    SumShrinks(Work(s), Work(s'), name);
  }

  /** The cluster stays as it is, and there is less in the queue or less work. */
  lemma LowersWork(x: External, s: State, s': State, name: string, rank: string -> nat, top: nat)
    requires Kept(x, s, s', name) && s'.cips == s.cips && s'.cm == s.cm
    requires name in s'.jobs ==> Current(x, s', name, s'.jobs[name])
    requires |s'.queue| < |s.queue| || (s'.queue == s.queue && Nearer(s, s', name))
    ensures Lowers(x, s, s', rank, top, Size(top))
  {
    assert ViewOf(s) == ViewOf(s');
    TopStay(x, s, s', name, rank, top);
    forall c | 2 <= c < 2 + top ensures Stays(x, s, s', rank, top, c) {
      RankStays(x, s, s', name, rank, top, c);
    }
    if |s'.queue| >= |s.queue| {
      WorkShrinks(s, s', name);
    }
    LowersAt(x, s, s', rank, top, 2 + top);
  }

  // ---------- the steps of one job ----------

  lemma InliningShortens(x: External, s: State, name: string)
    requires name in s.jobs && s.jobs[name].Inlining? && s.jobs[name].k <= |Plan(s.jobs[name].res.spec)|
    ensures var s' := AdvanceJob(x, s, name, Done); name in s'.jobs && Left(s'.jobs[name]) < Left(s.jobs[name])
  {
  }

  /** Every step brings a job nearer to its end. */
  lemma StepShortens(x: External, s: State, name: string)
    requires VersionsOk(s, name) && name in s.jobs
    ensures var s' := AdvanceJob(x, s, name, Done); name in s'.jobs ==> Left(s'.jobs[name]) < Left(s.jobs[name])
  {
    if s.jobs[name].Inlining? {
      InliningShortens(x, s, name);
    }
  }

  /** What a step of a sound job achieves for its own name. */
  ghost predicate Progress(x: External, s: State, s': State, name: string) {
    || PaysDebt(DebtsOf(s), DebtsOf(s'), name)
    || (SameDebts(DebtsOf(s), DebtsOf(s'), name) && Live(s, name) && IsStale(x, s, name) && Nearer(s, s', name))
    || (&& SameDebts(DebtsOf(s), DebtsOf(s'), name) && !IsStale(x, s', name)
        && IsUnsynced(x, s, name) && !IsUnsynced(x, s', name))
    || (&& s'.cips == s.cips && s'.cm == s.cm
        && (name in s'.jobs ==> Current(x, s', name, s'.jobs[name]))
        && (|s'.queue| < |s.queue| || (s'.queue == s.queue && Nearer(s, s', name))))
  }

  lemma ProgressLowers(x: External, s: State, s': State, name: string, rank: string -> nat, top: nat)
    requires Kept(x, s, s', name) && Ranked(s, rank, top) && NotDoomed(x, s', name) && Progress(x, s, s', name)
    ensures Lowers(x, s, s', rank, top, Size(top))
  {
    if PaysDebt(DebtsOf(s), DebtsOf(s'), name) {
      LowersDebt(x, s, s', name, rank, top);
    } else if SameDebts(DebtsOf(s), DebtsOf(s'), name) && Live(s, name) && IsStale(x, s, name)
              && Nearer(s, s', name) {
      StaleFalls(x, s, s', name, rank, top);
      LowersAtRank(x, s, s', name, rank, top);
    } else if SameDebts(DebtsOf(s), DebtsOf(s'), name) && !IsStale(x, s', name)
              && IsUnsynced(x, s, name) && !IsUnsynced(x, s', name) {
      UnsyncedFalls(x, s, s', name, rank, top);
      LowersAtRank(x, s, s', name, rank, top);
    } else {
      LowersWork(x, s, s', name, rank, top);
    }
  }

  lemma FetchedInlines(x: External, s: State, name: string)
    requires name in s.jobs && s.jobs[name].Fetched? && Sound(x, s, name, s.jobs[name])
    requires OURS in s.jobs[name].orig.finalizers
    ensures var s' := AdvanceJob(x, s, name, Done); NotDoomed(x, s', name) && Progress(x, s, s', name)
  {
    var s', orig := AdvanceJob(x, s, name, Done), s.jobs[name].orig;
    LikeItself(true, orig.spec);
    LikeItself(false, orig.spec);
    assert Current(x, s', name, s'.jobs[name]);
  }

  lemma FetchedProtects(x: External, s: State, name: string)
    requires name in s.jobs && s.jobs[name].Fetched? && Sound(x, s, name, s.jobs[name])
    requires OURS !in s.jobs[name].orig.finalizers
    ensures var s' := AdvanceJob(x, s, name, Done);
      NotDoomed(x, s', name) && PaysDebt(DebtsOf(s), DebtsOf(s'), name)
  {
    LikeItself(true, s.jobs[name].orig.spec);
  }

  lemma FetchedProgress(x: External, s: State, name: string)
    requires name in s.jobs && s.jobs[name].Fetched? && Sound(x, s, name, s.jobs[name])
    ensures var s' := AdvanceJob(x, s, name, Done); NotDoomed(x, s', name) && Progress(x, s, s', name)
  {
    if OURS in s.jobs[name].orig.finalizers {
      FetchedInlines(x, s, name);
    } else {
      FetchedProtects(x, s, name);
    }
  }

  /** A step of inlining that finds what it reads stays with what the visits give now. */
  lemma InliningStaysAlike(x: External, s: State, name: string, j: Job, all: bool)
    requires j.Inlining? && name in s.jobs && s.jobs[name] == j && Inline(x, ViewOf(s), j.res.spec).Ok?
    requires Alike(x, s, all, j.res.spec, j.k, j.partial)
    ensures var s' := InlineNext(x, s, name, j, Done);
      && name in s'.jobs && ViewOf(s') == ViewOf(s)
      && var j' := s'.jobs[name];
         && (j'.Inlining? || j'.Publishing?)
         && (j'.Inlining? ==> Alike(x, s, all, j.res.spec, j'.k, j'.partial))
         && (j'.Publishing? ==> Alike(x, s, all, j.res.spec, |Plan(j.res.spec)|, j'.compiled))
  {
    InlineNextOnlyReads(x, s, name, j, Done);
    if j.k < |Plan(j.res.spec)| {
      NextVisitLike(x, all, ViewOf(s), j.res.spec, j.k, j.partial);
    }
  }

  lemma InliningProgress(x: External, s: State, name: string)
    requires name in s.jobs && s.jobs[name].Inlining? && Sound(x, s, name, s.jobs[name]) && Compiles(x, s, name)
    ensures var s' := AdvanceJob(x, s, name, Done); NotDoomed(x, s', name) && Progress(x, s, s', name)
  {
    var s', j := AdvanceJob(x, s, name, Done), s.jobs[name];
    InlineNextOnlyReads(x, s, name, j, Done);
    InliningStaysAlike(x, s, name, j, true);
    if Current(x, s, name, j) {
      InliningStaysAlike(x, s, name, j, false);
    }
    InliningShortens(x, s, name);
  }

  /** Publishing a current compilation makes the entry right, and touches nothing if it was right before. */
  lemma PublishingSyncs(x: External, s: State, name: string, j: Job)
    requires j.Publishing? && Current(x, s, name, j) && RendersText(x) && !Takes(s.cips[name].spec, name)
    requires var s' := Publish(x, s, name, j, Done); Kept(x, s, s', name)
    ensures var s' := Publish(x, s, name, j, Done);
      s'.cips == s.cips && Synced(x, s', name) && (Synced(x, s, name) ==> s'.cm == s.cm && s'.queue == s.queue)
  {
    var s' := Publish(x, s, name, j, Done);
    assert Compiles(x, s, name);
    KeptFeeds(x, s, s', name, name, false);
    SameCompilation(x, ViewOf(s), ViewOf(s'), s.cips[name].spec);
    FinishedIsSame(x, ViewOf(s), j.res.spec, j.compiled);
    if Synced(x, s, name) {
      assert s.cm.value[name := Entries(s)[name]] == s.cm.value;
    }
  }

  lemma Published(x: External, s: State, name: string)
    requires name in s.jobs && s.jobs[name].Publishing? && Sound(x, s, name, s.jobs[name])
    ensures var s' := AdvanceJob(x, s, name, Done);
      && s'.cips == s.cips && name in s'.jobs && s'.jobs[name].Reporting?
      && Left(s'.jobs[name]) < Left(s.jobs[name])
      && Sound(x, s', name, s'.jobs[name]) && SameDebts(DebtsOf(s), DebtsOf(s'), name)
  {
  }

  lemma PublishingProgress(x: External, s: State, name: string)
    requires name in s.jobs && s.jobs[name].Publishing? && Sound(x, s, name, s.jobs[name])
    requires RendersText(x) && !Takes(s.cips[name].spec, name) && Kept(x, s, AdvanceJob(x, s, name, Done), name)
    ensures var s' := AdvanceJob(x, s, name, Done); NotDoomed(x, s', name) && Progress(x, s, s', name)
  {
    var s' := AdvanceJob(x, s, name, Done);
    Published(x, s, name);
    if Current(x, s, name, s.jobs[name]) {
      PublishingSyncs(x, s, name, s.jobs[name]);
      assert Current(x, s', name, s'.jobs[name]);
    } else {
      assert IsStale(x, s, name);
    }
  }

  lemma ReportingProgress(x: External, s: State, name: string)
    requires name in s.jobs && s.jobs[name].Reporting? && Sound(x, s, name, s.jobs[name])
    ensures var s' := AdvanceJob(x, s, name, Done); NotDoomed(x, s', name) && Progress(x, s, s', name)
  {
  }

  lemma FinalizingProgress(x: External, s: State, name: string)
    requires name in s.jobs && s.jobs[name].Finalizing? && Sound(x, s, name, s.jobs[name])
    ensures var s' := AdvanceJob(x, s, name, Done); NotDoomed(x, s', name) && Progress(x, s, s', name)
  {
    if s.cm.Some? && name !in s.cm.value {
      assert s.cm.value - {name} == s.cm.value;
    }
  }

  lemma ReleasingProgress(x: External, s: State, name: string)
    requires name in s.jobs && s.jobs[name].Releasing? && Sound(x, s, name, s.jobs[name])
    ensures var s' := AdvanceJob(x, s, name, Done); NotDoomed(x, s', name) && Progress(x, s, s', name)
  {
  }

  lemma StartedIsCurrent(x: External, s: State, name: string)
    requires name !in s.jobs
    ensures var s' := StartJob(s, name);
      && s'.cips == s.cips && s'.cm == s.cm && s'.queue == s.queue - {name}
      && (name in s'.jobs ==> Current(x, s', name, s'.jobs[name]))
  {
  }

  lemma StartProgress(x: External, s: State, name: string)
    requires name in s.queue && name !in s.jobs
    ensures var s' := StartJob(s, name); NotDoomed(x, s', name) && Progress(x, s, s', name)
  {
    StartedIsCurrent(x, s, name);
    assert |s.queue - {name}| == |s.queue| - 1;
  }

  lemma SoundProgress(x: External, s: State, name: string)
    requires name in s.jobs && Sound(x, s, name, s.jobs[name]) && Compiles(x, s, name) && RendersText(x)
    requires (Live(s, name) ==> !Takes(s.cips[name].spec, name)) && Kept(x, s, AdvanceJob(x, s, name, Done), name)
    ensures var s' := AdvanceJob(x, s, name, Done); NotDoomed(x, s', name) && Progress(x, s, s', name)
  {
    match s.jobs[name]
    case Fetched(_) => FetchedProgress(x, s, name);
    case Inlining(_, _, _, _, _) => InliningProgress(x, s, name);
    case Publishing(_, _, _) => PublishingProgress(x, s, name);
    case Reporting(_, _, _, _) => ReportingProgress(x, s, name);
    case Finalizing(_) => FinalizingProgress(x, s, name);
    case Releasing(_) => ReleasingProgress(x, s, name);
  }

  // ---------- the steps of a quiet environment ----------

  lemma AdvanceKeepsSpec(x: External, s: State, name: string)
    requires name in s.jobs && name in AdvanceJob(x, s, name, Done).cips
    ensures name in s.cips
    ensures var cip := AdvanceJob(x, s, name, Done).cips[name];
      cip.spec == s.cips[name].spec && cip.deleting == s.cips[name].deleting
  {
    var j := s.jobs[name];
    if j.Inlining? {
      InlineNextOnlyReads(x, s, name, j, Done);
    } else if !j.Fetched? && !j.Reporting? && !j.Releasing? {
      EntryWriteKeepsObjects(x, s, name, Done);
    }
  }

  lemma AdvanceKeepsLive(x: External, s: State, name: string)
    requires name in s.jobs && Live(s, name)
    ensures name in AdvanceJob(x, s, name, Done).cips
  {
    if s.jobs[name].Inlining? {
      InlineNextOnlyReads(x, s, name, s.jobs[name], Done);
    }
  }

  /** The same policies are live, with the same specs. */
  lemma StepKeepsLive(x: External, s: State, a: Action, n: string)
    requires QuietStep(x, s, a)
    ensures Live(Apply(x, s, a), n) <==> Live(s, n)
    ensures Live(s, n) ==> Apply(x, s, a).cips[n].spec == s.cips[n].spec
  {
    ApplyTouches(x, s, a);
    if n == a.name && a.Advance? {
      if n in Apply(x, s, a).cips {
        AdvanceKeepsSpec(x, s, n);
      }
      if Live(s, n) {
        AdvanceKeepsLive(x, s, n);
      }
    }
  }

  /** A sound job of a live policy never takes its entry away. */
  lemma SoundKeepsEntry(x: External, s: State, name: string)
    requires name in s.jobs && Sound(x, s, name, s.jobs[name]) && Live(s, name) && RendersText(x)
    requires name in Entries(s) && Entries(s)[name] != ""
    ensures var s' := AdvanceJob(x, s, name, Done); name in Entries(s') && Entries(s')[name] != ""
  {
    if s.jobs[name].Inlining? {
      InlineNextOnlyReads(x, s, name, s.jobs[name], Done);
    }
  }

  /** As long as whoever reads the entry compiles, it is there. */
  lemma StepKept(x: External, s: State, a: Action)
    requires AllCompile(x, s) && QuietStep(x, s, a) && AllCompile(x, Apply(x, s, a))
    ensures Kept(x, s, Apply(x, s, a), a.name)
  {
    ApplyTouches(x, s, a);
    if ReadBySome(s, a.name) {
      var n :| Live(s, n) && Reads(s.cips[n].spec, a.name);
      StepKeepsLive(x, s, a, n);
      assert Compiles(x, Apply(x, s, a), n);
      SuccessSupplies(x, ViewOf(Apply(x, s, a)), s.cips[n].spec, a.name);
    }
  }

  lemma StepStaysSound(x: External, s: State, a: Action, rank: string -> nat, top: nat)
    requires AllCompile(x, s) && QuietStep(x, s, a) && AllCompile(x, Apply(x, s, a)) && RendersText(x)
    requires Ranked(s, rank, top) && NotDoomed(x, s, a.name)
    ensures NotDoomed(x, Apply(x, s, a), a.name) && Progress(x, s, Apply(x, s, a), a.name)
  {
    assert Compiles(x, s, a.name);
    StepKept(x, s, a);
    if a.Start? {
      StartProgress(x, s, a.name);
    } else {
      if Live(s, a.name) {
        NoneTakesItself(s, rank, top, a.name);
      }
      SoundProgress(x, s, a.name);
    }
  }

  lemma NoneTakesItself(s: State, rank: string -> nat, top: nat, name: string)
    requires Ranked(s, rank, top) && Live(s, name)
    ensures !Takes(s.cips[name].spec, name)
  {
  }

  /** Every quiet step lowers the measure, as long as every live policy compiles. */
  lemma StepLowersMeasure(x: External, s: State, a: Action, rank: string -> nat, top: nat)
    requires Inv(x, s) && AllCompile(x, s) && QuietStep(x, s, a) && AllCompile(x, Apply(x, s, a))
    requires RendersText(x) && Ranked(s, rank, top)
    ensures Lowers(x, s, Apply(x, s, a), rank, top, Size(top))
  {
    var s' := Apply(x, s, a);
    assert Good(x, s, a.name);
    StepKept(x, s, a);
    if NotDoomed(x, s, a.name) {
      StepStaysSound(x, s, a, rank, top);
      ProgressLowers(x, s, s', a.name, rank, top);
    } else {
      StepShortens(x, s, a.name);
      LowersDoomed(x, s, s', a.name, rank, top);
    }
  }

  lemma StepStaysRanked(x: External, s: State, a: Action, rank: string -> nat, top: nat)
    requires QuietStep(x, s, a) && Ranked(s, rank, top)
    ensures Ranked(Apply(x, s, a), rank, top)
  {
    forall n
      ensures Live(Apply(x, s, a), n) <==> Live(s, n)
      ensures Live(s, n) ==> Apply(x, s, a).cips[n].spec == s.cips[n].spec
    {
      StepKeepsLive(x, s, a, n);
    }
  }

  // ---------- runs ----------

  /** Nothing is queued, nothing is in work, and every policy is settled. */
  ghost predicate Converged(x: External, s: State) {
    && s.queue == {} && s.jobs == map[]
    && forall name :: name in s.cips ==> Settled(x, s, name)
  }

  lemma AtRestConverged(x: External, s: State)
    requires Inv(x, s) && s.queue == {} && s.jobs == map[]
    ensures Converged(x, s)
  {
    forall name | name in s.cips ensures Settled(x, s, name) {
      assert Good(x, s, name);
    }
  }

  /** A run that takes any enabled step as long as there is one. */
  ghost predicate Follows(x: External, s: State, a: Action, s': State) {
    if s.queue == {} && s.jobs == map[] then s' == s else QuietStep(x, s, a) && s' == Apply(x, s, a)
  }

  ghost predicate QuietRun(x: External, run: nat -> State, steps: nat -> Action) {
    forall k: nat :: Follows(x, run(k), steps(k), run(k + 1))
  }

  /** In every state from the given one on, every live policy compiles. */
  ghost predicate CompilesFrom(x: External, run: nat -> State, i: nat) {
    forall k: nat :: i <= k ==> AllCompile(x, run(k))
  }

  /** What the descent of the measure needs, and every step keeps. */
  ghost predicate Settling(x: External, s: State, rank: string -> nat, top: nat) { Inv(x, s) && Ranked(s, rank, top) }

  lemma EqualOrLower(x: External, s: State, s': State, rank: string -> nat, top: nat, n: nat)
    requires Lowers(x, s, s', rank, top, n + 1)
    ensures Lowers(x, s, s', rank, top, n) ||
      (&& Falls(x, s, s', rank, top, n)
       && forall d | 0 <= d < n :: Component(x, s', rank, top, d) == Component(x, s, rank, top, d))
  {
    var c :| 0 <= c < n + 1 && Falls(x, s, s', rank, top, c) && EarlierStay(x, s, s', rank, top, c);
    if d :| 0 <= d < n && Falls(x, s, s', rank, top, d) && EarlierStay(x, s, s', rank, top, d) {
      assert Lowers(x, s, s', rank, top, n);
    } else {
      forall d | 0 <= d < n ensures Component(x, s', rank, top, d) == Component(x, s, rank, top, d) {
        assert c == n && Stays(x, s, s', rank, top, d) && EarlierStay(x, s, s', rank, top, d);
      }
    }
  }

  /** What is lower than one with the same first components is lower. */
  lemma LowersFromEqual(x: External, s: State, s': State, s'': State, rank: string -> nat, top: nat, n: nat)
    requires Lowers(x, s', s'', rank, top, n)
    requires forall d | 0 <= d < n :: Component(x, s', rank, top, d) == Component(x, s, rank, top, d)
    ensures Lowers(x, s, s'', rank, top, n)
  {
    var c :| 0 <= c < n && Falls(x, s', s'', rank, top, c) && EarlierStay(x, s', s'', rank, top, c);
    assert Falls(x, s, s'', rank, top, c);
    forall d | 0 <= d < c ensures Stays(x, s, s'', rank, top, d) {
      assert Stays(x, s', s'', rank, top, d);
    }
  }

  /** Lexicographic descent: in time the run converges, or one of the first n components goes down. */
  lemma {:induction false} Descend(x: External, run: nat -> State, steps: nat -> Action, rank: string -> nat, top: nat,
                                   i: nat, n: nat)
    returns (j: nat)
    requires Settling(x, run(i), rank, top) && RendersText(x) && QuietRun(x, run, steps) && CompilesFrom(x, run, i)
    requires n <= Size(top)
    ensures i <= j && Settling(x, run(j), rank, top)
    ensures Converged(x, run(j)) || Lowers(x, run(i), run(j), rank, top, n)
    decreases Size(top) - n, Component(x, run(i), rank, top, n).0, Component(x, run(i), rank, top, n).1
  {
    if run(i).queue == {} && run(i).jobs == map[] {
      j := i;
      AtRestConverged(x, run(i));
    } else if n == Size(top) {
      j := i + 1;
      assert Follows(x, run(i), steps(i), run(i + 1));
      StepLowersMeasure(x, run(i), steps(i), rank, top);
      StepStaysRanked(x, run(i), steps(i), rank, top);
      StepKeepsInv(x, run(i), steps(i));
    } else {
      j := Descend(x, run, steps, rank, top, i, n + 1);
      if !Converged(x, run(j)) && !Lowers(x, run(i), run(j), rank, top, n) {
        EqualOrLower(x, run(i), run(j), rank, top, n);
        var k := Descend(x, run, steps, rank, top, j, n);
        if !Converged(x, run(k)) {
          LowersFromEqual(x, run(i), run(j), run(k), rank, top, n);
        }
        j := k;
      }
    }
  }

  /** From any state the controller can be in, however scheduled, a quiet run with no failure comes to rest. */
  lemma RankedRunConverges(x: External, run: nat -> State, steps: nat -> Action, rank: string -> nat, top: nat, i: nat)
    requires Settling(x, run(i), rank, top) && RendersText(x) && QuietRun(x, run, steps) && CompilesFrom(x, run, i)
    ensures exists n: nat :: i <= n && Converged(x, run(n))
  {
    var j := Descend(x, run, steps, rank, top, i, 0);
  }

  /** Such a run can always go on: while something is queued or in work, some step is enabled. */
  lemma WorkIsEnabled(x: External, s: State)
    requires s.queue != {} || s.jobs != map[]
    ensures exists a :: QuietStep(x, s, a)
  {
    if s.jobs != map[] {
      var name :| name in s.jobs;
      assert QuietStep(x, s, Advance(name, Done));
    } else {
      var name :| name in s.queue;
      assert QuietStep(x, s, Start(name));
    }
  }
}
