/**
 Why the exact condition leaves out jobs that have outlived their object and still compile it: such a state does not
 decide whether the loop settles. Two quiet continuations of one run are shown, of which one leads to where every fair
 run settles and the other to where none does.
 */
module Castaways {
  import opened V1alpha1
  import opened Inlining
  import opened EntryReads
  import opened Cycles
  import opened Reconcile
  import opened Convergence
  import opened EntryCycles
  import opened FairRuns
  import opened Departures
  import opened Starvation

  const READER := "reader"

  function ReaderSpec(): Spec { ReadsFrom(IMAGE_POLICIES, TAKER) }

  // ---------- the run ----------

  function Departure(): seq<Action> {
    [Delete(TAKER)] + ([Touch(TAKER, [], NO_STATUS)] + ([Create(READER, ReaderSpec(), [])] + []))
  }

  /** The taker, while it is being compiled, is deleted and stripped of its finalizer; a reader of its entry appears. */
  function Farewell(): seq<Action> {
    [Start(TAKER)] + ([Advance(TAKER, Done)] + ([Advance(TAKER, Done)] + Departure()))
  }

  /** The taker's object has gone, its job is about to read the giver's entry, and the giver's is to withdraw that. */
  ghost predicate Marooned(s: State) {
    && s.cips.Keys == {GIVER, READER} && Live(s, GIVER) && Live(s, READER)
    && s.cips[GIVER].spec == GiverSpec() && s.cips[READER].spec == ReaderSpec()
    && Entries(s).Keys == {GIVER} && Entries(s)[GIVER] != ""
    && s.jobs.Keys == {GIVER, TAKER} && s.jobs[GIVER].Withdrawing?
    && Compiling(s.jobs[TAKER], 0) && s.jobs[TAKER].tracked
  }

  predicate Compiling(j: Job, k: nat) {
    j.Inlining? && j.res.spec == TakerSpec() && j.k == k &&
    if k == 0 then j.partial == TakerSpec() else !Pending(j.partial, TopRemote)
  }

  /** After the giver's job was left over, the taker's has come this far. */
  function WithTaker(text: string, job: Job, trackers: set<(Ref, string)>): State {
    LeftOver(text).(queue := {GIVER}, jobs := map[GIVER := FailedJob(), TAKER := job], trackers := trackers)
  }

  function Taker(text: string): Cip { LeftOver(text).cips[TAKER] }

  function Tracked(): set<(Ref, string)> { {(ConfigMapNamed(IMAGE_POLICIES), TAKER)} }

  lemma TakerIsTracked(x: External, text: string)
    ensures var t := Taker(text);
      Apply(x, WithTaker(text, Inlining(t, t, t.spec, 0, false), {}), Advance(TAKER, Done)) ==
      WithTaker(text, Inlining(t, t, t.spec, 0, true), Tracked())
  {
    assert Plan(TakerSpec()) == [TopConfigMap, TopRemote];
    var t := Taker(text);
    var s := WithTaker(text, Inlining(t, t, t.spec, 0, false), {});
    assert s.trackers + Tracked() == Tracked();
    var tracked := Inlining(t, t, t.spec, 0, true);
    assert s.jobs[TAKER := tracked] == map[GIVER := FailedJob(), TAKER := tracked];
  }

  lemma TakerDeparts(x: External, text: string)
    requires text != ""
    ensures var t := Taker(text);
      var s := WithTaker(text, Inlining(t, t, t.spec, 0, true), Tracked());
      IsRun(x, s, Departure()) && Marooned(After(x, s, Departure()))
  {
    var t := Taker(text);
    var s := WithTaker(text, Inlining(t, t, t.spec, 0, true), Tracked());
    var deleted := Apply(x, s, Delete(TAKER));
    assert TAKER in deleted.cips && deleted.cips[TAKER].deleting;
    var gone := Apply(x, deleted, Touch(TAKER, [], NO_STATUS));
    assert gone.cips.Keys == {GIVER};
    var read := Apply(x, gone, Create(READER, ReaderSpec(), []));
    assert Marooned(read);
    Prepend(x, gone, Create(READER, ReaderSpec(), []), []);
    Prepend(x, deleted, Touch(TAKER, [], NO_STATUS), [Create(READER, ReaderSpec(), [])] + []);
    Prepend(x, s, Delete(TAKER), [Touch(TAKER, [], NO_STATUS)] + ([Create(READER, ReaderSpec(), [])] + []));
  }

  lemma MaroonedIsReached(x: External, text: string)
    requires text != ""
    ensures IsRun(x, LeftOver(text), Farewell()) && Marooned(After(x, LeftOver(text), Farewell()))
  {
    var t := Taker(text);
    var fetched, inlining := WithTaker(text, Fetched(t), {}), WithTaker(text, Inlining(t, t, t.spec, 0, false), {});
    assert LeftOver(text).queue - {TAKER} == {GIVER};
    assert Apply(x, LeftOver(text), Start(TAKER)) == fetched;
    assert Apply(x, fetched, Advance(TAKER, Done)) == inlining;
    TakerIsTracked(x, text);
    TakerDeparts(x, text);
    Prepend(x, inlining, Advance(TAKER, Done), Departure());
    Prepend(x, fetched, Advance(TAKER, Done), [Advance(TAKER, Done)] + Departure());
    Prepend(x, LeftOver(text), Start(TAKER), [Advance(TAKER, Done)] + ([Advance(TAKER, Done)] + Departure()));
  }

  // ---------- two ways to go on ----------

  /** What both continuations have in common: the two live policies, of which one reads the taker's entry. */
  ghost predicate Remains(s: State) {
    && s.cips.Keys == {GIVER, READER} && Live(s, GIVER) && Live(s, READER)
    && s.cips[GIVER].spec == GiverSpec() && s.cips[READER].spec == ReaderSpec()
  }

  lemma RemainsRead(s: State, n: string, m: string)
    requires Remains(s)
    ensures Live(s, n) && Reads(s.cips[n].spec, m) <==> n == READER && m == TAKER
    ensures Live(s, n) && Reads(s.cips[n].spec, m) ==> Takes(s.cips[n].spec, m)
  {
    if n == READER && m == TAKER {
      assert TakesAt(ReaderSpec(), Top, TAKER) && ReadsAt(ReaderSpec(), Top, TAKER);
    }
    if Live(s, n) && Reads(s.cips[n].spec, m) {
      var place :| ReadsAt(s.cips[n].spec, place, m);
      assert place == Top;
    }
  }

  lemma RemainsTakesAll(s: State)
    requires Remains(s)
    ensures TakesAll(s) && !Cyclic(Taking(s))
  {
    forall n, m | Live(s, n) && Reads(s.cips[n].spec, m) ensures Takes(s.cips[n].spec, m) {
      RemainsRead(s, n, m);
    }
    if Cyclic(Taking(s)) {
      var p :| IsCycle(Taking(s), p);
      assert Taking(s)(p[0], p[1]);
      TakesReads(s.cips[p[0]].spec, p[1]);
      RemainsRead(s, p[0], p[1]);
      assert false;
    }
  }

  lemma RemainsCompilable(x: External, s: State, n: string)
    requires Remains(s)
    ensures Compilable(x, s, n)
  {
    if Live(s, n) {
      forall w | SameOutside(ViewOf(s), w) && Fed(w, s.cips[n].spec) ensures Inline(x, w, s.cips[n].spec).Ok? {
        RemainsRead(s, n, TAKER);
        PlainCompiles(x, w, s.cips[n].spec);
      }
    }
  }

  lemma PlainCompiles(x: External, w: View, spec: Spec)
    requires spec == GiverSpec() || (spec == ReaderSpec() && Supplies(w, TAKER))
    ensures Inline(x, w, spec).Ok?
  {
    assert Plan(spec) == [TopConfigMap, TopRemote];
    var read := Exec(x, w, spec, TopConfigMap);
    assert read.Ok? && !Pending(read.value, TopRemote);
    assert ExecPrefix(x, w, spec, 1) == read;
    assert ExecPrefix(x, w, spec, 2) == read;
  }

  lemma Sinks(x: External, s: State)
    requires Marooned(s)
    ensures var actions := Sinking();
      IsRun(x, s, actions) && Remains(After(x, s, actions)) &&
      TAKER in After(x, s, actions).jobs && After(x, s, actions).jobs[TAKER].Withdrawing?
  {
    var withdrawn := Apply(x, s, Advance(GIVER, Done));
    assert GIVER !in Entries(withdrawn);
    assert withdrawn.jobs[TAKER] == s.jobs[TAKER];
    NoTextNoPolicy(x, withdrawn);
    InlineNextOnlyReads(x, withdrawn, TAKER, withdrawn.jobs[TAKER], Done);
    Prepend(x, withdrawn, Advance(TAKER, Done), []);
    Prepend(x, s, Advance(GIVER, Done), [Advance(TAKER, Done)] + []);
  }

  lemma TextIsThere(x: External, s: State)
    requires GIVER in Entries(s) && Entries(s)[GIVER] != ""
    ensures var read := Exec(x, ViewOf(s), TakerSpec(), TopConfigMap); read.Ok? && !Pending(read.value, TopRemote)
  {
  }

  lemma TakerReads(x: External, s: State)
    requires Marooned(s)
    ensures var s' := Apply(x, s, Advance(TAKER, Done));
      Remains(s') && TAKER in s'.jobs && Compiling(s'.jobs[TAKER], 1)
  {
    assert Plan(TakerSpec()) == [TopConfigMap, TopRemote];
    TextIsThere(x, s);
    InlineNextOnlyReads(x, s, TAKER, s.jobs[TAKER], Done);
  }

  lemma TakerGoesOn(x: External, s: State, k: nat)
    requires Remains(s) && TAKER in s.jobs && Compiling(s.jobs[TAKER], k) && 1 <= k <= 2
    ensures var s' := Apply(x, s, Advance(TAKER, Done));
      && Remains(s') && TAKER in s'.jobs
      && if k == 1 then Compiling(s'.jobs[TAKER], 2) else s'.jobs[TAKER].Publishing?
  {
    assert Plan(TakerSpec()) == [TopConfigMap, TopRemote];
    InlineNextOnlyReads(x, s, TAKER, s.jobs[TAKER], Done);
  }

  lemma Lands(x: External, s: State)
    requires Marooned(s)
    ensures var actions := Landing();
      IsRun(x, s, actions) && Remains(After(x, s, actions)) &&
      TAKER in After(x, s, actions).jobs && After(x, s, actions).jobs[TAKER].Publishing?
  {
    var s1 := Apply(x, s, Advance(TAKER, Done));
    TakerReads(x, s);
    var s2 := Apply(x, s1, Advance(TAKER, Done));
    TakerGoesOn(x, s1, 1);
    TakerGoesOn(x, s2, 2);
    Prepend(x, s2, Advance(TAKER, Done), []);
    Prepend(x, s1, Advance(TAKER, Done), [Advance(TAKER, Done)] + []);
    Prepend(x, s, Advance(TAKER, Done), [Advance(TAKER, Done)] + ([Advance(TAKER, Done)] + []));
  }

  /** The theorem on fair runs applies, and tells by the taker's job. */
  lemma JobDecides(x: External, s: State)
    requires Remains(s) && TAKER in s.jobs && (s.jobs[TAKER].Withdrawing? || s.jobs[TAKER].Publishing?)
    ensures TakesAll(s) && NoneAdrift(s) && (WellFounded(x, s) <==> s.jobs[TAKER].Publishing?)
  {
    RemainsTakesAll(s);
    forall n ensures Compilable(x, s, n) {
      RemainsCompilable(x, s, n);
    }
    forall n, m | Live(s, n) && Reads(s.cips[n].spec, m) ensures m == TAKER {
      RemainsRead(s, n, m);
    }
    RemainsRead(s, READER, TAKER);
    assert Live(s, READER) && !Live(s, TAKER) && TAKER !in s.cips;
    assert Lasting(s, TAKER) <==> s.jobs[TAKER].Publishing?;
  }

  function Sinking(): seq<Action> { [Advance(GIVER, Done)] + ([Advance(TAKER, Done)] + []) }

  function Landing(): seq<Action> {
    [Advance(TAKER, Done)] + ([Advance(TAKER, Done)] + ([Advance(TAKER, Done)] + []))
  }

  /**
   A run from the start, and two ways for the controller to go on, without failures: after the one, by
   `SettlesAfterAnyRun`, no fair run settles, and after the other every one does.
   */
  lemma AdriftIsUndecided(x: External, text: string)
    returns (s: State, actions: seq<Action>, sinking: seq<Action>, landing: seq<Action>)
    requires text != ""
    ensures Init(s) && (forall m :: Anchored(s, m)) && IsRun(x, s, actions)
    ensures OfController(sinking) && OfController(landing)
    ensures IsRun(x, s, actions + sinking) && IsRun(x, s, actions + landing)
    ensures var lost := After(x, s, actions + sinking); TakesAll(lost) && NoneAdrift(lost) && !WellFounded(x, lost)
    ensures var found := After(x, s, actions + landing); TakesAll(found) && NoneAdrift(found) && WellFounded(x, found)
  {
    s, actions, sinking, landing := Start0(text), History() + Farewell(), Sinking(), Landing();
    MaroonedFromStart(x, text);
    ContinueEitherWay(x, After(x, s, actions));
    RunThen(x, s, actions, sinking);
    RunThen(x, s, actions, landing);
  }

  lemma MaroonedFromStart(x: External, text: string)
    requires text != ""
    ensures var s, actions := Start0(text), History() + Farewell();
      Init(s) && (forall m :: Anchored(s, m)) && IsRun(x, s, actions) && Marooned(After(x, s, actions))
  {
    LeftOverIsReached(x, text);
    MaroonedIsReached(x, text);
    RunThen(x, Start0(text), History(), Farewell());
  }

  lemma ContinueEitherWay(x: External, s: State)
    requires Marooned(s)
    ensures IsRun(x, s, Sinking()) && IsRun(x, s, Landing()) && OfController(Sinking()) && OfController(Landing())
    ensures var lost := After(x, s, Sinking()); TakesAll(lost) && NoneAdrift(lost) && !WellFounded(x, lost)
    ensures var found := After(x, s, Landing()); TakesAll(found) && NoneAdrift(found) && WellFounded(x, found)
  {
    Sinks(x, s);
    Lands(x, s);
    JobDecides(x, After(x, s, Sinking()));
    JobDecides(x, After(x, s, Landing()));
  }
}
