/** What validation and defaulting of a spec give to the components that work on it afterwards. */
module ValidatedSpecs {
  import opened Wrappers
  import opened V1alpha1
  import opened Conversion
  import opened Validation
  import EntryReads
  import Reconcile
  import Convergence
  import EntryCycles
  import FairRuns
  import Departures
  import Inlining
  import Matching
  import Admission
  import ImageAdmission

  // ---------- matching ----------

  function CompiledOf(s: Spec): Matching.Compiled { Matching.Compiled(s.images, s.matches) }

  /** The labels can be matched with every selector of the spec. */
  predicate SelectorsOk(s: Spec, req: Matching.Request) {
    forall i | 0 <= i < |s.matches| :: s.matches[i].selector.Some? ==> req.selects(s.matches[i].selector.value).Some?
  }

  /** A validated spec never makes matching fail for an image that parses. */
  lemma MatchingNeverFails(r: Rules, s: Spec, req: Matching.Request)
    requires ValidSpec(r, s) && req.refName.Some? && SelectorsOk(s, req)
    ensures !Matching.Fails(CompiledOf(s), req)
  {
    forall i | 0 <= i < |s.images| ensures !Matching.GlobFails(s.images[i], req) {
      Glob.CompilePreservesMeaning(s.images[i].glob, "");
      assert ValidPattern(r, s.images[i]);
    }
  }

  // ---------- taking text from compiled entries ----------

  /** In a validated spec no remote policy overwrites what a ConfigMap gave: every entry that is read is taken. */
  lemma ReadsAreTakes(r: Rules, s: Spec, key: string)
    requires ValidSpec(r, s)
    ensures EntryReads.Reads(s, key) <==> EntryReads.Takes(s, key)
  {
    if EntryReads.Reads(s, key) {
      var place :| EntryReads.ReadsAt(s, place, key);
      if place.Below? {
        assert ValidAuthority(r, s.authorities[place.i]);
        assert ValidAttestation(r, s.authorities[place.i].attestations[place.j]);
      }
      assert EntryReads.TakesAt(s, place, key);
    }
    if EntryReads.Takes(s, key) {
      var place :| EntryReads.TakesAt(s, place, key);
      assert EntryReads.ReadsAt(s, place, key);
    }
  }

  /** The specs of the live policies passed validation, as the server asks of all it stores. */
  ghost predicate AllValid(r: Rules, s: Reconcile.State) {
    forall n :: Convergence.Live(s, n) ==> ValidSpec(r, s.cips[n].spec)
  }

  /** So for validated policies a fair run, after any run before it, settles exactly on well-founded states. */
  lemma ValidatedSettlesIff(r: Rules, x: Inlining.External, s: Reconcile.State, actions: seq<Reconcile.Action>,
                            run: nat -> Reconcile.State, steps: nat -> Reconcile.Action)
    requires Reconcile.Init(s) && (forall m :: Departures.Anchored(s, m)) && Reconcile.IsRun(x, s, actions)
    requires run(0) == Reconcile.After(x, s, actions) && Convergence.QuietRun(x, run, steps)
    requires FairRuns.Fair(run, steps) && Convergence.RendersText(x) && EntryCycles.RendersAll(x)
    requires AllValid(r, run(0)) && Departures.NoneAdrift(run(0))
    ensures (exists n: nat :: Convergence.Converged(x, run(n))) <==> Departures.WellFounded(x, run(0))
  {
    forall n, m | Convergence.Live(run(0), n) && EntryReads.Reads(run(0).cips[n].spec, m)
      ensures EntryReads.Takes(run(0).cips[n].spec, m)
    {
      ReadsAreTakes(r, run(0).cips[n].spec, m);
    }
    Departures.SettlesAfterAnyRun(x, s, actions, run, steps);
  }

  // ---------- the admission decision ----------

  /** What a static authority sends: it passes or fails as it says. */
  predicate StaticOutcome(a: Authority, o: Admission.Outcome)
    requires a.staticRef.Some?
  {
    if a.staticRef.value.action == "fail" then o.error ==
      Some("disallowed by static policy: " + a.staticRef.value.message)
    else o.error.None? && o.evidence.isStatic
  }

  /** The policy as it is checked: one outcome for each authority of the spec, under its name. */
  ghost predicate Checks(p: Admission.Policy, s: Spec) {
    && |p.outcomes| == |s.authorities| && p.mode == s.mode && (p.check.Some? <==> s.policy.Some?)
    && (forall i | 0 <= i < |s.authorities| :: p.outcomes[i].name == s.authorities[i].name)
    && (forall i | 0 <= i < |s.authorities| :: s.authorities[i].staticRef.Some? ==>
         StaticOutcome(s.authorities[i], p.outcomes[i]))
  }

  /** What is left to the verifiers: a key, keyless or GM authority passes or errs with a text. */
  ghost predicate VerifiersDecide(p: Admission.Policy, s: Spec)
    requires |p.outcomes| == |s.authorities|
  {
    forall i | 0 <= i < |s.authorities| :: s.authorities[i].staticRef.None? ==>
      Admission.Passing(p.outcomes[i]) || (p.outcomes[i].error.Some? && p.outcomes[i].error.value != "")
  }

  ghost predicate CheckDecides(p: Admission.Policy) {
    p.check.Some? ==> forall m :: var c := p.check.value(m); !c.NoJson? && "" !in Admission.CheckTexts(c)
  }

  /**
   A validated and defaulted spec is checked as a regular policy exactly if names do not clash, verifiers decide and the
   policy-level check decides: validity gives the rest, that there are authorities, that static ones decide, and the
   mode.
   */
  lemma ValidatedIsRegularIff(r: Rules, s: Spec, p: Admission.Policy)
    requires ValidSpec(r, s) && r.failOnEmptyAuthorities && Checks(p, Defaulted(s))
    ensures p.mode == "enforce" || p.mode == "warn"
    ensures ImageAdmission.Regular(p) <==>
      DistinctNames(DefaultedAll(s.authorities)) && VerifiersDecide(p, Defaulted(s)) && CheckDecides(p)
  {
    var d := Defaulted(s);
    assert ImageAdmission.DistinctAuthorities(p) <==> DistinctNames(d.authorities) by {
      assert forall i | 0 <= i < |d.authorities| :: p.outcomes[i].name == d.authorities[i].name;
    }
    forall i | 0 <= i < |d.authorities| && d.authorities[i].staticRef.Some?
      ensures Admission.Passing(p.outcomes[i]) || (p.outcomes[i].error.Some? && p.outcomes[i].error.value != "")
    {
      assert StaticOutcome(d.authorities[i], p.outcomes[i]);
    }
  }
}
