/**
 Orphan freedom asks for no more than it must: from any state without it, something can happen, none of it meddling,
 after which an entry has no stored policy with the finalizer. A job that may publish is helped to do so by changing
 what it is about to read.
 */
module OrphanLimits {
  import opened Wrappers
  import opened V1alpha1
  import opened Inlining
  import opened EntryReads
  import opened Reconcile
  import opened QueuedOrSynced
  import opened OrphanFreedom

  /** An entry whose policy is not stored, or does not carry the finalizer. */
  predicate Orphaned(s: State) { exists n :: n in Entries(s) && !Held(s, n) }

  ghost predicate Ruins(x: External, s: State, actions: seq<Action>) {
    IsRun(x, s, actions) && LeftAlone(x, s, actions) && Orphaned(After(x, s, actions))
  }

  /** Without meddling, an orphan can come about. */
  ghost predicate CanOrphan(x: External, s: State) { exists actions :: Ruins(x, s, actions) }

  lemma RuinsLater(x: External, s: State, a: Action, rest: seq<Action>)
    requires Enabled(s, a) && !Meddles(x, s, a) && Ruins(x, Apply(x, s, a), rest)
    ensures Ruins(x, s, [a] + rest)
  {
    hide Meddles;
    Prepend(x, s, a, rest);
    assert ([a] + rest)[1..] == rest;
  }

  // ---------- helping a job along ----------

  /** All entries are protected, and the named job, which may publish, has no policy with the finalizer. */
  ghost predicate Loose(x: External, s: State, name: string) {
    && Inv(x, s) && (forall n :: n in Entries(s) ==> Held(s, n) && !Unlocking(s, n))
    && !Held(s, name) && name in s.jobs
  }

  ghost predicate InliningAt(s: State, name: string, spec: Spec, k: nat, partial: Spec) {
    && name in s.jobs && s.jobs[name].Inlining?
    && s.jobs[name].res.spec == spec && s.jobs[name].k == k && s.jobs[name].partial == partial
  }

  /** The object is given the contents that let the visit succeed. */
  ghost predicate Helps(x: External, s: State, s': State, name: string) {
    name in s.jobs && Loose(x, s', name) && s'.jobs[name] == s.jobs[name]
  }

  lemma HelpWithSecret(x: External, s: State, name: string, secret: string, data: Option<map<string, string>>)
    requires Loose(x, s, name)
    ensures var a := SetSecret(secret, data);
      var s' := Apply(x, s, a);
      !Meddles(x, s, a) && Helps(x, s, s', name) && Lookup(ViewOf(s'), SecretNamed(secret)) == data
  {
    StepKeepsInv(x, s, SetSecret(secret, data));
  }

  lemma HelpWithConfigMap(x: External, s: State, name: string, cm: string, data: Option<map<string, string>>)
    requires Loose(x, s, name) && cm != IMAGE_POLICIES
    ensures var a := SetConfigMap(cm, data);
      var s' := Apply(x, s, a);
      !Meddles(x, s, a) && Helps(x, s, s', name) && Lookup(ViewOf(s'), ConfigMapNamed(cm)) == data
  {
    StepKeepsInv(x, s, SetConfigMap(cm, data));
  }

  /** Another policy gets the finalizer, so that its entry may be written. */
  ghost function Protect(s: State, m: string): Action {
    if m in s.cips then Touch(m, s.cips[m].finalizers + [OURS], s.cips[m].status)
    else Create(m, Spec([], [], None, "", []), [OURS])
  }

  lemma HelpByProtecting(x: External, s: State, name: string, m: string)
    requires Loose(x, s, name) && m != name
    ensures var s' := Apply(x, s, Protect(s, m));
      && Enabled(s, Protect(s, m)) && !Meddles(x, s, Protect(s, m)) && Helps(x, s, s', name)
      && Held(s', m) && !Unlocking(s', m) && s'.cm == s.cm
  {
    assert Good(x, s, m);
    StepKeepsInv(x, s, Protect(s, m));
  }

  lemma HelpWithEntry(x: External, s: State, name: string, m: string, text: string)
    requires Loose(x, s, name) && Held(s, m) && !Unlocking(s, m)
    ensures var a := SetImagePolicies(Some(Entries(s)[m := text]));
      var s' := Apply(x, s, a);
      && !Meddles(x, s, a) && Helps(x, s, s', name)
      && m in Entries(s') && Entries(s')[m] == text
  {
    StepKeepsInv(x, s, SetImagePolicies(Some(Entries(s)[m := text])));
  }

  ghost function KeyRead(partial: Spec, op: Op): string
    requires Pending(partial, op) && (op.TopConfigMap? || op.AttestationConfigMap?)
  {
    if op.TopConfigMap? then partial.policy.value.configMapRef.value.key
    else AttestationPolicy(partial, op.i, op.j).configMapRef.value.key
  }

  /** The visit reads no entry but one. */
  lemma EntryVisit(x: External, v: View, w: View, partial: Spec, op: Op)
    requires RefOf(partial, op) == Some(ConfigMapNamed(IMAGE_POLICIES)) && Exec(x, w, partial, op).Ok?
    ensures var key := KeyRead(partial, op);
      && Supplies(w, key)
      && (Supplies(v, key) && v.configMaps[IMAGE_POLICIES][key] == w.configMaps[IMAGE_POLICIES][key] ==>
            Exec(x, v, partial, op) == Exec(x, w, partial, op))
  {
  }

  // ---------- the way to an orphan ----------

  lemma AdvanceStaysLoose(x: External, s: State, name: string)
    requires Loose(x, s, name) && (s.jobs[name].Inlining? || CanPublish(x, name, s.jobs[name]))
    requires !s.jobs[name].Publishing?
    ensures var a := Advance(name, Done); !Meddles(x, s, a) && Loose(x, Apply(x, s, a), name)
  {
    hide CanGoOn;
    StepKeepsInv(x, s, Advance(name, Done));
    if s.jobs[name].Inlining? {
      InlineNextOnlyReads(x, s, name, s.jobs[name], Done);
    }
  }

  lemma RuinByPublishing(x: External, s: State, name: string) returns (actions: seq<Action>)
    requires Loose(x, s, name) && s.jobs[name].Publishing?
    ensures Ruins(x, s, actions)
  {
    var a := Advance(name, Done);
    var s' := Apply(x, s, a);
    assert name in Entries(s') && !Held(s', name);
    assert Ruins(x, s', []);
    RuinsLater(x, s, a, []);
    actions := [a] + [];
  }

  lemma {:induction false} RuinByVisits(x: External, s: State, name: string, spec: Spec, k: nat, partial: Spec)
    returns (actions: seq<Action>)
    requires Loose(x, s, name) && InliningAt(s, name, spec, k, partial) && CanGoOn(x, name, spec, k, partial)
    ensures Ruins(x, s, actions)
    decreases |Plan(spec)| - k, 1
  {
    if k >= |Plan(spec)| {
      var a := Advance(name, Done);
      AdvanceStaysLoose(x, s, name);
      var rest := RuinByPublishing(x, Apply(x, s, a), name);
      RuinsLater(x, s, a, rest);
      actions := [a] + rest;
    } else {
      var op := Plan(spec)[k];
      var w :| CanVisit(x, w, name, partial, op) && CanGoOn(x, name, spec, k + 1, Exec(x, w, partial, op).value);
      match RefOf(partial, op)
      case None =>
        ExecReadsOne(x, ViewOf(s), w, partial, op);
        actions := RuinByVisiting(x, s, name, spec, k, partial, w);
      case Some(SecretNamed(secret)) =>
        var a := SetSecret(secret, Lookup(w, SecretNamed(secret)));
        HelpWithSecret(x, s, name, secret, Lookup(w, SecretNamed(secret)));
        ExecReadsOne(x, ViewOf(Apply(x, s, a)), w, partial, op);
        var rest := RuinByVisiting(x, Apply(x, s, a), name, spec, k, partial, w);
        RuinsLater(x, s, a, rest);
        actions := [a] + rest;
      case Some(ConfigMapNamed(cm)) =>
        if cm == IMAGE_POLICIES {
          actions := RuinByEntry(x, s, name, spec, k, partial, w);
        } else {
          var a := SetConfigMap(cm, Lookup(w, ConfigMapNamed(cm)));
          HelpWithConfigMap(x, s, name, cm, Lookup(w, ConfigMapNamed(cm)));
          ExecReadsOne(x, ViewOf(Apply(x, s, a)), w, partial, op);
          var rest := RuinByVisiting(x, Apply(x, s, a), name, spec, k, partial, w);
          RuinsLater(x, s, a, rest);
          actions := [a] + rest;
        }
    }
  }

  /** The entry that the visit reads is provided, under the protection of its policy. */
  lemma {:induction false} RuinByEntry(x: External, s: State, name: string, spec: Spec, k: nat, partial: Spec, w: View)
    returns (actions: seq<Action>)
    requires Loose(x, s, name) && InliningAt(s, name, spec, k, partial) && k < |Plan(spec)|
    requires RefOf(partial, Plan(spec)[k]) == Some(ConfigMapNamed(IMAGE_POLICIES))
    requires CanVisit(x, w, name, partial, Plan(spec)[k])
    requires CanGoOn(x, name, spec, k + 1, Exec(x, w, partial, Plan(spec)[k]).value)
    ensures Ruins(x, s, actions)
    decreases |Plan(spec)| - k, 0, 1
  {
    var op := Plan(spec)[k];
    EntryVisit(x, ViewOf(s), w, partial, op);
    var m := KeyRead(partial, op);
    var text := w.configMaps[IMAGE_POLICIES][m];
    var a := Protect(s, m);
    HelpByProtecting(x, s, name, m);
    var s1 := Apply(x, s, a);
    var b := SetImagePolicies(Some(Entries(s1)[m := text]));
    HelpWithEntry(x, s1, name, m, text);
    var s2 := Apply(x, s1, b);
    SuppliesIsText(s2, m, text);
    EntryVisit(x, ViewOf(s2), w, partial, op);
    var rest := RuinByVisiting(x, s2, name, spec, k, partial, w);
    RuinsLater(x, s1, b, rest);
    RuinsLater(x, s, a, [b] + rest);
    actions := [a] + ([b] + rest);
  }

  lemma SuppliesIsText(s: State, m: string, text: string)
    requires m in Entries(s) && Entries(s)[m] == text && text != ""
    ensures Supplies(ViewOf(s), m) && ViewOf(s).configMaps[IMAGE_POLICIES][m] == text
  {
  }

  /** The visit now gives what the view gives: the job tracks what it reads, reads it, and goes on. */
  lemma {:induction false} RuinByVisiting(x: External, s: State, name: string, spec: Spec, k: nat, partial: Spec,
                                          w: View)
    returns (actions: seq<Action>)
    requires Loose(x, s, name) && InliningAt(s, name, spec, k, partial) && k < |Plan(spec)|
    requires CanVisit(x, w, name, partial, Plan(spec)[k])
    requires Exec(x, ViewOf(s), partial, Plan(spec)[k]) == Exec(x, w, partial, Plan(spec)[k])
    requires CanGoOn(x, name, spec, k + 1, Exec(x, w, partial, Plan(spec)[k]).value)
    ensures Ruins(x, s, actions)
    decreases |Plan(spec)| - k, 0, 0
  {
    var a := Advance(name, Done);
    var next := Exec(x, w, partial, Plan(spec)[k]).value;
    AdvanceStaysLoose(x, s, name);
    var s1 := Apply(x, s, a);
    AdvanceVisits(x, s, name, spec, k, partial);
    if InliningAt(s1, name, spec, k + 1, next) {
      var rest := RuinByVisits(x, s1, name, spec, k + 1, next);
      RuinsLater(x, s, a, rest);
      actions := [a] + rest;
    } else {
      AdvanceStaysLoose(x, s1, name);
      AdvanceVisits(x, s1, name, spec, k, partial);
      var s2 := Apply(x, s1, a);
      var rest := RuinByVisits(x, s2, name, spec, k + 1, next);
      RuinsLater(x, s1, a, rest);
      RuinsLater(x, s, a, [a] + rest);
      actions := [a] + ([a] + rest);
    }
  }

  /** A step of inlining tracks, or else visits. */
  lemma AdvanceVisits(x: External, s: State, name: string, spec: Spec, k: nat, partial: Spec)
    requires InliningAt(s, name, spec, k, partial) && k < |Plan(spec)|
    requires Exec(x, ViewOf(s), partial, Plan(spec)[k]).Ok?
    ensures var s' := AdvanceJob(x, s, name, Done);
      && ViewOf(s') == ViewOf(s)
      && (|| InliningAt(s', name, spec, k + 1, Exec(x, ViewOf(s), partial, Plan(spec)[k]).value)
          || (!s.jobs[name].tracked && InliningAt(s', name, spec, k, partial) && s'.jobs[name].tracked))
  {
    InlineNextOnlyReads(x, s, name, s.jobs[name], Done);
  }

  lemma RuinByJob(x: External, s: State, name: string) returns (actions: seq<Action>)
    requires Loose(x, s, name) && CanPublish(x, name, s.jobs[name])
    ensures Ruins(x, s, actions)
  {
    var j := s.jobs[name];
    match j
    case Publishing(_, _, _) => actions := RuinByPublishing(x, s, name);
    case Inlining(_, res, partial, k, _) => actions := RuinByVisits(x, s, name, res.spec, k, partial);
    case Fetched(orig) =>
      var a := Advance(name, Done);
      AdvanceStaysLoose(x, s, name);
      var rest := RuinByVisits(x, Apply(x, s, a), name, orig.spec, 0, orig.spec);
      RuinsLater(x, s, a, rest);
      actions := [a] + rest;
  }

  lemma RuinByRelease(x: External, s: State, name: string) returns (actions: seq<Action>)
    requires name in Entries(s) && Unlocking(s, name)
    ensures Ruins(x, s, actions)
  {
    var a := Advance(name, Done);
    var s' := Apply(x, s, a);
    assert name in Entries(s') && !Held(s', name);
    assert Ruins(x, s', []);
    RuinsLater(x, s, a, []);
    actions := [a] + [];
  }

  lemma NoneOrphaned(x: External, s: State)
    requires NoOrphans(x, s)
    ensures !Orphaned(s)
  {
    forall n | n in Entries(s) ensures Held(s, n) {
      assert NoOrphan(x, s, n);
    }
  }

  /**
   Orphan freedom is exact: it holds in just those states from which, as long as nobody meddles, no entry ever loses its
   policy or the finalizer of its policy.
   */
  lemma NoOrphansIff(x: External, s: State)
    requires Inv(x, s)
    ensures NoOrphans(x, s) <==> !CanOrphan(x, s)
  {
    if NoOrphans(x, s) {
      forall actions ensures !Ruins(x, s, actions) {
        if IsRun(x, s, actions) && LeftAlone(x, s, actions) {
          NeverOrphanedIff(x, s, actions);
          NoneOrphaned(x, After(x, s, actions));
        }
      }
    } else if n :| n in Entries(s) && !Held(s, n) {
      assert Ruins(x, s, []);
    } else if n :| n in Entries(s) && Unlocking(s, n) {
      var actions := RuinByRelease(x, s, n);
    } else {
      var n :| !NoOrphan(x, s, n);
      var actions := RuinByJob(x, s, n);
    }
  }

  /** So an action meddles if and only if it makes it possible that, without further meddling, an orphan comes about. */
  lemma MeddlesIff(x: External, s: State, a: Action)
    requires Inv(x, s) && NoOrphans(x, s) && Enabled(s, a)
    ensures Meddles(x, s, a) <==> CanOrphan(x, Apply(x, s, a))
  {
    StepKeepsNoOrphansIff(x, s, a);
    StepKeepsInv(x, s, a);
    NoOrphansIff(x, Apply(x, s, a));
  }
}
