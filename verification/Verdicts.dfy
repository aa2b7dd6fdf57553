/**
 The verdict on an image, said of what its policies' authorities and checks yield, for receives without cancellation:
 when it must be refused, when it only draws a warning, and when it passes.
 */
module Verdicts {
  import opened Wrappers
  import opened Schedules
  import opened Admission
  import opened ImageAdmission
  import ConfiguredAdmission
  import PodAdmission

  /** The authority succeeded and has something to show for it. */
  predicate Vouches(o: Outcome) {
    && o.error.None?
    && !(o.evidence.signatures == [] && o.evidence.attestations == map[] && !o.evidence.isStatic)
  }

  /** Of what an authority has to show one kind counts: signatures before attestations before being static. */
  function Shown(e: Evidence): Evidence {
    if |e.signatures| > 0 then e.(attestations := map[], isStatic := false)
    else if e.attestations.Keys != {} then e.(isStatic := false)
    else e.(isStatic := true)
  }

  /** What the policy-level check is asked about: each authority that vouches, by name. */
  ghost predicate AreMatches(p: Policy, m: map<string, Evidence>) {
    && (forall k :: k in m ==> exists i | 0 <= i < |p.outcomes| :: Vouches(p.outcomes[i]) && p.outcomes[i].name == k)
    && (forall i | 0 <= i < |p.outcomes| && Vouches(p.outcomes[i]) ::
         p.outcomes[i].name in m && m[p.outcomes[i].name] == Shown(p.outcomes[i].evidence))
  }

  /** Some authority vouches, and the policy-level check, if there is one, passes on those that do. */
  ghost predicate Content(p: Policy, m: map<string, Evidence>) {
    AreMatches(p, m) && m != map[] && (p.check.None? || p.check.value(m).Pass?)
  }

  /** No authority vouches and one of them fails, or the policy-level check refuses those that vouch: with this text. */
  ghost predicate Discontent(p: Policy, m: map<string, Evidence>, text: string) {
    && AreMatches(p, m)
    && if m == map[] then exists i | 0 <= i < |p.outcomes| :: p.outcomes[i].error == Some(text)
       else p.check.Some? && match p.check.value(m)
                             case Refused(error) => text == error
                             case ConfigFiles(error, more) => text == error || text in more
                             case _ => false
  }

  lemma VouchesAndShown(o: Outcome)
    ensures Vouches(o) <==> Passing(o)
    ensures Vouches(o) ==> Shown(o.evidence) == MatchOf(o)
  {
    assert o.evidence.attestations.Keys != {} <==> o.evidence.attestations != map[];
  }

  lemma MatchesHold(p: Policy)
    requires DistinctAuthorities(p)
    ensures forall i | 0 <= i < |p.outcomes| && Passing(p.outcomes[i]) ::
              p.outcomes[i].name in Matches(p) && Matches(p)[p.outcomes[i].name] == MatchOf(p.outcomes[i])
    ensures forall k | k in Matches(p) ::
              exists i | 0 <= i < |p.outcomes| :: Passing(p.outcomes[i]) && p.outcomes[i].name == k
  {
    hide Passing, MatchOf;
  }

  lemma MatchesAre(p: Policy, m: map<string, Evidence>)
    requires DistinctAuthorities(p) && AreMatches(p, m)
    ensures m == Matches(p)
    ensures m == map[] <==> !AnyPasses(p)
  {
    hide Vouches, Passing, Shown, MatchOf, Matches, DistinctAuthorities;
    MatchesHold(p);
    forall i | 0 <= i < |p.outcomes|
      ensures Vouches(p.outcomes[i]) <==> Passing(p.outcomes[i])
      ensures Vouches(p.outcomes[i]) ==> Shown(p.outcomes[i].evidence) == MatchOf(p.outcomes[i])
    {
      VouchesAndShown(p.outcomes[i]);
    }
    forall k | k in m ensures k in Matches(p) && m[k] == Matches(p)[k] {
      var i :| 0 <= i < |p.outcomes| && Vouches(p.outcomes[i]) && p.outcomes[i].name == k;
    }
    assert m.Keys == Matches(p).Keys;
    assert m == map[] <==> forall k :: k !in m;
  }

  lemma ContentIsMet(p: Policy, m: map<string, Evidence>)
    requires DistinctAuthorities(p) && Content(p, m)
    ensures Meets(p)
  {
    MatchesAre(p, m);
  }

  lemma DiscontentIsGripe(p: Policy, m: map<string, Evidence>, text: string)
    requires DistinctAuthorities(p) && Discontent(p, m, text)
    ensures !Meets(p) && Gripes(p, text)
  {
    hide Passing, Matches, AreMatches;
    MatchesAre(p, m);
    if m != map[] {
      var c := p.check.value(m);
      assert text in CheckTexts(c) && c != Pass;
    }
  }

  ghost predicate Asked(policies: seq<Policy>, inner: seq<Schedule>, outer: Schedule) {
    && policies != [] && AreSchedules(policies, inner, outer) && AllDistinct(policies)
    && Undisturbed(outer) && forall i | 0 <= i < |policies| :: Undisturbed(inner[i])
  }

  /** A discontent policy in enforcing mode refuses the image, whatever the others say. */
  lemma DiscontentRefuses(policies: seq<Policy>, noMatchPolicy: Option<string>, inner: seq<Schedule>, outer: Schedule,
                          i: nat, m: map<string, Evidence>, text: string)
    requires Asked(policies, inner, outer) && i < |policies|
    requires policies[i].mode != "warn" && Discontent(policies[i], m, text)
    ensures ImageAdmission.Refused(Matching(policies), noMatchPolicy, inner, outer)
  {
    RefusedExactly(policies, noMatchPolicy, inner, outer);
    DiscontentIsGripe(policies[i], m, text);
    MuteIff(policies[i]);
    assert Blocks(policies[i]);
  }

  /** In warn mode it draws a warning. */
  lemma DiscontentWarns(policies: seq<Policy>, noMatchPolicy: Option<string>, inner: seq<Schedule>, outer: Schedule,
                        i: nat, m: map<string, Evidence>, text: string)
    requires Asked(policies, inner, outer) && i < |policies|
    requires policies[i].mode == "warn" && text != "" && Discontent(policies[i], m, text)
    ensures Warned(Matching(policies), noMatchPolicy, inner, outer)
  {
    RefusedExactly(policies, noMatchPolicy, inner, outer);
    DiscontentIsGripe(policies[i], m, text);
    assert Warns(policies[i]);
  }

  /** In warn mode, without empty texts, that is all it does: only enforcing policies refuse. */
  lemma WarnModeOnlyWarns(policies: seq<Policy>, noMatchPolicy: Option<string>, inner: seq<Schedule>, outer: Schedule)
    requires Asked(policies, inner, outer)
    requires forall i | 0 <= i < |policies| :: policies[i].mode == "warn" && Spoken(policies[i])
    ensures !ImageAdmission.Refused(Matching(policies), noMatchPolicy, inner, outer)
  {
    hide Blocks, Spoken;
    RefusedExactly(policies, noMatchPolicy, inner, outer);
    forall i | 0 <= i < |policies| ensures !Blocks(policies[i]) {
      SpokenOnlyWarns(policies[i]);
    }
  }

  lemma SpokenOnlyWarns(p: Policy)
    requires DistinctAuthorities(p) && p.mode == "warn" && Spoken(p)
    ensures !Blocks(p)
  {
    hide Meets, Mute;
    assert !Gripes(p, "");
  }

  /** No error of an authority and no text of a check is empty. */
  ghost predicate Spoken(p: Policy) {
    && (forall i | 0 <= i < |p.outcomes| :: p.outcomes[i].error != Some(""))
    && (p.check.Some? ==> forall m :: match p.check.value(m)
                                      case Refused(error) => error != ""
                                      case ConfigFiles(error, more) => error != "" && "" !in more
                                      case _ => true)
  }

  /** An image with which all policies are content passes without a warning. */
  lemma ContentAdmits(policies: seq<Policy>, noMatchPolicy: Option<string>, inner: seq<Schedule>, outer: Schedule,
                      matches: seq<map<string, Evidence>>)
    requires Asked(policies, inner, outer) && |matches| == |policies|
    requires forall i | 0 <= i < |policies| :: Content(policies[i], matches[i])
    ensures !ImageAdmission.Refused(Matching(policies), noMatchPolicy, inner, outer)
    ensures !Warned(Matching(policies), noMatchPolicy, inner, outer)
  {
    RefusedExactly(policies, noMatchPolicy, inner, outer);
    forall i | 0 <= i < |policies| ensures Meets(policies[i]) {
      ContentIsMet(policies[i], matches[i]);
    }
  }

  /** An image that no policy matches is refused but for the two settings that tolerate it, and warned for one. */
  lemma NoPolicyMatches(noMatchPolicy: Option<string>, inner: seq<Schedule>, outer: Schedule)
    requires |inner| == 0
    ensures ImageAdmission.Refused(Matching([]), noMatchPolicy, inner, outer) <==>
      noMatchPolicy != Some("allow") && noMatchPolicy != Some("warn")
    ensures Warned(Matching([]), noMatchPolicy, inner, outer) <==> noMatchPolicy == Some("warn")
  {
  }

  // ---------- an image of a pod ----------

  /** An image of a pod, in digest form, is refused if a configured policy that applies to it is discontent with it. */
  lemma PodImageRefused(env: PodAdmission.Environment, field: string, item: PodAdmission.Item, name: string, k: string,
                        m: map<string, Evidence>, text: string)
    requires PodAdmission.WellPosed(env) && PodAdmission.AllHeard(env) && env.attached
    requires env.parse(item.image) == PodAdmission.Digest(name)
    requires ConfiguredAdmission.Concerned(PodAdmission.Asked(env, field, item, name), k)
    requires env.policy(name, k).mode != "warn" && Discontent(env.policy(name, k), m, text)
    ensures !PodAdmission.Clean(env, field, item)
  {
    hide ConfiguredAdmission.Concerned, Discontent, Blocks, Gripes;
    var q := PodAdmission.Asked(env, field, item, name);
    assert ConfiguredAdmission.Heard(q);
    assert q.policy(k) == env.policy(name, k);
    DiscontentBlocks(q.policy(k), m, text);
    PodAdmission.CleanIsAccepted(env, field, item);
  }

  lemma DiscontentBlocks(p: Policy, m: map<string, Evidence>, text: string)
    requires DistinctAuthorities(p) && p.mode != "warn" && Discontent(p, m, text)
    ensures Blocks(p)
  {
    hide Discontent, Gripes, Meets, Mute;
    DiscontentIsGripe(p, m, text);
    MuteIff(p);
  }

  /** It is admitted without a warning if some policy applies, and each that does is content with it. */
  lemma PodImageAdmitted(env: PodAdmission.Environment, field: string, item: PodAdmission.Item, name: string, k: string,
                         matches: string -> map<string, Evidence>)
    requires PodAdmission.WellPosed(env) && PodAdmission.AllHeard(env) && env.attached
    requires env.parse(item.image) == PodAdmission.Digest(name)
    requires var q := PodAdmission.Asked(env, field, item, name);
      && !ConfiguredAdmission.LookupFails(q) && ConfiguredAdmission.Concerned(q, k)
      && forall n :: ConfiguredAdmission.Concerned(q, n) ==> Content(env.policy(name, n), matches(n))
    ensures PodAdmission.Clean(env, field, item) && !PodAdmission.Advised(env, field, item)
  {
    hide ConfiguredAdmission.Concerned, ConfiguredAdmission.LookupFails, Content, Meets;
    var q := PodAdmission.Asked(env, field, item, name);
    ConfiguredAdmission.HeardVerdict(q);
    forall n | ConfiguredAdmission.Concerned(q, n) ensures Meets(q.policy(n)) {
      ContentIsMet(q.policy(n), matches(n));
    }
  }

  /** Without a configuration nothing is asked; if it cannot be used, or none of it applies, that decides. */
  lemma PodImageUnmatched(env: PodAdmission.Environment, field: string, item: PodAdmission.Item, name: string)
    requires PodAdmission.WellPosed(env) && PodAdmission.AllHeard(env)
    requires env.parse(item.image) == PodAdmission.Digest(name)
    ensures !env.attached ==> PodAdmission.Clean(env, field, item) && !PodAdmission.Advised(env, field, item)
    ensures env.attached && (env.config.None? || env.apiVersionError.Some?) ==> !PodAdmission.Clean(env, field, item)
    ensures var q := PodAdmission.Asked(env, field, item, name);
      env.attached && !ConfiguredAdmission.LookupFails(q) && (forall k :: !ConfiguredAdmission.Concerned(q, k)) ==>
        && (PodAdmission.Clean(env, field, item) <==> env.noMatchPolicy in {Some("allow"), Some("warn")})
        && (PodAdmission.Advised(env, field, item) <==> env.noMatchPolicy == Some("warn"))
  {
    hide ConfiguredAdmission.Concerned;
    ConfiguredAdmission.HeardVerdict(PodAdmission.Asked(env, field, item, name));
  }
}
