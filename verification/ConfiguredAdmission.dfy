/** One image against the whole configuration: looking up the policies that apply, and checking them. */
module ConfiguredAdmission {
  import opened Wrappers
  import opened FieldErrors
  import opened ErrorFolding
  import opened PolicyFanIn
  import opened Schedules
  import opened ImageAdmission
  import Matching

  /**
   An image of a resource. `parsed` is the qualified name of the reference, `config` the stored policies, `attached`
   whether the request carries a configuration at all, and `policy` what checking a policy by its name yields. Maps are
   walked in the orders `listed`, `spawned` and `walked`; `inner` and `outer` are the schedules of the goroutines.
   */
  datatype Inquiry = Inquiry(
    image: string,
    path: string,
    parsed: Result<string, string>,
    attached: bool,
    config: Option<map<string, Matching.Compiled>>,
    apiVersionError: Option<string>,
    req: Matching.Request,
    noMatchPolicy: Option<string>,
    policy: string -> Admission.Policy,
    listed: seq<string>,
    spawned: map<string, Matching.Compiled> -> seq<string>,
    walked: Failures -> seq<string>,
    inner: string -> Schedule,
    outer: nat -> Schedule)

  /** The glob is asked about the qualified name, which is its own qualified name. */
  ghost predicate Named(q: Inquiry) {
    q.parsed.Ok? ==> q.req.image == q.parsed.value && q.req.refName == Some(q.parsed.value)
  }

  ghost predicate Posed(q: Inquiry) {
    && Named(q)
    && (q.config.Some? ==> Matching.IsOrderOf(q.listed, q.config.value))
    && (forall found :: Matching.IsOrderOf(q.spawned(found), found))
    && (forall failing :: IsOrderOf(q.walked(failing), failing))
    && (forall k :: q.policy(k).name == k && IsSchedule(q.inner(k), |q.policy(k).outcomes|))
    && (forall n :: IsSchedule(q.outer(n), n))
  }

  /** No receive of an authority is cancelled, and authorities of a policy have names of their own. */
  ghost predicate AuthoritiesHeard(q: Inquiry) {
    forall k :: Undisturbed(q.inner(k)) && DistinctAuthorities(q.policy(k))
  }

  /** Nor is any receive of a policy. */
  ghost predicate Heard(q: Inquiry) { AuthoritiesHeard(q) && forall n :: Undisturbed(q.outer(n)) }

  // ---------- the declarative meaning ----------

  /** The lookup fails: no configuration, no API version, or a configured policy that cannot be matched. */
  ghost predicate LookupFails(q: Inquiry) {
    || q.config.None? || q.apiVersionError.Some?
    || exists k :: k in q.config.value && Matching.Fails(q.config.value[k], q.req)
  }

  ghost predicate Concerned(q: Inquiry, k: string) {
    q.config.Some? && k in q.config.value && Matching.Applies(q.config.value[k], q.req)
  }

  ghost predicate NoneConcerned(q: Inquiry) { forall k :: !Concerned(q, k) }

  predicate Tolerated(q: Inquiry) { q.noMatchPolicy == Some(ALLOW_ALL) || q.noMatchPolicy == Some(WARN_ALL) }

  /** The policies that apply, in the order in which they are started. */
  ghost function Started(q: Inquiry): seq<string> {
    q.spawned(if q.config.None? then map[] else map k | Concerned(q, k) && k in q.config.value :: q.config.value[k])
  }

  /** The policy's result is received. */
  ghost predicate Answers(q: Inquiry, k: string) {
    exists i | 0 <= i < |Started(q)| :: Started(q)[i] == k && Arrived(q.outer(|Started(q)|), i)
  }

  /** By what is received: a policy that applies answers and objects, or there is none to ask. */
  ghost predicate Denied(q: Inquiry) {
    || q.parsed.Err?
    || (q.attached &&
        (|| LookupFails(q)
         || (exists k :: Concerned(q, k) && Answers(q, k) && Objects(q.policy(k), q.inner(k)))
         || (NoneConcerned(q) && !Tolerated(q))))
  }

  ghost predicate Warned(q: Inquiry) {
    q.parsed.Ok? && q.attached && !LookupFails(q) &&
    (|| (exists k :: Concerned(q, k) && Answers(q, k) && Advises(q.policy(k), q.inner(k)))
     || (NoneConcerned(q) && q.noMatchPolicy == Some(WARN_ALL)))
  }

  ghost predicate TurnedAway(q: Inquiry)
    requires Heard(q)
  {
    || q.parsed.Err?
    || (q.attached &&
        (|| LookupFails(q)
         || (exists k :: Concerned(q, k) && Blocks(q.policy(k)))
         || (NoneConcerned(q) && !Tolerated(q))))
  }

  ghost predicate Admonished(q: Inquiry)
    requires Heard(q)
  {
    q.parsed.Ok? && q.attached && !LookupFails(q) &&
    (|| (exists k :: Concerned(q, k) && Warns(q.policy(k)))
     || (NoneConcerned(q) && q.noMatchPolicy == Some(WARN_ALL)))
  }

  // ---------- the code ----------

  /** The policies to check and their schedules, in the order in which they are started. */
  function Chosen(q: Inquiry, names: seq<string>): seq<Admission.Policy> {
    seq(|names|, i requires 0 <= i < |names| => q.policy(names[i]))
  }

  function InnerOf(q: Inquiry, names: seq<string>): seq<Schedule> {
    seq(|names|, i requires 0 <= i < |names| => q.inner(names[i]))
  }

  method Find(q: Inquiry) returns (lookup: Lookup, names: seq<string>)
    requires Posed(q)
    ensures lookup.Unparsable? <==> q.parsed.Err?
    ensures lookup.NoConfiguration? <==> q.parsed.Ok? && !q.attached
    ensures lookup.LookupFailed? <==> q.parsed.Ok? && q.attached && LookupFails(q)
    ensures lookup.Matching? ==>
      && lookup.policies == Chosen(q, names) && names == Started(q)
      && (forall k :: k in names <==> Concerned(q, k))
      && (forall i, j :: 0 <= i < j < |names| ==> names[i] != names[j])
  {
    names := [];
    if q.parsed.Err? {
      lookup := Unparsable(q.parsed.error);
    } else if !q.attached {
      lookup := NoConfiguration;
    } else {
      var found := Matching.GetMatchingPolicies(q.config, q.listed, q.apiVersionError, q.req);
      if found.Err? {
        lookup := LookupFailed("no matching policies can be determined");
      } else {
        assert found.value == map k | Concerned(q, k) && k in q.config.value :: q.config.value[k];
        names := q.spawned(found.value);
        assert Matching.IsOrderOf(names, found.value);
        lookup := ImageAdmission.Matching(Chosen(q, names));
      }
    }
  }

  lemma ChosenAnswer(q: Inquiry, names: seq<string>)
    requires names == Started(q) && forall k :: k in names <==> Concerned(q, k)
    ensures SomeObjects(Chosen(q, names), InnerOf(q, names), q.outer(|names|)) <==>
      exists k :: Concerned(q, k) && Answers(q, k) && Objects(q.policy(k), q.inner(k))
    ensures SomeAdvises(Chosen(q, names), InnerOf(q, names), q.outer(|names|)) <==>
      exists k :: Concerned(q, k) && Answers(q, k) && Advises(q.policy(k), q.inner(k))
  {
    hide Objects, Advises, Concerned;
    forall i | 0 <= i < |names| ensures
      && Concerned(q, names[i]) && (Arrived(q.outer(|names|), i) ==> Answers(q, names[i]))
      && Chosen(q, names)[i] == q.policy(names[i]) && InnerOf(q, names)[i] == q.inner(names[i])
    {
      assert names[i] in names;
    }
  }

  /**
   Whatever the orders and the schedules, with any cancellations, an image is refused exactly if it does not parse, the
   lookup fails, some configured policy applies to it, answers in time and objects, or none applies and that is not
   tolerated.
   */
  method ValidateConfigured(q: Inquiry) returns (r: Option<FieldError>)
    requires Posed(q)
    ensures Holds(r, ErrorLevel) <==> Denied(q)
    ensures Holds(r, WarningLevel) <==> Warned(q)
  {
    hide Concerned, LookupFails, Answers, Objects, Advises;
    var lookup, names := Find(q);
    var policies, inner, outer := Chosen(q, names), InnerOf(q, names), q.outer(|names|);
    assert AreSchedules(policies, inner, outer);
    assert forall i | 0 <= i < |policies| :: policies[i].name == names[i];
    r := ValidateContainerImage(q.image, q.path, lookup, q.noMatchPolicy, inner, outer, q.walked);
    if lookup.Matching? {
      ChosenAnswer(q, names);
      assert names != [] ==> names[0] in names;
    }
  }

  /** Once the authorities are heard, a policy objects exactly if it blocks. */
  lemma ObjectingIsBlocking(q: Inquiry, k: string)
    requires Posed(q) && AuthoritiesHeard(q)
    ensures Objects(q.policy(k), q.inner(k)) <==> Blocks(q.policy(k))
    ensures Advises(q.policy(k), q.inner(k)) <==> Warns(q.policy(k))
  {
    ObjectsIffBlocks(q.policy(k), q.inner(k));
  }

  lemma EveryoneAnswers(q: Inquiry, k: string)
    requires Posed(q) && Heard(q) && Concerned(q, k)
    ensures Answers(q, k)
  {
    var found := map n | Concerned(q, n) && n in q.config.value :: q.config.value[n];
    assert Matching.IsOrderOf(q.spawned(found), found) && k in found;
    var i :| 0 <= i < |Started(q)| && Started(q)[i] == k;
    EverythingArrives(q.outer(|Started(q)|), |Started(q)|, i);
  }

  /** Without cancellation the orders and the schedules do not matter. */
  lemma HeardVerdict(q: Inquiry)
    requires Posed(q) && Heard(q)
    ensures (Denied(q) <==> TurnedAway(q)) && (Warned(q) <==> Admonished(q))
  {
    hide Concerned, Objects, Advises, Blocks, Warns, Answers, Posed, LookupFails;
    forall k ensures
      && (Objects(q.policy(k), q.inner(k)) <==> Blocks(q.policy(k)))
      && (Advises(q.policy(k), q.inner(k)) <==> Warns(q.policy(k)))
      && (Concerned(q, k) ==> Answers(q, k))
    {
      ObjectingIsBlocking(q, k);
      if Concerned(q, k) {
        EveryoneAnswers(q, k);
      }
    }
  }
}
