/**
 The images of a pod: all groups are checked, each with its own fan-in, into one collection of diagnostics. The receives
 of the pod, of each image's policies and of each policy's authorities see the same context, and each may find it
 cancelled.
 */
module PodAdmission {
  import opened Wrappers
  import opened FieldErrors
  import opened Schedules
  import opened ConfiguredAdmission
  import Glob
  import Admission

  /** A reference in digest form has a qualified name. */
  datatype Reference = Malformed(error: string) | Tag | Digest(name: string)

  /** An image volume may be absent, or its reference empty; neither is checked. */
  datatype PodSpec = PodSpec(
    initContainers: seq<string>,
    containers: seq<string>,
    ephemeralContainers: seq<string>,
    volumes: seq<Option<string>>)

  /** The orders in which the goroutines for one image walk maps, and how the receives of its policies go. */
  datatype Work = Work(
    listed: seq<string>,
    spawned: map<string, Matching.Compiled> -> seq<string>,
    walked: PolicyFanIn.Failures -> seq<string>,
    inner: string -> Schedule,
    outer: nat -> Schedule)

  /**
   The cluster and the request: `config`, if it is attached, are the stored policies, and `policy` what checking an
   image by a policy yields.
   */
  datatype Environment = Environment(
    keychainError: Option<string>,
    parse: string -> Reference,
    path: (string, nat) -> string,
    attached: bool,
    config: Option<map<string, Matching.Compiled>>,
    apiVersionError: Option<string>,
    group: string,
    version: string,
    resource: string,
    selects: string -> Option<bool>,
    noMatchPolicy: Option<string>,
    policy: (string, string) -> Admission.Policy,
    work: (string, nat) -> Work)

  /** What is asked about the image of the given qualified name, at the given place of the pod. */
  function Asked(env: Environment, field: string, item: Item, name: string): Inquiry {
    var w := env.work(field, item.index);
    Inquiry(item.image, env.path(field, item.index), Ok(name), env.attached, env.config, env.apiVersionError,
            Matching.Request(name, Some(name), env.group, env.version, env.resource, env.selects), env.noMatchPolicy,
            k => env.policy(name, k), w.listed, w.spawned, w.walked, w.inner, w.outer)
  }

  /** Policies have names of their own, maps are walked in some order, and schedules fit. */
  ghost predicate WellPosed(env: Environment) { forall field, item, name :: Posed(Asked(env, field, item, name)) }

  datatype Item = Item(index: nat, image: string)

  method RefOrFieldError(env: Environment, field: string, item: Item) returns (r: Option<FieldError>)
    ensures r.None? <==> env.parse(item.image).Digest?
    ensures r.Some? ==> Holds(r, ErrorLevel)
  {
    var path := env.path(field, item.index);
    match env.parse(item.image)
    case Malformed(error) => r := Some(FieldError(error, [path], ErrorLevel, "", []));
    case Tag =>
      var message := "invalid value: " + item.image + " must be an image digest";
      r := Some(FieldError(message, [path], ErrorLevel, "", []));
    case Digest => r := None;
  }

  /** In digest form and not refused, by what its policies' receives took. */
  ghost predicate Clean(env: Environment, field: string, item: Item) {
    && env.parse(item.image).Digest?
    && !Denied(Asked(env, field, item, env.parse(item.image).name))
  }

  ghost predicate Advised(env: Environment, field: string, item: Item) {
    && env.parse(item.image).Digest?
    && Warned(Asked(env, field, item, env.parse(item.image).name))
  }

  /** One goroutine of a group. */
  method CheckItem(env: Environment, field: string, item: Item) returns (r: Option<FieldError>)
    requires WellPosed(env)
    ensures Holds(r, ErrorLevel) <==> !Clean(env, field, item)
    ensures Clean(env, field, item) ==> (Holds(r, WarningLevel) <==> Advised(env, field, item))
  {
    r := RefOrFieldError(env, field, item);
    if r.None? {
      r := ValidateConfigured(Asked(env, field, item, env.parse(item.image).name));
    }
  }

  /** The goroutines of one group. */
  method CheckItems(env: Environment, field: string, items: seq<Item>) returns (results: seq<Option<FieldError>>)
    requires WellPosed(env)
    ensures |results| == |items|
    ensures forall i | 0 <= i < |items| :: Holds(results[i], ErrorLevel) <==> !Clean(env, field, items[i])
    ensures forall i | 0 <= i < |items| :: Clean(env, field, items[i]) ==>
      (Holds(results[i], WarningLevel) <==> Advised(env, field, items[i]))
  {
    hide Clean, Advised;
    results := [];
    for i := 0 to |items|
      invariant |results| == i
      invariant forall j | 0 <= j < i :: Holds(results[j], ErrorLevel) <==> !Clean(env, field, items[j])
      invariant forall j | 0 <= j < i :: Clean(env, field, items[j]) ==>
        (Holds(results[j], WarningLevel) <==> Advised(env, field, items[j]))
    {
      var fe := CheckItem(env, field, items[i]);
      results := results + [fe];
    }
  }

  /** The receive loop: every cancelled receive is an error, and everything received is kept. */
  method Gather(results: seq<Option<FieldError>>, schedule: Schedule, errs: Option<FieldError>)
    returns (r: Option<FieldError>)
    requires IsSchedule(schedule, |results|)
    ensures Holds(r, ErrorLevel) <==>
      Holds(errs, ErrorLevel) || !Undisturbed(schedule) || SomeHolds(results, schedule, ErrorLevel)
    ensures Holds(r, WarningLevel) <==> Holds(errs, WarningLevel) || SomeHolds(results, schedule, WarningLevel)
  {
    r := errs;
    for k := 0 to |schedule|
      invariant Holds(r, ErrorLevel) <==>
        Holds(errs, ErrorLevel) || !Undisturbed(schedule[..k]) || SomeHolds(results, schedule[..k], ErrorLevel)
      invariant Holds(r, WarningLevel) <==> Holds(errs, WarningLevel) || SomeHolds(results, schedule[..k], WarningLevel)
    {
      var result := match schedule[k]
        case None => Some(FieldError("context was canceled before validation completed", [], ErrorLevel, "", []))
        case Some(i) => results[i];
      AlsoHolds(r, result, ErrorLevel);
      AlsoHolds(r, result, WarningLevel);
      OneMore(results, schedule, k, ErrorLevel);
      OneMore(results, schedule, k, WarningLevel);
      r := Also(r, result);
    }
    assert schedule[..|schedule|] == schedule;
  }

  ghost predicate SomeHolds(results: seq<Option<FieldError>>, schedule: Schedule, l: Level) {
    exists i | 0 <= i < |results| :: Arrived(schedule, i) && Holds(results[i], l)
  }

  lemma OneMore(results: seq<Option<FieldError>>, schedule: Schedule, k: nat, l: Level)
    requires IsSchedule(schedule, |results|) && k < |schedule|
    ensures Undisturbed(schedule[..k + 1]) <==> Undisturbed(schedule[..k]) && schedule[k].Some?
    ensures SomeHolds(results, schedule[..k + 1], l) <==>
      SomeHolds(results, schedule[..k], l) || (schedule[k].Some? && Holds(results[schedule[k].value], l))
  {
  }

  ghost predicate AllClean(env: Environment, field: string, items: seq<Item>) {
    forall i | 0 <= i < |items| :: Clean(env, field, items[i])
  }

  ghost predicate SomeAdvised(env: Environment, field: string, items: seq<Item>) {
    exists i | 0 <= i < |items| :: Advised(env, field, items[i])
  }

  /** One group: it adds no error exactly if every receive took a result and every image is clean. */
  method CheckGroup(env: Environment, field: string, items: seq<Item>, schedule: Schedule, errs: Option<FieldError>)
    returns (r: Option<FieldError>)
    requires WellPosed(env) && IsSchedule(schedule, |items|)
    ensures !Holds(r, ErrorLevel) <==> !Holds(errs, ErrorLevel) && Undisturbed(schedule) && AllClean(env, field, items)
    ensures !Holds(r, ErrorLevel) ==>
      (Holds(r, WarningLevel) <==> Holds(errs, WarningLevel) || SomeAdvised(env, field, items))
  {
    var results := CheckItems(env, field, items);
    r := Gather(results, schedule, errs);
    if Undisturbed(schedule) {
      forall i | 0 <= i < |items| ensures Arrived(schedule, i) {
        EverythingArrives(schedule, |items|, i);
      }
    }
  }

  function Containers(images: seq<string>): (items: seq<Item>)
    ensures |items| == |images| && forall i | 0 <= i < |images| :: items[i] == Item(i, images[i])
  {
    seq(|images|, i requires 0 <= i < |images| => Item(i, images[i]))
  }

  predicate Mounted(volume: Option<string>) { volume.Some? && volume.value != "" }

  /** The image volumes, with the indices they have among all volumes. */
  method Volumes(volumes: seq<Option<string>>) returns (items: seq<Item>)
    ensures items == MountedOf(volumes)
  {
    items := [];
    for i := 0 to |volumes|
      invariant items == MountedOf(volumes[..i])
    {
      assert volumes[..i + 1][..i] == volumes[..i];
      if Mounted(volumes[i]) {
        items := items + [Item(i, volumes[i].value)];
      }
    }
    assert volumes[..|volumes|] == volumes;
  }

  function MountedOf(volumes: seq<Option<string>>): seq<Item> {
    if volumes == [] then [] else
    var last := |volumes| - 1;
    MountedOf(volumes[..last]) + if Mounted(volumes[last]) then [Item(last, volumes[last].value)] else []
  }

  lemma {:induction false} MountedAll(volumes: seq<Option<string>>, item: Item)
    ensures item in MountedOf(volumes) <==>
      item.index < |volumes| && volumes[item.index] == Some(item.image) && item.image != ""
  {
    if volumes != [] {
      MountedAll(volumes[..|volumes| - 1], item);
    }
  }

  /** Every image of the pod is in digest form and gets no error. */
  ghost predicate PodClean(env: Environment, pod: PodSpec) {
    && (forall i | 0 <= i < |pod.initContainers| :: Clean(env, "initContainers", Item(i, pod.initContainers[i])))
    && (forall i | 0 <= i < |pod.containers| :: Clean(env, "containers", Item(i, pod.containers[i])))
    && (forall i | 0 <= i < |pod.ephemeralContainers| ::
         Clean(env, "ephemeralContainers", Item(i, pod.ephemeralContainers[i])))
    && (forall i | 0 <= i < |pod.volumes| :: Mounted(pod.volumes[i]) ==>
         Clean(env, "volumes", Item(i, pod.volumes[i].value)))
  }

  datatype PodSchedules = PodSchedules(init: Schedule, regular: Schedule, ephemeral: Schedule, volume: Schedule)

  ghost predicate AreSchedules(pod: PodSpec, s: PodSchedules) {
    && IsSchedule(s.init, |pod.initContainers|)
    && IsSchedule(s.regular, |pod.containers|)
    && IsSchedule(s.ephemeral, |pod.ephemeralContainers|)
    && IsSchedule(s.volume, |MountedOf(pod.volumes)|)
  }

  ghost predicate NeverCancelled(s: PodSchedules) {
    Undisturbed(s.init) && Undisturbed(s.regular) && Undisturbed(s.ephemeral) && Undisturbed(s.volume)
  }

  lemma GroupsArePod(env: Environment, pod: PodSpec)
    ensures PodClean(env, pod) <==>
      && AllClean(env, "initContainers", Containers(pod.initContainers))
      && AllClean(env, "containers", Containers(pod.containers))
      && AllClean(env, "ephemeralContainers", Containers(pod.ephemeralContainers))
      && AllClean(env, "volumes", MountedOf(pod.volumes))
  {
    ContainersClean(env, "initContainers", pod.initContainers);
    ContainersClean(env, "containers", pod.containers);
    ContainersClean(env, "ephemeralContainers", pod.ephemeralContainers);
    VolumesClean(env, pod.volumes);
  }

  lemma ContainersClean(env: Environment, field: string, images: seq<string>)
    ensures AllClean(env, field, Containers(images)) <==>
      forall i | 0 <= i < |images| :: Clean(env, field, Item(i, images[i]))
  {
  }

  lemma VolumesClean(env: Environment, volumes: seq<Option<string>>)
    ensures AllClean(env, "volumes", MountedOf(volumes)) <==>
      forall i | 0 <= i < |volumes| :: Mounted(volumes[i]) ==> Clean(env, "volumes", Item(i, volumes[i].value))
  {
    var items := MountedOf(volumes);
    forall j | 0 <= j < |items|
      ensures items[j].index < |volumes| && volumes[items[j].index] == Some(items[j].image) && items[j].image != ""
    {
      assert items[j] in items;
      MountedAll(volumes, items[j]);
    }
    forall i | 0 <= i < |volumes| && Mounted(volumes[i]) ensures Item(i, volumes[i].value) in items {
      MountedAll(volumes, Item(i, volumes[i].value));
    }
  }

  /**
   A pod gets no error, whatever all the schedules, exactly if its credentials could be built, no receive of the pod was
   cancelled, and every image of every group is in digest form and not refused by what its policies' receives took.
   */
  method ValidatePodSpec(env: Environment, pod: PodSpec, s: PodSchedules) returns (errs: Option<FieldError>)
    requires WellPosed(env) && AreSchedules(pod, s)
    ensures !Holds(errs, ErrorLevel) <==> env.keychainError.None? && NeverCancelled(s) && PodClean(env, pod)
    ensures !Holds(errs, ErrorLevel) ==> (Holds(errs, WarningLevel) <==>
      || SomeAdvised(env, "initContainers", Containers(pod.initContainers))
      || SomeAdvised(env, "containers", Containers(pod.containers))
      || SomeAdvised(env, "ephemeralContainers", Containers(pod.ephemeralContainers))
      || SomeAdvised(env, "volumes", MountedOf(pod.volumes)))
  {
    if env.keychainError.Some? {
      return Some(FieldError(env.keychainError.value, [""], ErrorLevel, "", []));
    }
    GroupsArePod(env, pod);
    errs := CheckGroup(env, "initContainers", Containers(pod.initContainers), s.init, None);
    errs := CheckGroup(env, "containers", Containers(pod.containers), s.regular, errs);
    errs := CheckGroup(env, "ephemeralContainers", Containers(pod.ephemeralContainers), s.ephemeral, errs);
    var volumes := Volumes(pod.volumes);
    errs := CheckGroup(env, "volumes", volumes, s.volume, errs);
  }

  // ---------- the verdict from the configuration ----------

  /** No receive below the pod is cancelled, and authorities of a policy have names of their own. */
  ghost predicate AllHeard(env: Environment) { forall field, item, name :: Heard(Asked(env, field, item, name)) }

  /** The lookup works, no configured policy that applies blocks, and if none applies that is tolerated. */
  ghost predicate Accepted(env: Environment, field: string, item: Item)
    requires AllHeard(env)
  {
    && env.parse(item.image).Digest?
    && var q := Asked(env, field, item, env.parse(item.image).name);
       env.attached ==>
         && !LookupFails(q)
         && (forall k :: Concerned(q, k) ==> !ImageAdmission.Blocks(q.policy(k)))
         && (NoneConcerned(q) ==> Tolerated(q))
  }

  ghost predicate PodAccepted(env: Environment, pod: PodSpec)
    requires AllHeard(env)
  {
    && (forall i | 0 <= i < |pod.initContainers| :: Accepted(env, "initContainers", Item(i, pod.initContainers[i])))
    && (forall i | 0 <= i < |pod.containers| :: Accepted(env, "containers", Item(i, pod.containers[i])))
    && (forall i | 0 <= i < |pod.ephemeralContainers| ::
         Accepted(env, "ephemeralContainers", Item(i, pod.ephemeralContainers[i])))
    && (forall i | 0 <= i < |pod.volumes| :: Mounted(pod.volumes[i]) ==>
         Accepted(env, "volumes", Item(i, pod.volumes[i].value)))
  }

  lemma CleanIsAccepted(env: Environment, field: string, item: Item)
    requires WellPosed(env) && AllHeard(env)
    ensures Clean(env, field, item) <==> Accepted(env, field, item)
  {
    if env.parse(item.image).Digest? {
      HeardVerdict(Asked(env, field, item, env.parse(item.image).name));
    }
  }

  /** Without cancellation below the pod, its images are clean exactly if the configuration accepts each of them. */
  lemma PodCleanIsAccepted(env: Environment, pod: PodSpec)
    requires WellPosed(env) && AllHeard(env)
    ensures PodClean(env, pod) <==> PodAccepted(env, pod)
  {
    hide Clean, Accepted;
    forall field, item ensures Clean(env, field, item) <==> Accepted(env, field, item) {
      CleanIsAccepted(env, field, item);
    }
  }

  /**
   From the configuration to the pod: without cancellation below the pod, it gets no error exactly if its credentials
   could be built, every receive took a result, and every image is in digest form, can be looked up, is blocked by no
   configured policy that applies to it, and is tolerated if none does.
   */
  method ValidateConfiguredPod(env: Environment, pod: PodSpec, s: PodSchedules) returns (errs: Option<FieldError>)
    requires WellPosed(env) && AllHeard(env) && AreSchedules(pod, s)
    ensures !Holds(errs, ErrorLevel) <==> env.keychainError.None? && NeverCancelled(s) && PodAccepted(env, pod)
  {
    errs := ValidatePodSpec(env, pod, s);
    PodCleanIsAccepted(env, pod);
  }

  /**
   A configured policy applies to an image of the pod if it has no entries or one for the kind of the pod's own request,
   and a glob of it matches the qualified name.
   */
  lemma ConcernsPod(env: Environment, field: string, item: Item, name: string, k: string)
    ensures Concerned(Asked(env, field, item, name), k) <==>
      && env.config.Some? && k in env.config.value
      && var c := env.config.value[k];
         && (|c.matches| == 0 || exists i | 0 <= i < |c.matches| ::
               && c.matches[i].group == env.group && c.matches[i].resource == env.resource
               && (c.matches[i].version == "*" || c.matches[i].version == env.version)
               && (c.matches[i].selector.Some? ==> env.selects(c.matches[i].selector.value) == Some(true)))
         && exists i | 0 <= i < |c.images| ::
              c.images[i].glob != "" && Glob.Match(c.images[i].glob, name, Some(name)) == Ok(true)
  {
    if env.config.Some? && k in env.config.value {
      Matching.AppliesMeans(env.config.value[k], Asked(env, field, item, name).req);
    }
  }

  // ---------- cancellation below the pod ----------

  /** An image is let through exactly if no policy that answered in time blocks it. */
  lemma RefusedByReceived(env: Environment, field: string, item: Item, name: string)
    requires WellPosed(env)
    requires var q := Asked(env, field, item, name);
      AuthoritiesHeard(q) && q.attached && !LookupFails(q) && !NoneConcerned(q)
    ensures var q := Asked(env, field, item, name);
      Denied(q) <==> exists k :: Concerned(q, k) && Answers(q, k) && ImageAdmission.Blocks(q.policy(k))
  {
    var q := Asked(env, field, item, name);
    forall k ensures ImageAdmission.Objects(q.policy(k), q.inner(k)) <==> ImageAdmission.Blocks(q.policy(k)) {
      ObjectingIsBlocking(q, k);
    }
  }

  /** A context cancelled at the policy receives but not seen by the pod's: the pod is admitted, whatever they say. */
  lemma CancelledBelowIsAdmitted(env: Environment, image: string)
    requires WellPosed(env) && env.parse(image).Digest?
    requires var q := Asked(env, "containers", Item(0, image), env.parse(image).name);
      && q.attached && !LookupFails(q) && !NoneConcerned(q)
      && forall n, r :: r in q.outer(n) ==> r.None?
    ensures var pod := PodSpec([], [image], [], []);
      var s := PodSchedules([], [Some(0)], [], []);
      AreSchedules(pod, s) && NeverCancelled(s) && PodClean(env, pod)
  {
    hide Concerned, LookupFails, NoneConcerned;
    var q := Asked(env, "containers", Item(0, image), env.parse(image).name);
    forall k ensures !Answers(q, k) {
      var outer := q.outer(|Started(q)|);
      forall i: nat ensures !Arrived(outer, i) {
        assert Some(i) in outer ==> Some(i).None?;
      }
    }
    assert !Denied(q);
    assert Clean(env, "containers", Item(0, image));
  }
}
