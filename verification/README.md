# policy-controller: a verified model

The policy-controller admits pods to a Kubernetes cluster only if their images satisfy the ClusterImagePolicies (CIPs)
stored there. This project models, in Dafny, the parts that decide this, and proves properties of them over all
inputs, all schedules and all reachable states:

- **The reconcile loop** (`Inlining`, `InliningHeap`, `Reconcile`, `QueuedOrSynced`, `OrphanFreedom`, `OrphanLimits`,
  `Finalizers`, `ConfigMapPatch`, `CompiledSpec`, `CompilationFaults`, `Statuses`). Every CIP is compiled into an entry
  of one shared ConfigMap. The controller is a state machine: a key taken from the queue becomes a job that advances
  one API call or lister read at a time, interleaved with the jobs of other keys, with edits of policies, secrets and
  ConfigMaps, and with restarts. Every call may be rejected, or take effect and still be reported as failed.
- **Convergence of the loop** (`EntryReads`, `Convergence`, `Cycles`, `EntryCycles`, `Steadiness`, `EverySchedule`,
  `Starvation`, `FairRuns`, `Departures`, `Castaways`). A CIP may take policy text from any ConfigMap, the one the CIPs
  are compiled into among them, so that entries can depend on entries. Exact conditions are given for settling under
  every schedule (`EverySchedule`) and under every fair one (`Departures`).
- **Glob compilation and matching** (`Glob`, `Matching`).
- **The admission decision** (`FieldErrors`, `ErrorFolding`, `Schedules`, `Admission`, `PolicyFanIn`, `ImageAdmission`,
  `ConfiguredAdmission`, `PodAdmission`, `Attestations`, `Verdicts`). A schedule says in which order results of
  goroutines are received and which receives find the context cancelled; every theorem holds for every schedule.
- **The GM verifier** (`GmCacheKey`, `GmVerify`, `GmRuns`, `GmAgreement`) with its memory of positive answers.
- **Versions** (`V1alpha1`, `Conversion`, `Validation`, `ValidatedSpecs`): conversion, defaulting and validation of the
  API types, and what validation gives to the other components.

`dafny verify dfyconfig.toml` checks everything.

## Assumptions about libraries

- Lister reads are current, except in `Finalizers`, where the copy may be of any age; a read of the compiled-policies
  ConfigMap and the patch computed from it are one step, except in `ConfigMapPatch`, which says what a stale copy costs.
- The work queue never hands a key to two workers and keeps a failed key; only one controller is leader; the tracker
  forgets nothing while the process lives; informers list every object after a restart.
- KMS keys and remote policy texts do not change; PEM parsing, hashing, HTTP and JSON rendering are functions.
- Others may write the ConfigMap of compiled policies and take the controller's finalizer off at any time before the
  environment turns quiet. `OrphanLimits.MeddlesIff` says exactly which of these actions let orphans come about;
  `OrphanFreedom.EntriesNeverOrphaned` is about runs without them.
- Convergence rests on a rendered entry not being empty, and that a cycle never settles on its being longer than any
  policy text in it. Fairness is assumed in `FairRuns` and `Departures` alone.
- The server stores no deleted object without a finalizer (`Departures.Anchored`).
- The qualified name of an image parses to itself.
- The GM module answers by what it is asked; `GmRuns` does without even this.
- Marking an already true condition true changes nothing, and the Ready condition follows from the other three.
- `Also`, `At` and `Filter` of a field error behave as the apis library documents; path prefixes are left open.
- A results channel is never closed before all results are sent.
- The LRU library may drop any key at any time, never returns an expired one, does not renew on a read and renews on an
  addition.

## What came out differently from the documentation

- `Match` (pkg/apis/glob/glob.go:65-99) documents that "*" does not match "ubuntu"; the code turns the glob "*" into
  index.docker.io/library/* and so it does (`Glob.StarMatchesOfficial`, `Glob.StarMatchesUbuntu`).
- `errorsToFieldErrors` gives no diagnostic for plain errors, so a policy that fails with plain errors only does not
  stand in the way of the image, and it does not see the level of a diagnostic with an empty text, so that one in warn
  mode refuses. `ImageAdmission.RefusedExactly` gives the verdict with both; `ImageAdmission.RefusedIffUnmet` is the
  case of policies that do neither.
- A cancelled context is an error where the pod's results are received and a plain error where those of the policies
  are, so a cancellation seen by the latter only admits the pod (`PodAdmission.CancelledBelowIsAdmitted`).
- A log line on the failure path of a remote attestation policy dereferences the top-level policy
  (pkg/reconciler/clusterimagepolicy/clusterimagepolicy.go:279), which may be nil. The process then panics, which is the
  action `Restart`, possible in every state; the model also lets the job fail there, so that its entry goes
  (`Reconcile.PanicIsRestart`).
- CIPs that take their policy text from compiled entries in a cycle, one from its own entry among them, never settle:
  some CIP of the cycle is always queued or in work (`EntryCycles.CycleNeverRests`). Without a cycle the loop settles
  under the further conditions of `EverySchedule.AlwaysConvergesIff` and `Departures.FairRunConvergesIff`.
- A failed compilation withdraws the entry, and a CIP that reads it then fails as well. If workers are not scheduled
  fairly, a CIP can be starved in this way for ever, after a run that ends with every CIP correct
  (`Starvation.WithdrawalCanStarve`).
- A job goes on after its CIP has gone, and may still publish an entry for it. Whether it does can depend on the
  schedule, and with it whether another CIP, which reads the entry, ever settles (`Castaways.AdriftIsUndecided`).
- A comment in pkg/webhook/gm/cache.go:32-36 says that a signature verifies only against the image it claims, so that
  the key need not hold the digest. A hit asks no module: one signature with two payloads is accepted for both once it
  has been confirmed for one (`GmAgreement.SecondPayloadIsAccepted`). Nor does the key hold the address and the tenant
  of the module (`GmAgreement.SecondAddressIsAccepted`). `GmAgreement.AlwaysAgreesIffCoherent` says exactly when memory
  makes no difference.
- The hashed bytes of a cache key do not say where the signature ends, so they determine signature and signer only among
  signatures of one length or for one signer (`GmCacheKey.PreimageDecodes`, `GmCacheKey.PreimageCollision`).
- Converting a spec can turn an invalid one into a valid one (`Validation.ConvertedValidity` says exactly which).
- Default authority names can clash with given ones (`Conversion.DefaultNamesDistinct`).

## Model

| member | source | states |
|---|---|---|
| `Inlining.InlineComplete` | pkg/reconciler/clusterimagepolicy/clusterimagepolicy.go:173-300 | After successful inlining no secret reference, KMS URL, ConfigMap reference or remote policy is left in any key, CA certificate, attestation or top-level policy |
| `Inlining.PlanComplete` | pkg/reconciler/clusterimagepolicy/clusterimagepolicy.go:173-300 | The loops visit every place of a spec that can hold a reference |
| `Inlining.SameWhereRead` | pkg/reconciler/clusterimagepolicy/clusterimagepolicy.go:233-356 | What is compiled depends on no secret or ConfigMap but those that were read (and tracked) |
| `Reconcile.PanicIsRestart` | pkg/reconciler/clusterimagepolicy/clusterimagepolicy.go:274-282 | Where the log line dereferences nil, the modelled job fails, reporting that policies are not inlined, while a restart, which is what the panic amounts to, leaves entry and status and queues the policy again |
| `InliningHeap.Compile` | pkg/reconciler/clusterimagepolicy/clusterimagepolicy.go:173-300 | Copying the object graph and then changing it through pointers yields the value of inlining in new objects only; no object that existed before changes, even if the input shares objects |
| `InliningHeap.DeepCopy` | pkg/reconciler/clusterimagepolicy/clusterimagepolicy.go:173-174 | The copy is equal in value, made of new objects, and shares none between two pointers |
| `InliningHeap.InlinePublicKeys` | pkg/reconciler/clusterimagepolicy/clusterimagepolicy.go:175-200 | The in-place loop over keys does what the key visits do to the value, and stops at the first failure with its error |
| `InliningHeap.InlinePolicies` | pkg/reconciler/clusterimagepolicy/clusterimagepolicy.go:266-300 | The in-place loops over attestations and the top-level policy do what the whole plan of visits does to the value |
| `InliningHeap.InlineAndTrackSecret` | pkg/reconciler/clusterimagepolicy/clusterimagepolicy.go:233-262 | A key object takes the only value of its secret and loses the reference, or stays as it is with the exact error |
| `InliningHeap.InlineAndTrackConfigMap` | pkg/reconciler/clusterimagepolicy/clusterimagepolicy.go:331-356 | A policy object takes the text under its key and loses the reference, or stays as it is with the exact error |
| `InliningHeap.InlinePolicyURL` | pkg/reconciler/clusterimagepolicy/clusterimagepolicy.go:302-324 | A policy object takes the fetched text only if its SHA-256 is the pinned one |
| `InliningHeap.InlineKmsKey` | pkg/reconciler/clusterimagepolicy/clusterimagepolicy.go:189-197 | A key object takes the public key of the KMS and loses the KMS URL |
| `CompiledSpec.CompiledIff` | pkg/reconciler/clusterimagepolicy/clusterimagepolicy.go:173-356 | A spec compiles if and only if every reference leads to a text: the only entry of a secret, being a public key; a non-empty text under the key of a ConfigMap; a remote text with the pinned digest; the public key of a KMS URL. The compiled spec then holds exactly these texts in these places, and everything else is as it was |
| `CompilationFaults.FailsIff` | pkg/reconciler/clusterimagepolicy/clusterimagepolicy.go:173-356 | It fails exactly with the fault of the first place, in the order of the loops, whose reference leads nowhere: which secret is missing, empty, ambiguous or no public key, and so on; the nil dereference of the log line is among them |
| `Reconcile.ApplyTouches` | pkg/client/injection/reconciler/policy/v1alpha1/clusterimagepolicy/reconciler.go:168-342 | A step concerning one policy leaves the objects, jobs and entries of all others alone, and if it changes the shared ConfigMap it queues every policy |
| `Reconcile.InlineNextOnlyReads` | pkg/reconciler/clusterimagepolicy/clusterimagepolicy.go:233-356 | A step of inlining writes nothing to the cluster but a tracker entry |
| `Statuses.CreationReportsNothing` | pkg/apis/policy/v1alpha1/clusterimagepolicy_lifecycle.go:55-58 | A new policy stands with the spec it was given and reports no condition, before the controller initialises them |
| `Statuses.FailedVisit` | pkg/reconciler/clusterimagepolicy/clusterimagepolicy.go:72-91 | A compilation that fails at a key, a CA certificate or a KMS reports keys not inlined for that error and nothing new about policies; one that fails at policy text reports keys inlined and policies not, for that error; the ConfigMap condition is carried on |
| `Statuses.FailureIsReported` | pkg/reconciler/clusterimagepolicy/clusterimagepolicy.go:158-168 | A failed compilation takes the entry away, unless the server refuses, and reports the failure either way |
| `Statuses.PublicationIsReported` | pkg/reconciler/clusterimagepolicy/clusterimagepolicy.go:92-135 | All conditions are true exactly if the entry was written and that is known; otherwise the ConfigMap update is reported failed, and the entry that was written is that of the compiled copy |
| `Statuses.FailureIsRetried` | pkg/client/injection/reconciler/policy/v1alpha1/clusterimagepolicy/reconciler.go:200-342 | A call that is not confirmed, and a failure that was reported, put the key back into the queue |
| `Statuses.ControllerWritesOnlyOurs` | pkg/client/injection/reconciler/policy/v1alpha1/clusterimagepolicy/reconciler.go:310-438 | The controller changes nothing of any stored policy but its status and the membership of its own finalizer, and every change has a new version |
| `Statuses.SuccessIsPublished` | pkg/reconciler/clusterimagepolicy/clusterimagepolicy.go:69-135 | Over every run, a status with all conditions true is newly stored only by a job that has published before, from the copy whose generation the status names |
| `QueuedOrSynced.StepKeepsInv` | pkg/reconciler/clusterimagepolicy/controller.go:67-117 | Every action of the controller and its environment keeps: each policy is queued, worked on from copies that are still current, or settled |
| `QueuedOrSynced.TrackGood` | pkg/reconciler/clusterimagepolicy/clusterimagepolicy.go:233-243 | Tracking before reading keeps the invariant |
| `QueuedOrSynced.WatchedChange` | pkg/reconciler/clusterimagepolicy/controller.go:67-117 | When a secret or ConfigMap changes, whoever read it is queued and what everybody else compiled is still what the new state gives |
| `QueuedOrSynced.ReportGood` | pkg/client/injection/reconciler/policy/v1alpha1/clusterimagepolicy/reconciler.go:310-342 | A status write, which outdates the entry by bumping the resourceVersion, queues the policy again or nothing needed writing |
| `QueuedOrSynced.QueuedOrSyncedAlways` | pkg/reconciler/clusterimagepolicy/clusterimagepolicy.go:69-135 | After any run, a live policy neither queued nor in work has the entry that renders the compilation of its current spec, secrets and ConfigMaps for its current uid and version, carries the finalizer, and reports success for its current generation |
| `OrphanFreedom.StepKeepsOne` | pkg/reconciler/clusterimagepolicy/clusterimagepolicy.go:138-156 | No step but a meddling one makes an orphan of an entry or of what a job is about to write |
| `OrphanFreedom.ReleasedAfterEntry` | pkg/reconciler/clusterimagepolicy/clusterimagepolicy.go:138-156 | The controller lets go of a policy, or of its finalizer, only in the release step, when the entry has already gone |
| `OrphanFreedom.StepKeepsNoOrphansIff` | pkg/client/injection/reconciler/policy/v1alpha1/clusterimagepolicy/reconciler.go:225-251 | For every action of anybody: orphan freedom outlives it if and only if it is no foreign write of an unprotected entry and no removal of our finalizer from a policy that has an entry or a job that may yet write one |
| `OrphanFreedom.NeverOrphanedIff` | pkg/client/injection/reconciler/policy/v1alpha1/clusterimagepolicy/reconciler.go:225-251 | Over every run with arbitrary failures, edits and restarts: orphan freedom holds throughout if and only if no step is such an action |
| `OrphanLimits.NoOrphansIff` | pkg/reconciler/clusterimagepolicy/clusterimagepolicy.go:138-156 | Orphan freedom is exact: it holds in just those reachable states from which, without such actions, no entry ever loses its policy or the finalizer of its policy |
| `OrphanLimits.MeddlesIff` | pkg/client/injection/reconciler/policy/v1alpha1/clusterimagepolicy/reconciler.go:225-251 | So an action is such an action if and only if afterwards, without any further one, an entry can be left without a policy that carries the finalizer |
| `OrphanFreedom.EntriesNeverOrphaned` | pkg/client/injection/reconciler/policy/v1alpha1/clusterimagepolicy/reconciler.go:225-251 | From a start without orphans, after every run without such actions, each entry's policy exists and carries our finalizer |
| `OrphanFreedom.StrippedFinalizerOrphans` | pkg/client/injection/reconciler/policy/v1alpha1/clusterimagepolicy/reconciler.go:225-251 | Somebody else taking the finalizer off a policy in deletion leaves an orphan entry |
| `EntryReads.SuccessSupplies` | pkg/reconciler/clusterimagepolicy/clusterimagepolicy.go:331-356 | What compiles found every compiled entry that it reads, at the top level or in an attestation |
| `EntryReads.TakenText` | pkg/reconciler/clusterimagepolicy/clusterimagepolicy.go:266-300 | The text of an entry that is read and not overwritten by a remote policy is part of what is compiled |
| `EntryReads.PrefixLike` | pkg/reconciler/clusterimagepolicy/clusterimagepolicy.go:173-300 | Under two states of the compiled entries that both hold what a spec reads, it compiles in both or neither, and every intermediate copy differs in policy texts at most |
| `EntryReads.SameCompilation` | pkg/reconciler/clusterimagepolicy/clusterimagepolicy.go:266-356 | What is compiled depends on the entries whose text is taken, and on no other entry |
| `Convergence.StepLowersMeasure` | pkg/client/injection/reconciler/policy/v1alpha1/clusterimagepolicy/reconciler.go:168-342 | While every live policy compiles, every step lowers a lexicographic measure with a component for each rank of policies that take text from each other: the status write that makes an entry stale, and the entry that makes other entries stale, included |
| `Convergence.RankedRunConverges` | pkg/reconciler/clusterimagepolicy/clusterimagepolicy.go:69-135 | So every infinite schedule of answered steps along which live policies compile, from stale copies in any number of workers, reaches an empty queue, no work and every policy settled |
| `Convergence.WorkIsEnabled` | pkg/client/injection/reconciler/policy/v1alpha1/clusterimagepolicy/reconciler.go:168-200 | While anything is queued or in work, some step can be taken |
| `Cycles.RankExists` | pkg/reconciler/clusterimagepolicy/clusterimagepolicy.go:331-356 | A dependency between finitely many policies without a cycle can be ranked |
| `EntryCycles.CycleNeverSynced` | pkg/reconciler/clusterimagepolicy/clusterimagepolicy.go:331-356 | Round a cycle of policies that take each other's entries, of any length and at any place of the specs, some live policy is out of sync in every state |
| `EntryCycles.CycleNeverRests` | pkg/reconciler/clusterimagepolicy/clusterimagepolicy.go:69-135 | So in every reachable state some policy of the cycle is queued or in work |
| `Steadiness.StepStaysQuiet` | pkg/reconciler/clusterimagepolicy/clusterimagepolicy.go:69-135 | If every live policy compiles and no entry that is read is about to go, every step of the controller keeps it so |
| `Steadiness.EveryQuietRunConverges` | pkg/reconciler/clusterimagepolicy/clusterimagepolicy.go:69-135 | From such a state and without a cycle every quiet run settles, however it is scheduled |
| `Steadiness.ConvergesIffAcyclic` | pkg/reconciler/clusterimagepolicy/clusterimagepolicy.go:69-135 | From such a state a quiet run, however it is scheduled, settles if and only if there is no cycle |
| `Steadiness.ConvergesAfterAnyRun` | pkg/reconciler/clusterimagepolicy/controller.go:67-117 | Without a cycle the loop settles after any run with failures, edits and restarts that ends in such a state |
| `EverySchedule.ServedStaysFailing` | pkg/reconciler/clusterimagepolicy/clusterimagepolicy.go:72-91 | A policy that does not compile always has work, and serving it, whatever copies its worker holds, does not make it compile |
| `EverySchedule.AlwaysConvergesIff` | pkg/reconciler/clusterimagepolicy/clusterimagepolicy.go:69-135 | From every state satisfying the invariant in which no remote policy overwrites a text read: every quiet run settles, whatever its schedule, if and only if there is no cycle and no way for the controller to go on leads to where a live policy does not compile |
| `Starvation.WithdrawalCanStarve` | pkg/reconciler/clusterimagepolicy/clusterimagepolicy.go:72-91 | That every live policy compiles and there is no cycle is not enough for this: there is a run from the start that ends so, and an unfair schedule of answered steps from there that never settles |
| `FairRuns.StepComesNearer` | pkg/client/injection/reconciler/policy/v1alpha1/clusterimagepolicy/reconciler.go:168-342 | No step of anybody leads a policy away from having its entry, once what it reads is there, and each time it is served it comes nearer |
| `FairRuns.RankComesUp` | pkg/reconciler/clusterimagepolicy/clusterimagepolicy.go:69-135 | Under a fair schedule entries appear rank by rank and stay |
| `Departures.StepUnmoved` | pkg/client/injection/reconciler/policy/v1alpha1/clusterimagepolicy/reconciler.go:168-342 | Whether the entry of a policy on its way out, or of a job without its object, is there in the end is decided by its state and changed by no step |
| `Departures.FairRunConvergesIff` | pkg/reconciler/clusterimagepolicy/clusterimagepolicy.go:69-135 | A fair quiet run settles, from every state satisfying the invariant in which no remote policy overwrites a text read from an entry, if and only if there is no cycle, every live policy compiles once the entries it reads are there, and those that no live policy provides are there in the end |
| `Departures.SettlesAfterAnyRun` | pkg/reconciler/clusterimagepolicy/controller.go:67-117 | The same after any run with failures, edits and restarts that ends in such a state, a fresh start without entries included |
| `Castaways.AdriftIsUndecided` | pkg/reconciler/clusterimagepolicy/clusterimagepolicy.go:69-135 | A run from the start and two ways for the controller to go on without failures: after one every fair run settles, after the other none does, since a job that has outlived its object compiles early or late |
| `Finalizers.StaleReadIsSafe` | pkg/client/injection/reconciler/policy/v1alpha1/clusterimagepolicy/reconciler.go:347-397 | However old the copy, a patch the server accepts changes finalizer membership for our name alone |
| `Finalizers.FreshUpdateWorks` | pkg/client/injection/reconciler/policy/v1alpha1/clusterimagepolicy/reconciler.go:347-397 | On the newest copy the patch does what is wanted: afterwards our finalizer is there, or is gone, and nothing is sent if it was so before |
| `Finalizers.OthersKeepTheirFinalizers` | pkg/client/injection/reconciler/policy/v1alpha1/clusterimagepolicy/reconciler.go:347-438 | Over every interleaving with other controllers, the finalizers of others are what others wrote last |
| `Finalizers.UnguardedPatchLosesFinalizers` | pkg/client/injection/reconciler/policy/v1alpha1/clusterimagepolicy/reconciler.go:373-378 | Without the resourceVersion in the patch a finalizer of another controller can be lost |
| `ConfigMapPatch.PatchSetsEntry` | pkg/reconciler/clusterimagepolicy/resources/configmap.go:51-69 | The patch sets one entry and keeps the others, and there is none exactly if nothing differs |
| `ConfigMapPatch.PatchRemovesEntry` | pkg/reconciler/clusterimagepolicy/resources/configmap.go:73-86 | The patch removes one entry and keeps the others, and there is none exactly if there was no entry |
| `ConfigMapPatch.StaleSetKeepsOthersIff` | pkg/reconciler/clusterimagepolicy/resources/configmap.go:51-69 | A patch from an outdated copy keeps the entries of others exactly if the copy had entries or there are none to lose |
| `ConfigMapPatch.StaleRemoveKeepsOthersIff` | pkg/reconciler/clusterimagepolicy/resources/configmap.go:73-86 | The same for removal |
| `Glob.RewriteSpellsTokens` | pkg/apis/glob/glob.go:52-59 | The four ordered rewrites and the placeholder do not interfere: together they spell out the glob's tokens one by one |
| `Glob.TextParses` | pkg/apis/glob/glob.go:60-62 | The rewritten text is a well-formed anchored expression of one item per token |
| `Glob.ItemsMatchMeaning` | pkg/apis/glob/glob.go:52-62 | The expression matches exactly the strings the tokens stand for |
| `Glob.CompilePreservesMeaning` | pkg/apis/glob/glob.go:37-63 | Compilation fails exactly for characters outside the alphabet, and otherwise preserves the direct meaning of the glob, odd runs of stars included |
| `Glob.SlashesAgree` | pkg/apis/glob/glob.go:55-58 | A glob without ** only matches strings with as many slashes as it has |
| `Glob.MatchMeans` | pkg/apis/glob/glob.go:79-99 | Match fails exactly for a bad glob or image, and otherwise asks the meaning of the qualified name or of the image as written |
| `Glob.StarMatchesOfficial` | pkg/apis/glob/glob.go:42-45 | The glob "*" matches exactly the images of the Docker Hub library, by qualified name or as written |
| `Glob.StarMatchesUbuntu` | pkg/apis/glob/glob.go:65-79 | So it matches "ubuntu" |
| `Glob.TwoStarsMatchUsers` | pkg/apis/glob/glob.go:38-41 | The glob "*/*" matches exactly index.docker.io/user/image names: that prefix and one more slash, in the qualified name or in the image as written |
| `Glob.PlainGlobMeans` | pkg/apis/glob/glob.go:33-63 | Every other glob is taken as it stands: it compiles exactly if it is not empty and all its characters are of the alphabet, and then stands for its own tokens |
| `Matching.MatchesResource` | pkg/apis/config/image_policies.go:105-138 | The match list concerns a resource if it is empty or has a satisfied entry; the error is exactly a malformed selector before any satisfied entry |
| `Matching.MatchesImage` | pkg/apis/config/image_policies.go:140-148 | The loop finds whether some glob covers the image and whether some glob fails |
| `Matching.GetMatchingPolicies` | pkg/apis/config/image_policies.go:86-151 | For every iteration order: an error exactly for a missing configuration, an unparsable apiVersion or a policy that fails, and otherwise exactly the policies that apply |
| `Matching.AppliesMeans` | pkg/apis/config/image_policies.go:105-148 | A policy applies exactly if it has no match entries or one with the group and resource, with the version or "*", and with a selector that selects the labels, if any; and some glob of it matches |
| `Matching.FailsMeans` | pkg/apis/config/image_policies.go:105-148 | It fails exactly if a malformed selector for the resource comes before any entry that is satisfied, or it is for the resource and a glob of it cannot be matched |
| `FieldErrors.AlsoHolds` | pkg/webhook/validator.go:1306-1315 | Collecting keeps the levels of both sides |
| `FieldErrors.AtHolds` | pkg/webhook/validator.go:510-516 | Relabelling moves every diagnostic to the new level |
| `FieldErrors.FilterHolds` | pkg/webhook/validator.go:1291-1300 | Filtering leaves something exactly if a diagnostic of the level is held |
| `ErrorFolding.Classify` | pkg/webhook/validator.go:1287-1305 | The inner loop finds exactly whether the errors of a policy contain warnings and errors |
| `ErrorFolding.ErrorsToFieldErrors` | pkg/webhook/validator.go:1280-1318 | For every iteration order, and although flags outlive their policy and warnings relabel what came before, the result holds an error (a warning) exactly if some policy reported one, and every such policy is named |
| `Schedules.EverythingArrives` | pkg/webhook/validator.go:595-630 | As many receives as goroutines and no cancellation: every result is received |
| `Admission.ValidatePolicy` | pkg/webhook/validator.go:526-689 | For every schedule, a policy passes exactly if an authority that arrived passes and the policy-level check passes on what was collected: a check that refuses fails the policy and only a check that passes leaves the result; its diagnostics are at the policy's level |
| `Admission.Collect` | pkg/webhook/validator.go:586-630 | The receive loop gathers the matches of what arrived, and a diagnostic for exactly the authorities that arrived with an error |
| `Admission.CollectedKeys` | pkg/webhook/validator.go:595-630 | The matches carry the names of exactly the passing authorities that arrived |
| `PolicyFanIn.CollectPolicies` | pkg/webhook/validator.go:477-507 | For every schedule with any number of cancellations, satisfied policies, named failures and internal errors together are as many as the policies, nothing is on both sides, and without cancellation the two maps split the policies |
| `PolicyFanIn.LevelsCollected` | pkg/webhook/validator.go:477-507 | The levels in the map of failures are those of the policies that arrived and failed, also if a policy bears the name used for cancellations |
| `ImageAdmission.ValidatePolicies` | pkg/webhook/validator.go:440-508 | Which policies are satisfied, and which levels are reported, is decided by what was received |
| `ImageAdmission.ValidateContainerImage` | pkg/webhook/validator.go:1247-1278 | For every schedule and iteration order, an exact condition for an error and for a warning, all early exits included |
| `ImageAdmission.SetNoMatchingPoliciesError` | pkg/webhook/validator.go:405-429 | Without matching policies, everything but "allow" and "warn" refuses |
| `ImageAdmission.CollectedIsMatches` | pkg/webhook/validator.go:595-630 | Without cancellation and with distinct authority names, what is collected does not depend on the order of arrival |
| `ImageAdmission.MuteIff` | pkg/webhook/validator.go:595-689 | A policy that is not met has no levelled diagnostic exactly if no authority errs and, where one passes, the matches cannot be written as JSON |
| `ImageAdmission.RefusedExactly` | pkg/webhook/validator.go:1247-1318 | End to end, without cancellation: an image is refused exactly if a matching policy is unmet, is not mute, and is not in warn mode or gives an empty text; and warned exactly if one in warn mode is unmet and gives a text |
| `ImageAdmission.RefusedIffUnmet` | pkg/webhook/validator.go:1247-1318 | For regular policies: refused exactly if one not in warn mode has no passing authority or fails its policy-level check, and warned exactly if one in warn mode does |
| `ImageAdmission.SilentIff` | pkg/webhook/validator.go:595-689 | The exact condition under which a failing policy leaves no diagnostic |
| `ImageAdmission.CancelledImageIsAdmitted` | pkg/webhook/validator.go:482-486 | Cancellation before any policy reports leaves no diagnostic |
| `ImageAdmission.PolicyWithoutAuthorities` | pkg/webhook/validator.go:632-639 | A policy without authorities is never met and leaves no diagnostic |
| `Verdicts.DiscontentRefuses` | pkg/webhook/validator.go:595-689 | Without cancellation, a policy not in warn mode refuses the image, whatever the others say, if no authority succeeds with something to show and one fails, or the policy-level check refuses those that succeed |
| `Verdicts.DiscontentWarns` | pkg/webhook/validator.go:510-516 | In warn mode it draws a warning |
| `Verdicts.WarnModeOnlyWarns` | pkg/webhook/validator.go:510-516 | Policies in warn mode alone never refuse, unless a text is empty |
| `Verdicts.ContentAdmits` | pkg/webhook/validator.go:595-689 | An image with which all matching policies are content passes without a warning: some authority succeeds and the policy-level check passes on those that do |
| `Verdicts.NoPolicyMatches` | pkg/webhook/validator.go:405-429 | An image that no policy matches is refused but for the settings "allow" and "warn", and "warn" warns |
| `ConfiguredAdmission.Find` | pkg/webhook/validator.go:1247-1262 | The lookup fails exactly for a missing configuration, a bad API version or a configured policy that cannot be matched, and otherwise starts exactly the policies that apply, each once |
| `ConfiguredAdmission.ValidateConfigured` | pkg/webhook/validator.go:1247-1278 | From the whole configuration to the verdict, for every iteration order and schedule with any cancellations: refused exactly if the reference does not parse, the lookup fails, a configured policy applies, answers in time and objects, or none applies and that is not tolerated |
| `ConfiguredAdmission.HeardVerdict` | pkg/webhook/validator.go:477-507 | Without cancellation orders and schedules do not matter: a configured policy that applies refuses exactly if it blocks |
| `PodAdmission.RefOrFieldError` | pkg/webhook/validator.go:1323-1335 | An error exactly unless the image is in digest form |
| `PodAdmission.CheckItem` | pkg/webhook/validator.go:271-295 | The check of one image holds an error exactly unless it is in digest form and the configured policies, under the schedules of their own receives, do not refuse it |
| `PodAdmission.Gather` | pkg/webhook/validator.go:296-307 | Every cancelled receive is an error, and everything received is kept |
| `PodAdmission.CheckGroup` | pkg/webhook/validator.go:271-309 | A group adds no error exactly if every receive took a result and every image is in digest form and not refused by its policies |
| `PodAdmission.MountedAll` | pkg/webhook/validator.go:355-361 | The volumes checked are exactly those with a non-empty image reference, under their own indices |
| `PodAdmission.ValidatePodSpec` | pkg/webhook/validator.go:260-400 | For every schedule of the pod, of the policies and of the authorities, with any cancellations: a pod gets no error exactly if credentials were built, every receive of all four groups took a result, and every image is in digest form and not refused by the configured policies that answered |
| `PodAdmission.ValidateConfiguredPod` | pkg/webhook/validator.go:260-400 | From the configuration to the pod, without cancellation below it: no error exactly if credentials were built, every receive took a result, and every image is in digest form, can be looked up, is blocked by no configured policy that applies, and is tolerated if none does |
| `PodAdmission.RefusedByReceived` | pkg/webhook/validator.go:477-507 | An image is refused exactly if a configured policy that applies and whose result was received blocks it: what a cancelled receive missed does not count |
| `PodAdmission.ConcernsPod` | pkg/apis/config/image_policies.go:86-148 | A configured policy applies to an image of the pod exactly if a match entry is for the group, version and resource of the pod's own request, and a glob matches the qualified name |
| `Verdicts.PodImageRefused` | pkg/webhook/validator.go:260-400 | An image of a pod is refused if a configured policy that applies to it, not in warn mode, is discontent with its qualified name |
| `Verdicts.PodImageAdmitted` | pkg/webhook/validator.go:260-400 | It is accepted without a warning if the lookup works, some policy applies and all that do are content with it |
| `Verdicts.PodImageUnmatched` | pkg/webhook/validator.go:1247-1278 | Without a configuration an image in digest form is accepted; without stored policies or an API version it is refused; and if no policy applies, the setting "allow" or "warn" accepts it and nothing else does |
| `PodAdmission.CancelledBelowIsAdmitted` | pkg/webhook/validator.go:482-486 | A cancellation that the receives of the policies see and those of the pod do not admits the pod, whatever its policies say |
| `Attestations.CheckOne` | pkg/webhook/validator.go:961-1011 | The inner loop keeps the accepted attestations in order and the first error |
| `Attestations.ProblemIs` | pkg/webhook/validator.go:969-1000 | The error stashed is that of getting the payload, else that of the evaluation, else its warning |
| `Attestations.CheckAttestations` | pkg/webhook/validator.go:935-1028 | The check succeeds exactly if every wanted attestation has a verified one with a digest and a payload whose evaluation gives neither an error nor a warning; otherwise the error is the first one met for the first unsatisfied request, or that nothing matched; the last request under a name decides what is returned for it |
| `GmCacheKey.WriteLen` | pkg/webhook/gm/cache.go:118-126 | Writes the length in four bytes, the most significant first, and then the bytes |
| `GmCacheKey.CacheKey` | pkg/webhook/gm/cache.go:108-116 | The key is the digest of the signature and of application, node and user, each after its length |
| `GmCacheKey.PrefixHoldsLength` | pkg/webhook/gm/cache.go:118-124 | Four bytes hold every length below 2^32 |
| `GmCacheKey.PreimageDecodes` | pkg/webhook/gm/cache.go:108-126 | For signatures of one length or for one signer, equal hashed bytes mean equal signature and signer |
| `GmCacheKey.PreimageCollision` | pkg/webhook/gm/cache.go:108-116 | Every signature has a longer one with the same hashed bytes, for another signer |
| `GmVerify.GateMeans` | pkg/webhook/gm/verify.go:97-142 | A signature passes the gates exactly if algorithm, application, node and, where named, user are those of the policy, the signature annotation, or only without one the base64 text, decodes to the bytes, the payload can be read, and for an image given by digest it claims that digest |
| `GmVerify.GateFails` | pkg/webhook/gm/verify.go:97-142 | Otherwise the error names the first gate not passed |
| `GmVerify.ValidateMeans` | pkg/webhook/gm/cip.go:13-30 | A section of a policy is refused for the first of address, tenant, application and node that is missing, and for nothing else |
| `GmVerify.UseAsks` | pkg/webhook/gm/verify.go:151-162 | The module is asked about the bytes of the signature that counts, over the payload that is stored |
| `GmVerify.Cache.constructor` | pkg/webhook/gm/cache.go:55-62 | A new memory is empty, and holds nothing ever if capacity or time to live is not positive |
| `GmVerify.Cache.Lookup` | pkg/webhook/gm/cache.go:68-84 | A hit exactly for a key held and not older than the time to live; exactly one counter goes up; nothing is renewed |
| `GmVerify.Cache.Store` | pkg/webhook/gm/cache.go:89-94 | The key is held from now on, one other goes if there is no room, and nothing else changes; a disabled memory stays as it is |
| `GmVerify.TrySignatures` | pkg/webhook/gm/verify.go:94-180 | Signature by signature, accepted is exactly what the memory holds in time or the module confirms, and the memory changes by exactly what was confirmed; the accepted signatures are in order and each justified |
| `GmVerify.Verify` | pkg/webhook/gm/verify.go:41-189 | All early errors in order; every returned signature passed the gates and was answered positively now or within the time to live; what is accepted and what becomes of the memory is exact; with a truthful module and keys that tell questions apart the result is the same with and without memory; the last error is that of the last signature, by its gate or its answer |
| `GmVerify.KeysTellApart` | pkg/webhook/gm/cache.go:27-36 | If the digest does not collide on the two pre-images, equal keys mean equal signature and signer, for signatures of one length or one signer |
| `GmVerify.AgreesIff` | pkg/webhook/gm/verify.go:144-180 | Accepted signatures that are in order and include all deserving ones are those of a call without memory exactly if each of them deserves it |
| `GmVerify.CoherentIfToldApart` | pkg/webhook/gm/cache.go:27-36 | Questions with one key have one answer if signatures have one length or one signer, the digest does not collide on them, and one signature comes with one payload, address and tenant |
| `GmRuns.StepStaysSane` | pkg/webhook/gm/verify.go:97-180 | Every step leaves each call at a signature it has, past the gates if it is asking or storing, so that the definition of a run excludes none |
| `GmRuns.StepKeepsBounded` | pkg/webhook/gm/verify.go:144-180 | Every lookup, answer, store, removal and tick keeps each key held and each acceptance backed by a positive answer |
| `GmRuns.TrustIsBounded` | pkg/webhook/gm/verify.go:94-188 | Over every interleaving of calls, each accepted signature passed the gates and its key was answered positively at most one time to live before (plus the delay from answer to storing); only positively answered keys are ever held |
| `GmAgreement.CachedIsUncached` | pkg/webhook/gm/cache.go:16-36 | Over every interleaving of calls with a truthful module, every call accepts what a call without memory accepts, in order, if there is no memory or the questions of the run with one key have one answer |
| `GmAgreement.AlwaysAgreesIffCoherent` | pkg/webhook/gm/cache.go:16-36 | Exact: in all runs all calls agree with calls without memory if and only if there is no memory or the questions that may come up have one answer for one key |
| `GmAgreement.CachedIsUncachedIfToldApart` | pkg/webhook/gm/cache.go:27-36 | In particular if keys tell the questions of the run apart and each signature comes with one payload |
| `GmAgreement.SecondPayloadIsAccepted` | pkg/webhook/gm/verify.go:144-160 | A run of two calls with one signature and two payloads: confirmed for the first, it is accepted for the second from memory, though the module would refuse it |
| `GmAgreement.SecondAddressIsAccepted` | pkg/webhook/gm/verify.go:144-160 | The same for one signature under two policies that name modules at two addresses or for two tenants |
| `Conversion.ConvertAuthority` | pkg/apis/policy/v1alpha1/clusterimagepolicy_conversion.go:90-161 | Everything of an authority is kept but a log without URL and a timestamp without trust root |
| `Conversion.NormaliseKeeps` | pkg/apis/policy/v1alpha1/clusterimagepolicy_conversion.go:90-161 | Of the two parts that can be dropped each goes for its own reason only, and everything else of an authority stays |
| `Conversion.SinkKeeps` | pkg/apis/policy/v1alpha1/clusterimagepolicy_conversion.go:53-88 | Lists are added to those of the sink, the mode replaces that of the sink, and so does the policy if there is one |
| `Conversion.SpecObject.ConvertTo` | pkg/apis/policy/v1alpha1/clusterimagepolicy_conversion.go:53-88 | The sink, empty or not, gets the normalised spec added to it |
| `Conversion.SpecObject.ConvertFrom` | pkg/apis/policy/v1alpha1/clusterimagepolicy_conversion.go:230-256 | The same in the other direction |
| `Conversion.SpecObject.SetDefaults` | pkg/apis/policy/v1alpha1/clusterimagepolicy_defaults.go:29-41 | The in-place loop sets mode, missing names and the URL of a keyless authority without URL and CA certificate, and nothing else |
| `Conversion.DefaultsAre` | pkg/apis/policy/v1alpha1/clusterimagepolicy_defaults.go:29-41 | A missing mode becomes "enforce", a missing name "authority-" with the decimal position, a keyless authority without URL and CA certificate gets the address of the public Fulcio, and nothing else changes |
| `Conversion.RoundTrip` | pkg/apis/policy/v1alpha1/clusterimagepolicy_conversion.go:53-344 | There and back is one idempotent normalisation, which changes exactly the specs with something to drop |
| `Conversion.ThereAndBack` | pkg/apis/policy/v1alpha1/clusterimagepolicy_conversion.go:30-51 | Two conversions through fresh objects yield the normalised spec |
| `Conversion.DefaultsCommute` | pkg/apis/policy/v1beta1/clusterimagepolicy_defaults.go:29-41 | Defaulting commutes with conversion and is idempotent |
| `Conversion.DefaultNamesDistinct` | pkg/apis/policy/v1alpha1/clusterimagepolicy_defaults.go:33-36 | Exactly when authority names are distinct after defaulting |
| `Validation.ValidateKeyless` | pkg/apis/policy/v1alpha1/clusterimagepolicy_validation.go:214-236 | An error exactly if URL and CA certificate are not exclusive, or an identity or the certificate is not valid |
| `Validation.ValidateKey` | pkg/apis/policy/v1alpha1/clusterimagepolicy_validation.go:180-212 | An error exactly if the key is not given in exactly one way, is malformed, or its secret is in another namespace |
| `Validation.ValidateIdentity` | pkg/apis/policy/v1alpha1/clusterimagepolicy_validation.go:346-368 | An error exactly if issuer or subject is not given in exactly one way, or a regular expression is malformed |
| `Validation.ValidatePolicy` | pkg/apis/policy/v1alpha1/clusterimagepolicy_validation.go:305-344 | An error exactly if the language is unknown, the text is not given in exactly one way, a reference is incomplete, or a flag of the top level is set below it |
| `Validation.ValidateMatch` | pkg/apis/policy/v1alpha1/clusterimagepolicy_validation.go:167-178 | An error exactly for an unknown resource, or a selector without any of resource, version and group |
| `Validation.ValidateKind` | pkg/apis/policy/v1alpha1/clusterimagepolicy_validation.go:78-165 | An error exactly if the verifier section is invalid, a static or GM authority carries what it has no use for, or there are several sources |
| `Validation.ValidateAuthority` | pkg/apis/policy/v1alpha1/clusterimagepolicy_validation.go:78-154 | An error exactly if the authority is not valid; nothing but the count of verifiers is reported unless there is exactly one |
| `Validation.ValidateImages` | pkg/apis/policy/v1alpha1/clusterimagepolicy_validation.go:43-76 | An error exactly if there is no image pattern, or one is not a glob that the admission side can compile |
| `Validation.ValidateSpec` | pkg/apis/policy/v1beta1/clusterimagepolicy_validation.go:43-77 | The spec is refused exactly if it is not valid, and warned about exactly for deprecated predicate types |
| `Validation.ConvertedValidity` | pkg/apis/policy/v1beta1/clusterimagepolicy_validation.go:92-173 | A spec is valid exactly if its conversion is and no static or GM authority carries something that conversion drops |
| `Validation.ConversionCanRepair` | pkg/apis/policy/v1alpha1/clusterimagepolicy_conversion.go:93-102 | An invalid spec whose conversion is valid |
| `Validation.DefaultsStayValid` | pkg/apis/policy/v1alpha1/clusterimagepolicy_defaults.go:29-41 | Defaulting never spoils a valid spec |
| `ValidatedSpecs.MatchingNeverFails` | pkg/apis/policy/v1alpha1/clusterimagepolicy_validation.go:369-378 | A validated spec never makes the lookup of matching policies fail for an image that parses, its selectors being well-formed |
| `ValidatedSpecs.ReadsAreTakes` | pkg/apis/policy/v1alpha1/clusterimagepolicy_validation.go:305-344 | In a validated spec no remote policy overwrites what a ConfigMap gave, so every compiled entry that is read is taken |
| `ValidatedSpecs.ValidatedSettlesIff` | pkg/reconciler/clusterimagepolicy/controller.go:67-117 | For policies that passed validation: after any run, a fair quiet run settles if and only if the dependency between entries is well-founded |
| `ValidatedSpecs.ValidatedIsRegularIff` | pkg/apis/policy/v1alpha1/clusterimagepolicy_validation.go:78-154 | A validated and defaulted spec is checked as a regular policy exactly if authority names do not clash, every verifier passes or errs with a text, and the policy-level check decides: validation gives the rest |

## Left out

- The reconcile loop is a state machine on values rather than a class with methods: its steps interleave with those of others, which one method body cannot show; updating in place is shown for inlining alone.
- InliningHeap.InlineAndTrackSecret: the tracker call before the read and its failure are steps of `Reconcile` alone, since the object graph does not show them.
- InliningHeap.InlineAndTrackConfigMap: the tracker call before the read and its failure are steps of `Reconcile` alone.
- Steadiness.ConvergesIffAcyclic: that every live policy compiles and no entry that is read is about to go is sufficient only; the exact condition, which speaks of all ways to go on, is in `EverySchedule.AlwaysConvergesIff`.
- EverySchedule.AlwaysConvergesIff: states with a live policy whose remote policy overwrites a text read from an entry, which validation refuses, are excluded.
- Departures.FairRunConvergesIff: the same states are excluded, and a job that still compiles an object which has gone, and whose entry a live policy reads, since such a state does not decide the outcome (`Castaways.AdriftIsUndecided`).
- Departures.SettlesAfterAnyRun: as `Departures.FairRunConvergesIff`.
- Reconcile.PanicIsRestart: in a quiet run a left-over job that would panic is taken to fail, and the other jobs go on.
- Validation.ValidateSpec: one set of rules stands for both versions, since their validators agree line by line; which strings are well-formed keys, addresses, file patterns and regular expressions is left open, and paths of diagnostics lack their prefixes.
- Conversion.SpecObject.ConvertTo: object metadata and status, which are copied whole, are not modelled.
- ConfigMapPatch: names of entries are not escaped as JSON pointers, and labels and annotations of the ConfigMap do not occur.
- Admission.ValidatePolicy: the result cache is the one that is in place when none is set (pkg/webhook/cache.go:35-41), which holds nothing; a policy is always checked.
- ImageAdmission.ValidateContainerImage: as for `Admission.ValidatePolicy`, no result is cached. What the lookup yields is a parameter here and is joined to it in `ConfiguredAdmission.ValidateConfigured` and `PodAdmission.ValidatePodSpec`.
- Matching.GetMatchingPolicies: guessing the resource of a kind is a parameter.
- Attestations.CheckAttestations: how attestations are verified, and rendering the accepted ones for the policy-level check, are left out.
- GmVerify.Cache.Store: which key goes when the capacity is exceeded is left open.
- The conversion of a compiled policy to the form the webhook reads, and its JSON text, are one function of uid, resourceVersion and inlined spec.
- TrustRoot reconciling has the same shape as the loop modelled here.
- Mutating admission (resolving tags to digests), cosign, Fulcio, Rekor and TUF are foreign or mostly option setting.
- Wording of errors, log lines, events and metrics are left out.
