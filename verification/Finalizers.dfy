/**
 Finalizer updates under stale reads. The controller replaces the whole finalizer list by a merge patch (section 2 of
 RFC 7396) computed from a cached, possibly outdated copy, and names that copy's resourceVersion in the patch.
 */
module Finalizers {
  import opened Wrappers

  datatype Object = Object(version: nat, finalizers: seq<string>)

  datatype Patch = Patch(finalizers: seq<string>, version: nat)

  /** What happens to the stored object: others write it, or the controller acts on the version with index `seen`. */
  datatype Event = Foreign(finalizers: seq<string>) | Ours(seen: nat, wanted: bool)

  ghost function Names(finalizers: seq<string>): set<string> { set f | f in finalizers }

  ghost function Listed(names: set<string>): (l: seq<string>)
    ensures Names(l) == names
    ensures forall n :: n in l <==> n in names
  {
    if names == {} then [] else
    var n :| n in names;
    assert Names([n] + Listed(names - {n})) == {n} + Names(Listed(names - {n}));
    [n] + Listed(names - {n})
  }

  /** The patch that adds or removes `ours`, if the observed copy calls for one. */
  ghost function UpdateFinalizers(observed: Object, ours: string, wanted: bool): Option<Patch> {
    if wanted then
      if ours in observed.finalizers then None else Some(Patch(observed.finalizers + [ours], observed.version))
    else
      if ours !in observed.finalizers then None else
        Some(Patch(Listed(Names(observed.finalizers) - {ours}), observed.version))
  }

  predicate Accepts(stored: Object, p: Patch) { p.version == stored.version }

  function Newest(history: seq<Object>): Object
    requires history != []
  {
    history[|history| - 1]
  }

  /** One event; the history keeps every version the object ever had, oldest first. */
  ghost function Step(history: seq<Object>, ours: string, e: Event): seq<Object>
    requires history != []
  {
    match e
    case Foreign(finalizers) => history + [Object(Newest(history).version + 1, finalizers)]
    case Ours(seen, wanted) =>
      if seen >= |history| then history else
      match UpdateFinalizers(history[seen], ours, wanted)
      case None => history
      case Some(p) =>
        if Accepts(Newest(history), p) then history + [Object(Newest(history).version + 1, p.finalizers)] else history
  }

  ghost function Run(history: seq<Object>, ours: string, events: seq<Event>): (h: seq<Object>)
    requires history != []
    ensures h != []
    decreases |events|
  {
    if events == [] then history else Run(Step(history, ours, events[0]), ours, events[1..])
  }

  ghost predicate Increasing(history: seq<Object>) {
    forall i, j :: 0 <= i < j < |history| ==> history[i].version < history[j].version
  }

  /** The finalizers that belong to others. */
  ghost function OfOthers(o: Object, ours: string): set<string> { Names(o.finalizers) - {ours} }

  lemma PatchChangesOnlyOurs(observed: Object, ours: string, wanted: bool)
    requires UpdateFinalizers(observed, ours, wanted).Some?
    ensures var p := UpdateFinalizers(observed, ours, wanted).value;
      Names(p.finalizers) - {ours} == OfOthers(observed, ours) && (ours in p.finalizers <==> wanted)
  {
  }

  /** However old the copy, an accepted patch changes membership for our name alone; a refused one changes nothing. */
  lemma StaleReadIsSafe(history: seq<Object>, ours: string, seen: nat, wanted: bool)
    requires history != [] && Increasing(history)
    ensures var h := Step(history, ours, Ours(seen, wanted));
      && Increasing(h)
      && OfOthers(Newest(h), ours) == OfOthers(Newest(history), ours)
      && (h != history ==> seen == |history| - 1 && (ours in Newest(h).finalizers <==> wanted)
                           && (ours in Newest(history).finalizers <==> !wanted))
  {
    if seen < |history| && UpdateFinalizers(history[seen], ours, wanted).Some? {
      PatchChangesOnlyOurs(history[seen], ours, wanted);
    }
  }

  /** On the newest version it does what is wanted: afterwards our finalizer is there, or is not. */
  lemma FreshUpdateWorks(history: seq<Object>, ours: string, wanted: bool)
    requires history != []
    ensures var h := Step(history, ours, Ours(|history| - 1, wanted));
      && (ours in Newest(h).finalizers <==> wanted)
      && (h == history <==> (ours in Newest(history).finalizers <==> wanted))
      && (h != history ==> h == history + [Newest(h)] && Newest(h).version == Newest(history).version + 1)
  {
    if UpdateFinalizers(Newest(history), ours, wanted).Some? {
      PatchChangesOnlyOurs(Newest(history), ours, wanted);
    }
  }

  /** What others did last: their latest write, or the beginning. */
  ghost function LastForeign(others: set<string>, ours: string, events: seq<Event>): set<string>
    decreases |events|
  {
    if events == [] then others else
    LastForeign(if events[0].Foreign? then Names(events[0].finalizers) - {ours} else others, ours, events[1..])
  }

  /** Over every interleaving, the finalizers of others are exactly what others wrote last. */
  lemma {:induction false} OthersKeepTheirFinalizers(history: seq<Object>, ours: string, events: seq<Event>)
    requires history != [] && Increasing(history)
    ensures OfOthers(Newest(Run(history, ours, events)), ours) ==
      LastForeign(OfOthers(Newest(history), ours), ours, events)
    decreases |events|
  {
    if events != [] {
      if events[0].Ours? {
        StaleReadIsSafe(history, ours, events[0].seen, events[0].wanted);
      }
      OthersKeepTheirFinalizers(Step(history, ours, events[0]), ours, events[1..]);
    }
  }

  /** Without the version in the patch the same update would lose a finalizer that somebody else added meanwhile. */
  lemma UnguardedPatchLosesFinalizers(ours: string, theirs: string)
    requires ours != theirs
    ensures exists observed: Object, stored: Object ::
      && observed.version < stored.version
      && UpdateFinalizers(observed, ours, true).Some?
      && theirs in stored.finalizers
      && theirs !in UpdateFinalizers(observed, ours, true).value.finalizers
  {
    var observed, stored := Object(1, []), Object(2, [theirs]);
    var p := UpdateFinalizers(observed, ours, true).value;
    assert p.finalizers == [ours];
    assert theirs !in p.finalizers && theirs in stored.finalizers;
  }
}
