/** Which compiled policies apply to an image of a resource: the policies' match entries and image globs. */
module Matching {
  import opened Wrappers
  import opened V1alpha1
  import opened Glob

  /** The part of a compiled policy that decides whether it applies. */
  datatype Compiled = Compiled(images: seq<ImagePattern>, matches: seq<MatchResource>)

  /**
   What is being admitted. `refName` is the qualified name of the image if it parses, and `selects` evaluates a label
   selector on the labels of the resource, with no result for a malformed selector.
   */
  datatype Request = Request(
    image: string,
    refName: Option<string>,
    group: string,
    version: string,
    resource: string,
    selects: string -> Option<bool>)

  datatype Failure = NoConfiguration | BadApiVersion(why: string) | BadSelector | BadGlob(error: GlobError)

  // ---------- the declarative meaning ----------

  predicate SameKind(m: MatchResource, req: Request) {
    m.resource == req.resource && (m.version == req.version || m.version == "*") && m.group == req.group
  }

  predicate Satisfied(m: MatchResource, req: Request) {
    SameKind(m, req) && (m.selector.Some? ==> req.selects(m.selector.value) == Some(true))
  }

  predicate Malformed(m: MatchResource, req: Request) {
    SameKind(m, req) && m.selector.Some? && req.selects(m.selector.value) == None
  }

  /** A malformed selector is met before any entry is satisfied. */
  predicate SelectorFails(matches: seq<MatchResource>, req: Request) {
    exists i | 0 <= i < |matches| :: Malformed(matches[i], req) && forall j | 0 <= j < i :: !Satisfied(matches[j], req)
  }

  predicate Concerns(matches: seq<MatchResource>, req: Request) {
    matches == [] || exists i | 0 <= i < |matches| :: Satisfied(matches[i], req)
  }

  predicate GlobFails(p: ImagePattern, req: Request) {
    p.glob != "" && (!ValidGlob(Normalize(p.glob)) || req.refName.None?)
  }

  /** The pattern means a set of names, and the qualified name or the image as written is one of them. */
  predicate Covers(p: ImagePattern, req: Request) {
    && p.glob != "" && ValidGlob(Normalize(p.glob)) && req.refName.Some?
    && var tokens := Tokens(Normalize(p.glob)); Means(tokens, req.refName.value) || Means(tokens, req.image)
  }

  predicate SomeCovers(images: seq<ImagePattern>, req: Request) {
    exists i | 0 <= i < |images| :: Covers(images[i], req)
  }

  predicate SomeGlobFails(images: seq<ImagePattern>, req: Request) {
    exists i | 0 <= i < |images| :: GlobFails(images[i], req)
  }

  predicate Applies(c: Compiled, req: Request) {
    Concerns(c.matches, req) && SomeCovers(c.images, req)
  }

  predicate Fails(c: Compiled, req: Request) {
    SelectorFails(c.matches, req) || (Concerns(c.matches, req) && SomeGlobFails(c.images, req))
  }

  // ---------- the loops ----------

  method MatchesResource(matches: seq<MatchResource>, req: Request) returns (found: Result<bool, Failure>)
    ensures found.Err? <==> SelectorFails(matches, req)
    ensures found.Ok? ==> (found.value <==> Concerns(matches, req))
  {
    if |matches| == 0 {
      return Ok(true);
    }
    for i := 0 to |matches|
      invariant forall j | 0 <= j < i :: !Satisfied(matches[j], req) && !Malformed(matches[j], req)
    {
      var m := matches[i];
      if m.resource != req.resource {
        continue;
      }
      if m.version != req.version && m.version != "*" {
        continue;
      }
      if m.group != req.group {
        continue;
      }
      if m.selector.Some? {
        var selected := req.selects(m.selector.value);
        if selected.None? {
          assert Malformed(matches[i], req);
          return Err(BadSelector);
        }
        if !selected.value {
          continue;
        }
      }
      assert Satisfied(matches[i], req);
      return Ok(true);
    }
    found := Ok(false);
  }

  method MatchesPattern(p: ImagePattern, req: Request) returns (m: Result<bool, Failure>)
    requires p.glob != ""
    ensures m.Err? <==> GlobFails(p, req)
    ensures m == Ok(true) <==> Covers(p, req)
  {
    MatchMeans(p.glob, req.image, req.refName);
    var r := Match(p.glob, req.image, req.refName);
    m := if r.Ok? then Ok(r.value) else Err(BadGlob(r.error));
  }

  method TryPattern(p: ImagePattern, req: Request) returns (covers: bool, error: Option<Failure>)
    ensures covers <==> Covers(p, req)
    ensures error.Some? <==> GlobFails(p, req)
  {
    covers, error := false, None;
    if p.glob != "" {
      var m := MatchesPattern(p, req);
      if m.Err? {
        error := Some(m.error);
      } else {
        covers := m.value;
      }
    }
  }

  lemma OneMorePattern(images: seq<ImagePattern>, p: ImagePattern, req: Request)
    ensures SomeCovers(images + [p], req) <==> SomeCovers(images, req) || Covers(p, req)
    ensures SomeGlobFails(images + [p], req) <==> SomeGlobFails(images, req) || GlobFails(p, req)
  {
    var more := images + [p];
    assert forall i | 0 <= i < |images| :: more[i] == images[i];
    assert more[|images|] == p;
  }

  method MatchesImage(images: seq<ImagePattern>, req: Request) returns (matched: bool, lastError: Option<Failure>)
    ensures matched <==> SomeCovers(images, req)
    ensures lastError.Some? <==> SomeGlobFails(images, req)
  {
    hide Covers, GlobFails;
    matched, lastError := false, None;
    for i := 0 to |images|
      invariant matched <==> SomeCovers(images[..i], req)
      invariant lastError.Some? <==> SomeGlobFails(images[..i], req)
    {
      assert images[..i + 1] == images[..i] + [images[i]];
      OneMorePattern(images[..i], images[i], req);
      var covers, error := TryPattern(images[i], req);
      matched := matched || covers;
      if error.Some? {
        lastError := error;
      }
    }
    assert images[..|images|] == images;
  }

  ghost predicate IsOrderOf(order: seq<string>, policies: map<string, Compiled>) {
    && (forall k :: k in order <==> k in policies)
    && (forall i, j :: 0 <= i < j < |order| ==> order[i] != order[j])
  }

  /** The iteration order of the map decides neither the result nor whether there is one. */
  method GetMatchingPolicies(config: Option<map<string, Compiled>>, order: seq<string>,
                             apiVersionError: Option<string>, req: Request)
    returns (r: Result<map<string, Compiled>, Failure>)
    requires config.Some? ==> IsOrderOf(order, config.value)
    ensures config.None? ==> r == Err(NoConfiguration)
    ensures config.Some? && apiVersionError.Some? ==> r == Err(BadApiVersion(apiVersionError.value))
    ensures config.Some? && apiVersionError.None? ==>
      && (r.Err? <==> exists k :: k in config.value && Fails(config.value[k], req))
      && (r.Ok? ==> r.value == map k | k in config.value && Applies(config.value[k], req) :: config.value[k])
  {
    if config.None? {
      return Err(NoConfiguration);
    }
    if apiVersionError.Some? {
      return Err(BadApiVersion(apiVersionError.value));
    }
    var policies := config.value;
    var ret: map<string, Compiled> := map[];
    var lastError: Option<Failure> := None;
    for i := 0 to |order|
      invariant forall k :: k in ret <==> k in order[..i] && Applies(policies[k], req)
      invariant forall k :: k in ret ==> ret[k] == policies[k]
      invariant lastError.Some? <==> exists k :: k in order[..i] && Fails(policies[k], req)
    {
      var k := order[i];
      assert order[..i + 1] == order[..i] + [k];
      var found := MatchesResource(policies[k].matches, req);
      if found.Err? {
        assert k in policies && Fails(policies[k], req);
        return Err(found.error);
      }
      if found.value {
        var matched, err := MatchesImage(policies[k].images, req);
        if err.Some? {
          lastError := err;
        }
        if matched {
          ret := ret[k := policies[k]];
        }
      }
    }
    assert order[..|order|] == order;
    r := if lastError.Some? then Err(lastError.value) else Ok(ret);
  }

  // ---------- the meaning in full ----------

  /** The entry names the resource and its group, and its version or any; its selector, if any, selects the labels. */
  predicate Entry(m: MatchResource, req: Request) {
    && m.group == req.group && m.resource == req.resource && m.version in {req.version, "*"}
    && (m.selector.None? || req.selects(m.selector.value) == Some(true))
  }

  /** The glob of the pattern matches the image, or cannot be matched; a pattern without a glob does neither. */
  predicate Hits(p: ImagePattern, req: Request) { p.glob != "" && Match(p.glob, req.image, req.refName) == Ok(true) }

  predicate Misfires(p: ImagePattern, req: Request) { p.glob != "" && Match(p.glob, req.image, req.refName).Err? }

  /** The entry is for the resource, and its selector is malformed. */
  predicate BadEntry(m: MatchResource, req: Request) {
    Entry(m.(selector := None), req) && m.selector.Some? && req.selects(m.selector.value).None?
  }

  /** A policy applies if it has no entries or one for the resource, and a glob of it matches the image. */
  lemma AppliesMeans(c: Compiled, req: Request)
    ensures Applies(c, req) <==>
      && (|c.matches| == 0 || exists i | 0 <= i < |c.matches| :: Entry(c.matches[i], req))
      && exists i | 0 <= i < |c.images| :: Hits(c.images[i], req)
  {
    forall i | 0 <= i < |c.matches| ensures Satisfied(c.matches[i], req) <==> Entry(c.matches[i], req) {
    }
    forall i | 0 <= i < |c.images|
      ensures Covers(c.images[i], req) <==> Hits(c.images[i], req)
    {
      MatchMeans(c.images[i].glob, req.image, req.refName);
    }
  }

  /**
   It fails for an entry of the resource whose selector is malformed, met before one that is satisfied; and, if it
   concerns the resource, for a glob that cannot be matched.
   */
  lemma FailsMeans(c: Compiled, req: Request)
    ensures Fails(c, req) <==>
      || (exists i | 0 <= i < |c.matches| ::
            BadEntry(c.matches[i], req) && forall j | 0 <= j < i :: !Entry(c.matches[j], req))
      || ((|c.matches| == 0 || exists i | 0 <= i < |c.matches| :: Entry(c.matches[i], req)) &&
          exists i | 0 <= i < |c.images| :: Misfires(c.images[i], req))
  {
    forall i | 0 <= i < |c.matches|
      ensures Satisfied(c.matches[i], req) <==> Entry(c.matches[i], req)
      ensures Malformed(c.matches[i], req) <==> BadEntry(c.matches[i], req)
    {
    }
    forall i | 0 <= i < |c.images|
      ensures GlobFails(c.images[i], req) <==> Misfires(c.images[i], req)
    {
      MatchMeans(c.images[i].glob, req.image, req.refName);
    }
  }
}
