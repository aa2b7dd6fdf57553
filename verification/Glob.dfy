/**
 Image globs. `Compile` turns a glob into the text of a regular expression by four textual rewrites and hands
 the text to the regular-expression compiler, of which the constructs that can occur are modelled here.
 */
module Glob {
  import opened Wrappers

  // ---------- the rewriting compiler ----------

  /** Replaces the leftmost, non-overlapping occurrences. */
  function ReplaceAll(s: string, what: string, with: string): string
    requires what != ""
    decreases |s|
  {
    if |s| < |what| then s
    else if s[..|what|] == what then with + ReplaceAll(s[|what|..], what, with)
    else [s[0]] + ReplaceAll(s[1..], what, with)
  }

  predicate Allowed(c: char) {
    'a' <= c <= 'z' || 'A' <= c <= 'Z' || '0' <= c <= '9' ||
    c == '-' || c == '_' || c == ':' || c == '/' || c == '*' || c == '.' || c == '@'
  }

  predicate ValidGlob(glob: string) { glob != "" && forall i :: 0 <= i < |glob| ==> Allowed(glob[i]) }

  function Normalize(glob: string): string {
    if glob == "*/*" then "index.docker.io/*/*"
    else if glob == "*" then "index.docker.io/library/*"
    else glob
  }

  function Rewrite(glob: string): string {
    var escaped := ReplaceAll(glob, ".", "\\.");
    var stashed := ReplaceAll(escaped, "**", "#");
    var starred := ReplaceAll(stashed, "*", "[^/]*");
    ReplaceAll(starred, "#", ".*")
  }

  datatype GlobError = InvalidGlob | InvalidRegexp | InvalidReference

  function Compile(glob: string): Result<seq<Item>, GlobError> {
    var g := Normalize(glob);
    if !ValidGlob(g) then Err(InvalidGlob) else
    match Parse("^" + Rewrite(g) + "$")
    case None => Err(InvalidRegexp)
    case Some(regexp) => Ok(regexp)
  }

  /** `refName` is the fully qualified name of the image, or nothing if the image does not parse. */
  function Match(glob: string, image: string, refName: Option<string>): Result<bool, GlobError> {
    match Compile(glob)
    case Err(e) => Err(e)
    case Ok(regexp) =>
      match refName
      case None => Err(InvalidReference)
      case Some(name) => Ok(Matches(regexp, name) || (name != image && Matches(regexp, image)))
  }

  // ---------- regular expressions ----------

  datatype Atom = Exactly(c: char) | AllBut(c: char) | AnyChar

  datatype Item = Item(atom: Atom, star: bool)

  predicate Meta(c: char) {
    c == '\\' || c == '.' || c == '+' || c == '*' || c == '?' || c == '(' || c == ')' || c == '|' ||
    c == '[' || c == ']' || c == '{' || c == '}' || c == '^' || c == '$'
  }

  /** One atom at the front of the text and the number of characters it takes. */
  function ParseAtom(text: string): Option<(Atom, nat)> {
    if text == "" then None
    else if text[0] == '\\' then
      if |text| >= 2 && Meta(text[1]) then Some((Exactly(text[1]), 2)) else None
    else if text[0] == '[' then
      if |text| >= 4 && text[1] == '^' && !Meta(text[2]) && text[2] != '-' && text[3] == ']' then
        Some((AllBut(text[2]), 4))
      else None
    else if text[0] == '.' then Some((AnyChar, 1))
    else if Meta(text[0]) then None
    else Some((Exactly(text[0]), 1))
  }

  /** Items up to the final anchor; a star without an atom, or on a starred atom, is an error. */
  function ParseItems(text: string): Option<seq<Item>>
    decreases |text|
  {
    if text == "$" then Some([]) else
    match ParseAtom(text)
    case None => None
    case Some((atom, n)) =>
      if n > |text| then None else
      var star := n < |text| && text[n] == '*';
      var rest := if star then text[n + 1..] else text[n..];
      match ParseItems(rest)
      case None => None
      case Some(items) => Some([Item(atom, star)] + items)
  }

  function Parse(text: string): Option<seq<Item>> {
    if text != "" && text[0] == '^' then ParseItems(text[1..]) else None
  }

  predicate Fits(atom: Atom, c: char) {
    match atom
    case Exactly(d) => c == d
    case AllBut(d) => c != d
    case AnyChar => c != '\n'
  }

  /** The anchored expression matches the whole string. */
  predicate Matches(items: seq<Item>, s: string)
    decreases |items|, |s|
  {
    if items == [] then s == ""
    else if items[0].star then
      Matches(items[1..], s) || (s != "" && Fits(items[0].atom, s[0]) && Matches(items, s[1..]))
    else s != "" && Fits(items[0].atom, s[0]) && Matches(items[1..], s[1..])
  }

  // ---------- what a glob means ----------

  datatype Token = AnyRun | Segment | Literal(c: char)

  /** Reading from the left, `**` is one token, a remaining `*` another, and every other character itself. */
  function Tokens(glob: string): seq<Token>
    decreases |glob|
  {
    if glob == "" then []
    else if |glob| >= 2 && glob[0] == '*' && glob[1] == '*' then [AnyRun] + Tokens(glob[2..])
    else if glob[0] == '*' then [Segment] + Tokens(glob[1..])
    else [Literal(glob[0])] + Tokens(glob[1..])
  }

  /** `**` stands for any run of characters on one line, `*` for any run without a slash. */
  predicate Means(tokens: seq<Token>, s: string)
    decreases |tokens|
  {
    if tokens == [] then s == "" else
    match tokens[0]
    case AnyRun => exists i | 0 <= i <= |s| :: '\n' !in s[..i] && Means(tokens[1..], s[i..])
    case Segment => exists i | 0 <= i <= |s| :: '/' !in s[..i] && Means(tokens[1..], s[i..])
    case Literal(c) => s != "" && s[0] == c && Means(tokens[1..], s[1..])
  }

  // ---------- the rewrites produce the text of the tokens ----------

  function Spell(token: Token): string {
    match token
    case AnyRun => ".*"
    case Segment => "[^/]*"
    case Literal(c) => if c == '.' then "\\." else [c]
  }

  function TextOf(tokens: seq<Token>): string {
    if tokens == [] then "" else Spell(tokens[0]) + TextOf(tokens[1..])
  }

  function ItemOf(token: Token): Item {
    match token
    case AnyRun => Item(AnyChar, true)
    case Segment => Item(AllBut('/'), true)
    case Literal(c) => Item(Exactly(c), false)
  }

  function ItemsOf(tokens: seq<Token>): seq<Item> {
    if tokens == [] then [] else [ItemOf(tokens[0])] + ItemsOf(tokens[1..])
  }

  lemma ReplaceHead(s: string, what: string, with: string)
    requires what != "" && s != "" && s[0] != what[0]
    ensures ReplaceAll(s, what, with) == [s[0]] + ReplaceAll(s[1..], what, with)
  {
  }

  lemma ReplaceMatch(rest: string, what: string, with: string)
    requires what != ""
    ensures ReplaceAll(what + rest, what, with) == with + ReplaceAll(rest, what, with)
  {
  }

  lemma {:induction false} ReplaceHeads(heads: string, rest: string, what: string, with: string)
    requires what != "" && forall i :: 0 <= i < |heads| ==> heads[i] != what[0]
    ensures ReplaceAll(heads + rest, what, with) == heads + ReplaceAll(rest, what, with)
  {
    hide ReplaceAll;
    if heads == "" {
      assert heads + rest == rest;
      assert heads + ReplaceAll(rest, what, with) == ReplaceAll(rest, what, with);
    } else {
      var after := ReplaceAll(rest, what, with);
      ReplaceHead(heads + rest, what, with);
      assert (heads + rest)[1..] == heads[1..] + rest;
      ReplaceHeads(heads[1..], rest, what, with);
      assert [heads[0]] + (heads[1..] + after) == heads + after;
    }
  }

  /** Escaping dots does not create or destroy a leading star. */
  lemma EscapedHead(glob: string)
    ensures var e := ReplaceAll(glob, ".", "\\."); (e != "" && e[0] == '*') <==> (glob != "" && glob[0] == '*')
  {
  }

  /** The four rewrites do not interfere: together they spell out the tokens, and `#` never meets a `#` of the glob. */
  lemma {:induction false} RewriteSpellsTokens(glob: string)
    requires forall i :: 0 <= i < |glob| ==> Allowed(glob[i])
    ensures Rewrite(glob) == TextOf(Tokens(glob))
    decreases |glob|
  {
    if glob == "" {
    } else if |glob| >= 2 && glob[0] == '*' && glob[1] == '*' {
      RewriteAnyRun(glob[2..]);
      assert glob == "**" + glob[2..];
      RewriteSpellsTokens(glob[2..]);
    } else if glob[0] == '*' {
      RewriteSegment(glob[1..]);
      assert glob == "*" + glob[1..];
      RewriteSpellsTokens(glob[1..]);
    } else {
      RewriteLiteral(glob[0], glob[1..]);
      assert glob == [glob[0]] + glob[1..];
      RewriteSpellsTokens(glob[1..]);
    }
  }

  lemma RewriteAnyRun(rest: string)
    ensures Rewrite("**" + rest) == ".*" + Rewrite(rest)
  {
    var e := ReplaceAll(rest, ".", "\\.");
    ReplaceHeads("**", rest, ".", "\\.");
    ReplaceMatch(e, "**", "#");
    var h := ReplaceAll(e, "**", "#");
    ReplaceHeads("#", h, "*", "[^/]*");
    ReplaceMatch(ReplaceAll(h, "*", "[^/]*"), "#", ".*");
  }

  lemma RewriteSegment(rest: string)
    requires rest == "" || rest[0] != '*'
    ensures Rewrite("*" + rest) == "[^/]*" + Rewrite(rest)
  {
    var e := ReplaceAll(rest, ".", "\\.");
    ReplaceHeads("*", rest, ".", "\\.");
    EscapedHead(rest);
    var h := ReplaceAll(e, "**", "#");
    assert ReplaceAll("*" + e, "**", "#") == "*" + h by {
      assert ("*" + e)[1..] == e;
    }
    ReplaceMatch(h, "*", "[^/]*");
    ReplaceHeads("[^/]*", ReplaceAll(h, "*", "[^/]*"), "#", ".*");
  }

  lemma RewriteLiteral(c: char, rest: string)
    requires c != '*' && c != '#'
    ensures Rewrite([c] + rest) == (if c == '.' then "\\." else [c]) + Rewrite(rest)
  {
    var text := if c == '.' then "\\." else [c];
    var e := ReplaceAll(rest, ".", "\\.");
    assert ReplaceAll([c] + rest, ".", "\\.") == text + e by {
      if c == '.' { ReplaceMatch(rest, ".", "\\."); } else { ReplaceHeads([c], rest, ".", "\\."); }
    }
    var h := ReplaceAll(e, "**", "#");
    ReplaceHeads(text, e, "**", "#");
    ReplaceHeads(text, h, "*", "[^/]*");
    ReplaceHeads(text, ReplaceAll(h, "*", "[^/]*"), "#", ".*");
  }

  // ---------- the text parses to the items of the tokens ----------

  predicate PlainToken(token: Token) { token.Literal? ==> Allowed(token.c) && token.c != '*' }

  predicate Plain(tokens: seq<Token>) { forall i :: 0 <= i < |tokens| ==> PlainToken(tokens[i]) }

  lemma {:induction false} TokensArePlain(glob: string)
    requires forall i :: 0 <= i < |glob| ==> Allowed(glob[i])
    ensures Plain(Tokens(glob))
    decreases |glob|
  {
    if glob != "" {
      if |glob| >= 2 && glob[0] == '*' && glob[1] == '*' {
        TokensArePlain(glob[2..]);
      } else {
        TokensArePlain(glob[1..]);
      }
    }
  }

  lemma TextNeverStartsWithStar(tokens: seq<Token>)
    requires Plain(tokens)
    ensures (TextOf(tokens) + "$")[0] != '*'
  {
  }

  lemma HeadParses(token: Token, rest: string)
    requires PlainToken(token) && rest != "" && rest[0] != '*' && ParseItems(rest).Some?
    ensures ParseItems(Spell(token) + rest) == Some([ItemOf(token)] + ParseItems(rest).value)
  {
    var text := Spell(token) + rest;
    match token
    case AnyRun =>
      assert ParseAtom(text) == Some((AnyChar, 1)) && text[2..] == rest;
    case Segment =>
      assert ParseAtom(text) == Some((AllBut('/'), 4)) && text[5..] == rest;
    case Literal(c) =>
      var n := |Spell(token)|;
      assert ParseAtom(text) == Some((Exactly(c), n)) && text[n] == rest[0] && text[n..] == rest;
  }

  lemma {:induction false} TextParses(tokens: seq<Token>)
    requires Plain(tokens)
    ensures ParseItems(TextOf(tokens) + "$") == Some(ItemsOf(tokens))
  {
    if tokens == [] {
      assert TextOf(tokens) + "$" == "$";
    } else {
      var rest := TextOf(tokens[1..]) + "$";
      TextParses(tokens[1..]);
      TextNeverStartsWithStar(tokens[1..]);
      HeadParses(tokens[0], rest);
      assert TextOf(tokens) + "$" == Spell(tokens[0]) + rest;
    }
  }

  // ---------- the items match what the tokens mean ----------

  lemma StarTakesRun(items: seq<Item>, s: string, i: nat)
    requires items != [] && items[0].star && i <= |s|
    requires (forall k :: 0 <= k < i ==> Fits(items[0].atom, s[k])) && Matches(items[1..], s[i..])
    ensures Matches(items, s)
    decreases i
  {
    if i == 0 {
      assert s[0..] == s;
    } else {
      assert s[1..][i - 1..] == s[i..];
      StarTakesRun(items, s[1..], i - 1);
    }
  }

  lemma {:induction false} StarGivesRun(items: seq<Item>, s: string) returns (i: nat)
    requires items != [] && items[0].star && Matches(items, s)
    ensures i <= |s| && (forall k :: 0 <= k < i ==> Fits(items[0].atom, s[k])) && Matches(items[1..], s[i..])
    decreases |s|
  {
    if Matches(items[1..], s) {
      i := 0;
      assert s[0..] == s;
    } else {
      i := StarGivesRun(items, s[1..]);
      assert s[1..][i..] == s[i + 1..];
      forall k | 0 <= k < i + 1 ensures Fits(items[0].atom, s[k]) {
        if k > 0 { assert s[k] == s[1..][k - 1]; }
      }
      i := i + 1;
    }
  }

  lemma {:induction false} ItemsMatchMeaning(tokens: seq<Token>, s: string)
    ensures Matches(ItemsOf(tokens), s) <==> Means(tokens, s)
    decreases |tokens|
  {
    if tokens != [] {
      var items, rest := ItemsOf(tokens), tokens[1..];
      assert items[1..] == ItemsOf(rest);
      if tokens[0].Literal? {
        if s != "" { ItemsMatchMeaning(rest, s[1..]); }
      } else {
        var bad := if tokens[0].AnyRun? then '\n' else '/';
        assert forall c :: Fits(items[0].atom, c) <==> c != bad;
        if Matches(items, s) {
          var i := StarGivesRun(items, s);
          ItemsMatchMeaning(rest, s[i..]);
          assert bad !in s[..i];
        }
        if Means(tokens, s) {
          var i :| 0 <= i <= |s| && bad !in s[..i] && Means(rest, s[i..]);
          ItemsMatchMeaning(rest, s[i..]);
          forall k | 0 <= k < i ensures Fits(items[0].atom, s[k]) {
            assert s[k] == s[..i][k];
          }
          StarTakesRun(items, s, i);
        }
      }
    }
  }

  // ---------- the theorems ----------

  /**
   Compilation fails for a character outside the alphabet and for nothing else, and preserves the meaning of the glob.
   */
  lemma CompilePreservesMeaning(glob: string, s: string)
    ensures Compile(glob).Ok? <==> ValidGlob(Normalize(glob))
    ensures Compile(glob).Err? ==> Compile(glob).error == InvalidGlob
    ensures Compile(glob).Ok? ==> (Matches(Compile(glob).value, s) <==> Means(Tokens(Normalize(glob)), s))
  {
    var g := Normalize(glob);
    if ValidGlob(g) {
      RewriteSpellsTokens(g);
      TokensArePlain(g);
      TextParses(Tokens(g));
      var text := "^" + Rewrite(g) + "$";
      assert text[1..] == TextOf(Tokens(g)) + "$";
      ItemsMatchMeaning(Tokens(g), s);
    }
  }

  function Slashes(s: string): nat {
    if s == "" then 0 else (if s[0] == '/' then 1 else 0) + Slashes(s[1..])
  }

  lemma {:induction false} SlashesOfParts(s: string, t: string)
    ensures Slashes(s + t) == Slashes(s) + Slashes(t)
  {
    if s == "" {
      assert s + t == t;
    } else {
      assert (s + t)[1..] == s[1..] + t;
      SlashesOfParts(s[1..], t);
    }
  }

  lemma {:induction false} NoSlashes(s: string)
    requires '/' !in s
    ensures Slashes(s) == 0
  {
    if s != "" { NoSlashes(s[1..]); }
  }

  predicate HasDoubleStar(glob: string) { exists i | 0 <= i < |glob| - 1 :: glob[i] == '*' && glob[i + 1] == '*' }

  /** Without `**` a glob only matches strings with as many slashes as it has itself. */
  lemma {:induction false} SlashesAgree(glob: string, s: string)
    requires !HasDoubleStar(glob) && Means(Tokens(glob), s)
    ensures Slashes(s) == Slashes(glob)
    decreases |glob|
  {
    if glob != "" {
      assert !(|glob| >= 2 && glob[0] == '*' && glob[1] == '*');
      var rest := glob[1..];
      assert !HasDoubleStar(rest);
      assert Tokens(glob)[1..] == Tokens(rest);
      if glob[0] == '*' {
        var i :| 0 <= i <= |s| && '/' !in s[..i] && Means(Tokens(rest), s[i..]);
        SlashesAgree(rest, s[i..]);
        assert s == s[..i] + s[i..];
        SlashesOfParts(s[..i], s[i..]);
        NoSlashes(s[..i]);
      } else {
        SlashesAgree(rest, s[1..]);
      }
    }
  }

  /** `Match` answers for the qualified name, or else for the image as it was written. */
  lemma MatchMeans(glob: string, image: string, refName: Option<string>)
    ensures Match(glob, image, refName).Ok? <==> ValidGlob(Normalize(glob)) && refName.Some?
    ensures Match(glob, image, refName).Ok? ==>
      (Match(glob, image, refName).value <==>
         Means(Tokens(Normalize(glob)), refName.value) || Means(Tokens(Normalize(glob)), image))
  {
    CompilePreservesMeaning(glob, image);
    if refName.Some? {
      CompilePreservesMeaning(glob, refName.value);
    }
  }

  // ---------- the two abbreviations ----------

  lemma {:induction false} LiteralPrefix(p: string, glob: string, s: string)
    requires '*' !in p
    ensures Means(Tokens(p + glob), s) <==> |p| <= |s| && s[..|p|] == p && Means(Tokens(glob), s[|p|..])
  {
    if p == "" {
      assert p + glob == glob && s[0..] == s;
    } else {
      assert (p + glob)[1..] == p[1..] + glob;
      if s != "" {
        LiteralPrefix(p[1..], glob, s[1..]);
        if |p| <= |s| {
          assert p == [p[0]] + p[1..] && s[..|p|] == [s[0]] + s[1..][..|p| - 1];
          assert s[1..][|p| - 1..] == s[|p|..];
        }
      }
    }
  }

  const OFFICIAL := "index.docker.io/library/"

  /** An image of the library of Docker Hub, with any tag or digest. */
  predicate Official(s: string) { |OFFICIAL| <= |s| && s[..|OFFICIAL|] == OFFICIAL && '/' !in s[|OFFICIAL|..] }

  /** A literal text and one star. */
  lemma StarAfter(p: string, star: string, s: string)
    requires '*' !in p && star == "*"
    ensures Means(Tokens(p + star), s) <==> |p| <= |s| && s[..|p|] == p && '/' !in s[|p|..]
  {
    LiteralPrefix(p, star, s);
    assert Tokens(star) == [Segment] + Tokens(star[1..]) && star[1..] == "";
    if |p| <= |s| {
      var rest := s[|p|..];
      assert rest[..|rest|] == rest && rest[|rest|..] == "";
    }
  }

  /** The glob "*" matches exactly the official images. */
  lemma StarMatchesOfficial(glob: string, image: string, name: string)
    requires glob == "*"
    ensures Match(glob, image, Some(name)) == Ok(Official(name) || Official(image))
  {
    assert Normalize(glob) == OFFICIAL + glob;
    OfficialIsPlain();
    assert ValidGlob(OFFICIAL + glob);
    MatchMeans(glob, image, Some(name));
    StarAfter(OFFICIAL, glob, name);
    StarAfter(OFFICIAL, glob, image);
  }

  lemma OfficialIsPlain()
    ensures '*' !in OFFICIAL && forall c | c in OFFICIAL :: Allowed(c)
  {
  }

  /** So it matches every image given by a bare name, by its qualified name. */
  lemma StarMatchesBareName(glob: string, image: string, tag: string)
    requires glob == "*" && '/' !in image && '/' !in tag
    ensures Match(glob, image, Some(OFFICIAL + (image + ":" + tag))) == Ok(true)
  {
    var name := OFFICIAL + (image + ":" + tag);
    assert name[..|OFFICIAL|] == OFFICIAL && name[|OFFICIAL|..] == image + ":" + tag;
    StarMatchesOfficial(glob, image, name);
  }

  lemma StarMatchesUbuntu(glob: string, image: string, tag: string)
    requires glob == "*" && image == "ubuntu" && tag == "latest"
    ensures Match(glob, image, Some(OFFICIAL + (image + ":" + tag))) == Ok(true)
  {
    StarMatchesBareName(glob, image, tag);
  }

  /** One slash, with nothing like it before or after. */
  predicate OneSlash(s: string) { exists i | 0 <= i < |s| :: s[i] == '/' && '/' !in s[..i] && '/' !in s[i + 1..] }

  const DOCKER_HUB := "index.docker.io/"

  /** An image of Docker Hub under some user, with any tag or digest. */
  predicate OfSomeUser(s: string) {
    |DOCKER_HUB| <= |s| && s[..|DOCKER_HUB|] == DOCKER_HUB && OneSlash(s[|DOCKER_HUB|..])
  }

  lemma OneSegment(star: string, s: string)
    requires star == "*"
    ensures Means(Tokens(star), s) <==> '/' !in s
  {
    assert Tokens(star) == [Segment] + Tokens(star[1..]) && star[1..] == "";
    assert s[..|s|] == s && s[|s|..] == "";
  }

  lemma TwoSegments(stars: string, s: string)
    requires stars == "*/*"
    ensures Means(Tokens(stars), s) <==> OneSlash(s)
  {
    var rest, star := stars[1..], stars[2..];
    assert Tokens(stars) == [Segment] + Tokens(rest);
    assert rest[1..] == star && Tokens(rest) == [Literal('/')] + Tokens(star);
    forall i | 0 <= i <= |s|
      ensures Means(Tokens(rest), s[i..]) <==> i < |s| && s[i] == '/' && '/' !in s[i + 1..]
    {
      if i < |s| {
        assert s[i..][1..] == s[i + 1..];
        OneSegment(star, s[i + 1..]);
      }
    }
  }

  /** The glob "*" followed by a slash and "*" matches exactly the images of users of Docker Hub. */
  lemma TwoStarsMatchUsers(glob: string, image: string, name: string)
    requires glob == "*/*"
    ensures Match(glob, image, Some(name)) == Ok(OfSomeUser(name) || OfSomeUser(image))
  {
    assert Normalize(glob) == DOCKER_HUB + glob;
    DockerHubIsPlain();
    assert ValidGlob(DOCKER_HUB + glob);
    MatchMeans(glob, image, Some(name));
    forall s ensures Means(Tokens(DOCKER_HUB + glob), s) <==> OfSomeUser(s) {
      LiteralPrefix(DOCKER_HUB, glob, s);
      if |DOCKER_HUB| <= |s| {
        TwoSegments(glob, s[|DOCKER_HUB|..]);
      }
    }
  }

  lemma DockerHubIsPlain()
    ensures '*' !in DOCKER_HUB && forall c | c in DOCKER_HUB :: Allowed(c)
  {
  }

  // ---------- all other globs ----------

  const LOWER := "abcdefghijklmnopqrstuvwxyz"

  const UPPER := "ABCDEFGHIJKLMNOPQRSTUVWXYZ"

  const OTHERS := "0123456789-_:/*.@"

  predicate InAlphabet(c: char) { c in LOWER || c in UPPER || c in OTHERS }

  lemma LowerIs(c: char)
    ensures c in LOWER <==> 'a' <= c <= 'z'
  {
    if 'a' <= c <= 'z' {
      assert LOWER[c as int - 'a' as int] == c;
    }
  }

  lemma UpperIs(c: char)
    ensures c in UPPER <==> 'A' <= c <= 'Z'
  {
    if 'A' <= c <= 'Z' {
      assert UPPER[c as int - 'A' as int] == c;
    }
  }

  lemma OthersAre(c: char)
    ensures c in OTHERS <==> Allowed(c) && !('a' <= c <= 'z') && !('A' <= c <= 'Z')
  {
    if '0' <= c <= '9' {
      assert OTHERS[c as int - '0' as int] == c;
    }
  }

  /** A glob that is no abbreviation is taken as it is: by its alphabet it compiles, and by its tokens it matches. */
  lemma PlainGlobMeans(glob: string, image: string, name: string)
    requires glob != "*" && glob != "*/*"
    ensures Compile(glob).Ok? <==> glob != "" && forall c | c in glob :: InAlphabet(c)
    ensures Compile(glob).Ok? ==>
      Match(glob, image, Some(name)) == Ok(Means(Tokens(glob), name) || Means(Tokens(glob), image))
  {
    hide *;
    PlainGlobIsNormal(glob);
    MatchMeans(glob, image, Some(name));
    CompilePreservesMeaning(glob, name);
    AlphabetIs(glob);
  }

  lemma PlainGlobIsNormal(glob: string)
    requires glob != "*" && glob != "*/*"
    ensures Normalize(glob) == glob
  {
  }

  lemma AlphabetIs(glob: string)
    ensures ValidGlob(glob) <==> glob != "" && forall c | c in glob :: InAlphabet(c)
  {
    forall c ensures Allowed(c) <==> InAlphabet(c) {
      LowerIs(c);
      UpperIs(c);
      OthersAre(c);
    }
    assert forall i | 0 <= i < |glob| :: glob[i] in glob;
  }
}
