/** Absolute paths and path patterns (crates/kas-core/src/path.rs). A `char` stands for one
    UTF-8 byte; only ASCII survives validation, so nothing is lost by that. */
module Paths {
  import opened Wrappers

  const MAX_PATH_BYTES := 1024
  const MAX_PATH_SEGMENT_BYTES := 128

  datatype PathError =
    | NotAbsolute
    | NotRelative
    | Root
    | TrailingSlash
    | EmptySegment
    | InvalidSegment(segment: string)
    | TooLong
    | SegmentTooLong

  datatype Validation = Valid | Invalid(error: PathError)

  /** `str::split('/')`. */
  function Split(s: string): (segments: seq<string>)
    ensures |segments| >= 1
  {
    if s == "" then [""] else Glued(s[0], Split(s[1..]))
  }

  /** One more character in front: a slash opens a segment, any other extends the first. */
  function Glued(c: char, segments: seq<string>): seq<string>
    requires |segments| >= 1
  {
    if c == '/' then [""] + segments else [[c] + segments[0]] + segments[1..]
  }

  function Join(segments: seq<string>): string
    requires |segments| >= 1
  {
    if |segments| == 1 then segments[0] else segments[0] + "/" + Join(segments[1..])
  }

  /** `split_path`: the segments of a path that starts with a slash. */
  function Segments(path: string): (segments: seq<string>)
    requires path != ""
  {
    Split(path[1..])
  }

  predicate PlainByte(segment: string, index: nat)
    requires index < |segment|
  {
    var byte := segment[index];
    || 'a' <= byte <= 'z'
    || '0' <= byte <= '9'
    || (byte == '-' && index != 0 && index + 1 != |segment|)
  }

  predicate PlainBytes(segment: string) {
    forall index | 0 <= index < |segment| :: PlainByte(segment, index)
  }

  /** A concrete segment: what may occur in the path of an object. */
  predicate PlainSegment(segment: string) {
    segment != "" && |segment| <= MAX_PATH_SEGMENT_BYTES && PlainBytes(segment)
  }

  predicate Wildcard(segment: string) {
    segment == "*" || segment == "**"
  }

  predicate PatternSegment(segment: string) {
    Wildcard(segment) || PlainSegment(segment)
  }

  predicate AcceptableSegment(segment: string, allowWildcards: bool) {
    if allowWildcards then PatternSegment(segment) else PlainSegment(segment)
  }

  /** The well-formed absolute strings, stated without the order of the checks. */
  predicate WellFormed(path: string, allowWildcards: bool) {
    && path != "" && path[0] == '/'
    && |path| <= MAX_PATH_BYTES
    && forall segment | segment in Segments(path) :: AcceptableSegment(segment, allowWildcards)
  }

  predicate ValidPath(path: string) {
    WellFormed(path, false)
  }

  predicate ValidPattern(path: string) {
    WellFormed(path, true)
  }

  /** A non-empty sequence of concrete segments: the identity of an object. */
  ghost predicate Word(word: seq<string>) {
    word != [] && forall segment | segment in word :: PlainSegment(segment)
  }

  /** By the codes of its characters: lower-case letters, digits and hyphens, the latter
      neither first nor last, at most 128 of them. */
  lemma PlainExactly(segment: string)
    ensures PlainSegment(segment) <==>
            && 1 <= |segment| <= 128
            && segment[0] as int != 45 && segment[|segment| - 1] as int != 45
            && forall c | c in segment :: 97 <= c as int <= 122 || 48 <= c as int <= 57 || c as int == 45
  {
    if PlainSegment(segment) {
      assert PlainByte(segment, 0) && PlainByte(segment, |segment| - 1);
      forall c | c in segment ensures 97 <= c as int <= 122 || 48 <= c as int <= 57 || c as int == 45 {
        var k :| 0 <= k < |segment| && segment[k] == c;
        assert PlainByte(segment, k);
      }
    } else if 1 <= |segment| <= 128 {
      var k :| 0 <= k < |segment| && !PlainByte(segment, k);
      assert segment[k] in segment;
    }
  }

  /** A path is a slash and, between slashes, plain segments; in a pattern, wildcards too. */
  lemma ValidExactly(path: string)
    ensures ValidPath(path) <==>
            && 1 <= |path| <= 1024 && path[0] == '/' && forall segment | segment in Split(path[1..]) :: PlainSegment(segment)
    ensures ValidPattern(path) <==>
            && 1 <= |path| <= 1024 && path[0] == '/'
            && forall segment | segment in Split(path[1..]) :: PlainSegment(segment) || segment in {"*", "**"}
  {
    hide Split, PlainSegment;
    if path != "" {
      forall segment ensures AcceptableSegment(segment, false) <==> PlainSegment(segment) {
      }
      forall segment ensures AcceptableSegment(segment, true) <==> PlainSegment(segment) || segment in {"*", "**"} {
      }
    }
  }

  function SegmentError(segment: string, allowWildcards: bool): Validation {
    if segment == "" then Invalid(EmptySegment)
    else if |segment| > MAX_PATH_SEGMENT_BYTES then Invalid(SegmentTooLong)
    else if allowWildcards && Wildcard(segment) then Valid
    else if PlainBytes(segment) then Valid
    else Invalid(InvalidSegment(segment))
  }

  /** Each segment gets the verdict it deserves. */
  lemma SegmentVerdict(segment: string, allowWildcards: bool)
    ensures var verdict := SegmentError(segment, allowWildcards);
            && (verdict == Valid <==> PlainSegment(segment) || (allowWildcards && segment in {"*", "**"}))
            && (verdict == Invalid(EmptySegment) <==> |segment| == 0)
            && (verdict == Invalid(SegmentTooLong) <==> |segment| > 128)
            && (verdict != Valid && 1 <= |segment| <= 128 ==> verdict == Invalid(InvalidSegment(segment)))
  {
  }

  /** The verdict on the first segment that is not acceptable. */
  predicate FirstVerdict(text: string, allowWildcards: bool, verdict: Validation) {
    exists k | 0 <= k < |Split(text)| ::
      && SegmentError(Split(text)[k], allowWildcards) == verdict && verdict.Invalid?
      && forall segment | segment in Split(text)[..k] :: AcceptableSegment(segment, allowWildcards)
  }

  /** `validate_segments`. */
  method ValidateSegments(path: string, allowWildcards: bool) returns (verdict: Validation)
    ensures verdict == Valid <==> forall segment | segment in Split(path) :: AcceptableSegment(segment, allowWildcards)
    ensures verdict.Invalid? ==> FirstVerdict(path, allowWildcards, verdict)
  {
    var segments := Split(path);
    for k := 0 to |segments|
      invariant forall segment | segment in segments[..k] :: AcceptableSegment(segment, allowWildcards)
    {
      verdict := SegmentError(segments[k], allowWildcards);
      if verdict.Invalid? {
        assert segments[k] in segments && !AcceptableSegment(segments[k], allowWildcards);
        return;
      }
      assert segments[..k + 1] == segments[..k] + [segments[k]];
    }
    assert segments[..|segments|] == segments;
    verdict := Valid;
  }

  /** `validate_absolute`, with the checks in the order the code makes them. */
  method ValidateAbsolute(path: string, allowWildcards: bool) returns (verdict: Validation)
    ensures verdict == Valid <==> WellFormed(path, allowWildcards)
    ensures verdict == Invalid(NotAbsolute) <==> path == "" || path[0] != '/'
    ensures verdict == Invalid(Root) <==> path == "/"
    ensures verdict == Invalid(TooLong) <==> path != "" && path[0] == '/' && |path| > MAX_PATH_BYTES
    ensures verdict == Invalid(TrailingSlash) <==> 1 < |path| <= MAX_PATH_BYTES && path[0] == '/' == path[|path| - 1]
    ensures verdict.Invalid? && verdict.error !in {NotAbsolute, Root, TooLong, TrailingSlash} ==>
              path != "" && FirstVerdict(path[1..], allowWildcards, verdict)
  {
    if path == "" || path[0] != '/' {
      return Invalid(NotAbsolute);
    }
    if path == "/" {
      assert "" in Segments(path);
      return Invalid(Root);
    }
    if |path| > MAX_PATH_BYTES {
      return Invalid(TooLong);
    }
    if path[|path| - 1] == '/' {
      LastSegmentAfterSlash(path[1..]);
      assert Segments(path)[|Segments(path)| - 1] in Segments(path);
      return Invalid(TrailingSlash);
    }
    verdict := ValidateSegments(path[1..], allowWildcards);
  }

  lemma GluedLast(c: char, segments: seq<string>)
    requires |segments| >= 2
    ensures |Glued(c, segments)| >= |segments| && Glued(c, segments)[|Glued(c, segments)| - 1] == segments[|segments| - 1]
  {
  }

  lemma {:induction false} LastSegmentAfterSlash(s: string)
    requires s != "" && s[|s| - 1] == '/'
    ensures |Split(s)| >= 2 && Split(s)[|Split(s)| - 1] == ""
  {
    if |s| == 1 {
      assert Split(s[1..]) == [""];
    } else {
      LastSegmentAfterSlash(s[1..]);
      GluedLast(s[0], Split(s[1..]));
    }
  }

  lemma JoinMore(first: string, rest: seq<string>)
    requires |rest| >= 1
    ensures Join([first] + rest) == first + "/" + Join(rest)
  {
    assert ([first] + rest)[1..] == rest;
  }

  lemma JoinGlued(c: char, segments: seq<string>)
    requires |segments| >= 1
    ensures Join(Glued(c, segments)) == [c] + Join(segments)
  {
    hide Join;
    if c == '/' {
      JoinMore("", segments);
      assert "/" == [c];
    } else {
      JoinFirst([c] + segments[0], segments);
    }
  }

  /** Joining, the first segment stands first. */
  lemma JoinFirst(first: string, segments: seq<string>)
    requires |segments| >= 1
    requires first != "" && first[1..] == segments[0]
    ensures Join([first] + segments[1..]) == [first[0]] + Join(segments)
  {
    var longer := [first] + segments[1..];
    assert longer[1..] == segments[1..];
    if |segments| > 1 {
      var rest := "/" + Join(segments[1..]);
      assert first + rest == [first[0]] + (segments[0] + rest);
    }
  }

  /** Splitting loses nothing: a path is determined by its segments. */
  lemma {:induction false} JoinSplit(s: string)
    ensures Join(Split(s)) == s
  {
    hide Join, Glued;
    if s == "" {
      JoinOne("");
    } else {
      JoinSplit(s[1..]);
      JoinGlued(s[0], Split(s[1..]));
      assert s == [s[0]] + s[1..];
    }
  }

  lemma JoinOne(segment: string)
    ensures Join([segment]) == segment
  {
  }

  /** Two paths with the same segments are the same path. */
  lemma SegmentsInjective(a: string, b: string)
    requires a != "" && b != "" && a[0] == '/' && b[0] == '/'
    requires Segments(a) == Segments(b)
    ensures a == b
  {
    JoinSplit(a[1..]);
    JoinSplit(b[1..]);
    assert a == ['/'] + a[1..] && b == ['/'] + b[1..];
  }

  /** The bytes of a path are those of its segments and one slash each. */
  function TotalLength(segments: seq<string>): nat {
    if segments == [] then 0 else |segments[0]| + 1 + TotalLength(segments[1..])
  }

  lemma {:induction false} SplitLength(s: string)
    ensures TotalLength(Split(s)) == |s| + 1
  {
    if s != "" {
      SplitLength(s[1..]);
      var rest := Split(s[1..]);
      if s[0] == '/' {
        assert ([""] + rest)[1..] == rest;
      } else {
        assert ([[s[0]] + rest[0]] + rest[1..])[1..] == rest[1..];
      }
    }
  }

  /** Every character of a segment, and no slash, comes from the text. */
  lemma {:induction false} SegmentCharacters(s: string, segment: string, c: char)
    requires segment in Split(s) && c in segment
    ensures c in s && c != '/'
  {
    if s != "" {
      var rest := Split(s[1..]);
      if segment in rest {
        SegmentCharacters(s[1..], segment, c);
      } else if s[0] != '/' && c != s[0] {
        assert segment == [s[0]] + rest[0];
        assert c in rest[0];
        SegmentCharacters(s[1..], rest[0], c);
      }
    }
  }

  lemma {:induction false} SplitOne(s: string)
    requires '/' !in s
    ensures Split(s) == [s]
  {
    if s != "" {
      SplitOne(s[1..]);
      assert s == [s[0]] + s[1..];
    }
  }

  lemma {:induction false} SplitFirst(first: string, rest: string)
    requires '/' !in first
    ensures Split(first + "/" + rest) == [first] + Split(rest)
  {
    var whole := first + "/" + rest;
    if first == "" {
      assert whole[1..] == rest;
    } else {
      SplitFirst(first[1..], rest);
      assert whole[1..] == first[1..] + "/" + rest;
      assert first == [first[0]] + first[1..];
    }
  }

  lemma GluedConcat(c: char, a: seq<string>, b: seq<string>)
    requires |a| >= 1
    ensures Glued(c, a + b) == Glued(c, a) + b
  {
  }

  lemma {:induction false} SplitConcat(a: string, b: string)
    ensures Split(a + "/" + b) == Split(a) + Split(b)
  {
    var whole := a + "/" + b;
    if a == "" {
      assert whole[1..] == b;
    } else {
      hide Glued;
      SplitConcat(a[1..], b);
      assert whole[1..] == a[1..] + "/" + b;
      GluedConcat(a[0], Split(a[1..]), Split(b));
    }
  }

  // ---- Paths relative to a package ----

  predicate StartsRelative(path: string) {
    |path| >= 2 && path[..2] == "./"
  }

  /** The well-formed relative strings, as they may occur in a package only. */
  predicate WellFormedRelative(path: string, allowWildcards: bool) {
    && StartsRelative(path) && |path| <= MAX_PATH_BYTES
    && forall segment | segment in Split(path[2..]) :: AcceptableSegment(segment, allowWildcards)
  }

  /** `validate_relative`. */
  method ValidateRelative(path: string, allowWildcards: bool) returns (verdict: Validation)
    ensures verdict == Valid <==> WellFormedRelative(path, allowWildcards)
    ensures verdict == Invalid(NotRelative) <==> !StartsRelative(path)
    ensures verdict == Invalid(Root) <==> path == "./"
    ensures verdict == Invalid(TooLong) <==> StartsRelative(path) && |path| > MAX_PATH_BYTES
    ensures verdict == Invalid(TrailingSlash) <==> StartsRelative(path) && 2 < |path| <= MAX_PATH_BYTES && path[|path| - 1] == '/'
    ensures verdict.Invalid? && verdict.error !in {NotRelative, Root, TooLong, TrailingSlash} ==>
              |path| >= 2 && FirstVerdict(path[2..], allowWildcards, verdict)
  {
    if !StartsRelative(path) {
      return Invalid(NotRelative);
    }
    if path[2..] == "" {
      assert path == "./";
      assert "" in Split(path[2..]);
      return Invalid(Root);
    }
    if |path| > MAX_PATH_BYTES {
      return Invalid(TooLong);
    }
    if path[|path| - 1] == '/' {
      LastSegmentAfterSlash(path[2..]);
      assert Split(path[2..])[|Split(path[2..])| - 1] in Split(path[2..]);
      return Invalid(TrailingSlash);
    }
    verdict := ValidateSegments(path[2..], allowWildcards);
  }

  // ---- Package roots ----

  const PACKAGES := "packages"

  function RootPath(publisher: string, name: string): string {
    "/packages/" + publisher + "/" + name
  }

  /** `package_root_for_path`. */
  function PackageRoot(path: string): (root: Option<string>) {
    if !ValidPath(path) then None
    else
      var segments := Segments(path);
      if |segments| < 3 || segments[0] != PACKAGES then None else Some(RootPath(segments[1], segments[2]))
  }

  /** `package_root_for_manifest_path`. */
  function PackageRootOfManifest(path: string): Option<string> {
    var root := PackageRoot(path);
    if root.Some? && path == root.value + "/manifest" then root else None
  }

  lemma RootPathSegments(publisher: string, name: string)
    requires PlainSegment(publisher) && PlainSegment(name)
    ensures Segments(RootPath(publisher, name)) == [PACKAGES, publisher, name]
  {
    PlainHasNoSlash(publisher);
    PlainHasNoSlash(name);
    assert RootPath(publisher, name)[1..] == PACKAGES + "/" + (publisher + "/" + name);
    SplitFirst(PACKAGES, publisher + "/" + name);
    SplitFirst(publisher, name);
    SplitOne(name);
  }

  lemma PlainHasNoSlash(segment: string)
    requires PlainSegment(segment)
    ensures '/' !in segment
  {
    forall index | 0 <= index < |segment| ensures segment[index] != '/' {
      assert PlainByte(segment, index);
    }
  }

  lemma DescendantSegments(root: string, rest: string)
    requires root != ""
    ensures Segments(root + "/" + rest) == Segments(root) + Split(rest)
  {
    SplitConcat(root[1..], rest);
    assert (root + "/" + rest)[1..] == root[1..] + "/" + rest;
  }

  /** The root of a package is the root of everything below it, and of itself. */
  lemma RootOfDescendant(path: string, rest: string)
    requires PackageRoot(path).Some?
    requires forall segment | segment in Split(rest) :: PlainSegment(segment)
    requires |PackageRoot(path).value + "/" + rest| <= MAX_PATH_BYTES
    ensures var below := PackageRoot(path).value + "/" + rest;
            ValidPath(below) && PackageRoot(below) == PackageRoot(path) && below != PackageRoot(path).value
  {
    hide Split, PlainSegment;
    var segments := Segments(path);
    assert segments[1] in segments && segments[2] in segments;
    var root := RootPath(segments[1], segments[2]);
    RootPathSegments(segments[1], segments[2]);
    assert root[0] == '/';
    hide RootPath;
    DescendantSegments(root, rest);
    PackagesIsPlain();
    forall segment | segment in Segments(root + "/" + rest) ensures AcceptableSegment(segment, false) {
      assert segment in [PACKAGES, segments[1], segments[2]] || segment in Split(rest);
    }
  }

  lemma PackagesIsPlain()
    ensures PlainSegment(PACKAGES)
  {
  }
}
