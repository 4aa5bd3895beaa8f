/** The query-resources command-line payload builder: raw flag strings are
    validated field by field, in a fixed order, and assembled into a
    `QueryResourcesPayload`, or the first validation error is returned. */
module QuerySvcClient {
  import opened Wrappers
  import opened GoStrings
  import Utf8

  /** The eight flag strings, in the order the builder receives them. An
      empty string means the flag was not given. */
  datatype Flags = Flags(
    version: GoString,
    name: GoString,
    parent: GoString,
    resourceType: GoString,
    tags: GoString,
    sort: GoString,
    pageToken: GoString,
    bearerToken: GoString)

  /** The request payload; `None` stands for a nil pointer or a nil slice. */
  datatype QueryResourcesPayload = QueryResourcesPayload(
    version: GoString,
    name: Option<GoString>,
    parent: Option<GoString>,
    resourceType: Option<GoString>,
    tags: Option<seq<GoString>>,
    sort: GoString,
    pageToken: Option<GoString>,
    bearerToken: GoString)

  datatype Field = Version | Name | Parent | Sort

  /** Which check failed; the message text of the validation library is not
      modelled. */
  datatype BuildError =
    | InvalidEnumValue(field: Field)
    | InvalidLength(field: Field)
    | PatternMismatch(field: Field)
    | InvalidTagsJson(cause: GoString)

  /** Decoding of the JSON `tags` flag into a string slice: either the
      decoded slice (nil for JSON `null`) or the decoder's error text. */
  type TagsDecoder = GoString -> Result<Option<seq<GoString>>, GoString>

  const VersionOne: GoString := Lit("1")

  const SortValues: seq<GoString> :=
    [Lit("name_asc"), Lit("name_desc"), Lit("updated_asc"), Lit("updated_desc")]

  predicate IsSortValue(s: GoString) {
    s in SortValues
  }

  // ---------------------------------------------------------------------
  // The parent pattern ^[a-zA-Z]+:[a-zA-Z0-9_-]+$
  // ---------------------------------------------------------------------

  const Colon: uint8 := 0x3A

  predicate IsAsciiLetter(b: uint8) {
    (0x41 <= b <= 0x5A) || (0x61 <= b <= 0x7A)
  }

  /** The class [a-zA-Z0-9_-]. */
  predicate IsIdentifierByte(b: uint8) {
    IsAsciiLetter(b) || (0x30 <= b <= 0x39) || b == 0x5F || b == 0x2D
  }

  predicate AllLetters(s: GoString) {
    forall i | 0 <= i < |s| :: IsAsciiLetter(s[i])
  }

  predicate AllIdentifierBytes(s: GoString) {
    forall i | 0 <= i < |s| :: IsIdentifierByte(s[i])
  }

  /** `s` is letters, then a colon at index `k`, then one or more identifier
      bytes. */
  predicate ColonSplit(s: GoString, k: int) {
    && 0 <= k < |s| - 1
    && s[k] == Colon
    && AllLetters(s[..k])
    && AllIdentifierBytes(s[k + 1..])
  }

  /** What the anchored pattern accepts, stated declaratively. */
  ghost predicate IsParentReference(s: GoString) {
    exists k :: ColonSplit(s, k) && k > 0
  }

  /** The states of an automaton for the pattern. */
  datatype ParentState = ExpectLetter | InLetters | ExpectIdentifier | InIdentifier

  function ParentStep(q: ParentState, b: uint8): Option<ParentState> {
    match q
    case ExpectLetter =>
      if IsAsciiLetter(b) then Some(InLetters) else None
    case InLetters =>
      if IsAsciiLetter(b) then Some(InLetters)
      else if b == Colon then Some(ExpectIdentifier)
      else None
    case ExpectIdentifier =>
      if IsIdentifierByte(b) then Some(InIdentifier) else None
    case InIdentifier =>
      if IsIdentifierByte(b) then Some(InIdentifier) else None
  }

  /** Runs the automaton over `s` from state `q`; `None` once it is stuck. */
  function ParentRun(q: ParentState, s: GoString): Option<ParentState>
    decreases |s|
  {
    if |s| == 0 then Some(q)
    else match ParentStep(q, s[0])
      case None => None
      case Some(q') => ParentRun(q', s[1..])
  }

  /** The compiled matcher: the whole of `s` must drive the automaton to its
      accepting state. */
  predicate MatchesParentPattern(s: GoString) {
    ParentRun(ExpectLetter, s) == Some(InIdentifier)
  }

  lemma {:induction false} RunFromInIdentifier(s: GoString)
    ensures ParentRun(InIdentifier, s) == Some(InIdentifier) <==> AllIdentifierBytes(s)
    decreases |s|
  {
    if |s| > 0 {
      RunFromInIdentifier(s[1..]);
      if IsIdentifierByte(s[0]) {
        assert AllIdentifierBytes(s) <==> AllIdentifierBytes(s[1..]) by {
          if AllIdentifierBytes(s[1..]) {
            forall i | 0 <= i < |s| ensures IsIdentifierByte(s[i]) {
              if i > 0 { assert s[i] == s[1..][i - 1]; }
            }
          }
        }
      }
    }
  }

  lemma RunFromExpectIdentifier(s: GoString)
    ensures ParentRun(ExpectIdentifier, s) == Some(InIdentifier) <==> |s| > 0 && AllIdentifierBytes(s)
  {
  }

  lemma {:induction false} RunFromInLetters(s: GoString)
    ensures ParentRun(InLetters, s) == Some(InIdentifier) <==> exists k :: ColonSplit(s, k)
    decreases |s|
  {
    if |s| == 0 {
      assert forall k :: !ColonSplit(s, k);
    } else if IsAsciiLetter(s[0]) {
      var t := s[1..];
      RunFromInLetters(t);
      if k' :| ColonSplit(t, k') {
        assert s[..k' + 1] == [s[0]] + t[..k'];
        assert s[k' + 2..] == t[k' + 1..];
        assert ColonSplit(s, k' + 1);
      }
      if k :| ColonSplit(s, k) {
        assert k > 0 by { assert s[k] == Colon; }
        assert t[..k - 1] == s[1..k];
        assert t[k..] == s[k + 1..];
        assert ColonSplit(t, k - 1);
      }
    } else if s[0] == Colon {
      RunFromExpectIdentifier(s[1..]);
      if |s| > 1 && AllIdentifierBytes(s[1..]) {
        assert ColonSplit(s, 0);
      }
      if k :| ColonSplit(s, k) && k > 0 {
        assert false;
      }
    } else {
      if k :| ColonSplit(s, k) {
        assert false;
      }
    }
  }

  /** The automaton accepts exactly the strings the pattern describes. */
  lemma ParentPatternIsParentReference(s: GoString)
    ensures MatchesParentPattern(s) <==> IsParentReference(s)
  {
    if |s| > 0 && IsAsciiLetter(s[0]) {
      var t := s[1..];
      RunFromInLetters(t);
      if k' :| ColonSplit(t, k') {
        assert s[..k' + 1] == [s[0]] + t[..k'];
        assert s[k' + 2..] == t[k' + 1..];
        assert ColonSplit(s, k' + 1);
      }
      if k :| ColonSplit(s, k) && k > 0 {
        assert t[..k - 1] == s[1..k];
        assert t[k..] == s[k + 1..];
        assert ColonSplit(t, k - 1);
      }
    } else if |s| > 0 {
      if k :| ColonSplit(s, k) && k > 0 {
        assert false;
      }
    }
  }

  // ---------------------------------------------------------------------
  // The builder
  // ---------------------------------------------------------------------

  /** An empty flag string gives a nil field, any other is carried through. */
  function Optional(s: GoString): Option<GoString> {
    if s == [] then None else Some(s)
  }

  /** The field was filled from flag `s` under the empty-means-absent rule. */
  predicate CarriesOptional(o: Option<GoString>, s: GoString) {
    && (o.None? <==> s == [])
    && (o.Some? ==> o.value == s)
  }

  /** Every check the builder makes, independent of the order it makes them in. */
  ghost predicate AcceptsFlags(f: Flags, decodeTags: TagsDecoder) {
    && f.version == VersionOne
    && (f.parent != [] ==> IsParentReference(f.parent))
    && (f.tags != [] ==> decodeTags(f.tags).Success?)
    && (f.sort != [] ==> IsSortValue(f.sort))
  }

  /** The payload holds exactly the validated flags. */
  predicate CarriesFlags(p: QueryResourcesPayload, f: Flags, decodeTags: TagsDecoder) {
    && p.version == f.version
    && CarriesOptional(p.name, f.name)
    && CarriesOptional(p.parent, f.parent)
    && CarriesOptional(p.resourceType, f.resourceType)
    && (f.tags == [] ==> p.tags.None?)
    && (f.tags != [] ==> decodeTags(f.tags).Success? && p.tags == decodeTags(f.tags).value)
    && p.sort == f.sort
    && CarriesOptional(p.pageToken, f.pageToken)
    && p.bearerToken == f.bearerToken
  }

  /** `BuildQueryResourcesPayload`: the checks run in the order version, name,
      parent, tags, sort, and the first that fails decides the error. The
      name-length check can never fail, since a non-empty name has at least
      one rune, so no flags yield `InvalidLength`. */
  function BuildQueryResourcesPayload(f: Flags, decodeTags: TagsDecoder): (r: Result<QueryResourcesPayload, BuildError>)
    ensures r.Success? <==> AcceptsFlags(f, decodeTags)
    ensures r.Success? ==> CarriesFlags(r.value, f, decodeTags)
    ensures r != Failure(InvalidLength(Name))
    ensures f.version != VersionOne ==> r == Failure(InvalidEnumValue(Version))
    ensures f.version == VersionOne && f.parent != [] && !IsParentReference(f.parent)
      ==> r == Failure(PatternMismatch(Parent))
    ensures f.version == VersionOne && (f.parent != [] ==> IsParentReference(f.parent))
      && f.tags != [] && decodeTags(f.tags).Failure?
      ==> r == Failure(InvalidTagsJson(decodeTags(f.tags).error))
    ensures f.version == VersionOne && (f.parent != [] ==> IsParentReference(f.parent))
      && (f.tags != [] ==> decodeTags(f.tags).Success?)
      && f.sort != [] && !IsSortValue(f.sort)
      ==> r == Failure(InvalidEnumValue(Sort))
  {
    if f.version != VersionOne then Failure(InvalidEnumValue(Version))
    else
      var name := Optional(f.name);
      if name.Some? && Utf8.RuneCountInString(name.value) < 1 then Failure(InvalidLength(Name))
      else
        ParentPatternIsParentReference(f.parent);
        if f.parent != [] && !MatchesParentPattern(f.parent) then Failure(PatternMismatch(Parent))
        else
          var parent := Optional(f.parent);
          var resourceType := Optional(f.resourceType);
          var decoded := if f.tags == [] then Success(None) else decodeTags(f.tags);
          match decoded
          case Failure(e) => Failure(InvalidTagsJson(e))
          case Success(tags) =>
            if f.sort != [] && !IsSortValue(f.sort) then Failure(InvalidEnumValue(Sort))
            else
              var pageToken := Optional(f.pageToken);
              Success(QueryResourcesPayload(
                f.version, name, parent, resourceType, tags, f.sort, pageToken, f.bearerToken))
  }
}
