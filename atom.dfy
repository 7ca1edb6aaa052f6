/** The Atom helpers of packages/atom/src/utils.ts: the in-place normalisation of
    a query string into a standard filter, the atom:feed / atom:entry validity
    checks (RFC 4287, sections 4.1.1 and 4.1.2), and the order in which a feed's
    elements are emitted into the document. */
module Atom {
  import opened Common

  // ---------------------------------------------------------------------------
  // Query normalisation
  // ---------------------------------------------------------------------------

  /** The filter keys whose values become arrays. */
  predicate IsFilterKey(key: string)
  {
    key in {"f", "fTitle", "fSummary", "fContent", "fAuthor", "fCategory",
            "fo", "foTitle", "foSummary", "foContent", "foAuthor", "foCategory"}
  }

  predicate IsAsciiDigit(c: char) { '0' <= c <= '9' }


  /** The white space and line terminators `parseInt` skips: the WhiteSpace and
      LineTerminator characters of ECMAScript, with every Unicode space
      separator. */
  predicate IsJsWhitespace(c: char)
  {
    || c == '\t' || c == '\n' || c == '\U{B}' || c == '\U{C}' || c == '\r' || c == ' '
    || c == '\U{A0}' || c == '\U{1680}' || '\U{2000}' <= c <= '\U{200A}'
    || c == '\U{2028}' || c == '\U{2029}' || c == '\U{202F}' || c == '\U{205F}'
    || c == '\U{3000}' || c == '\U{FEFF}'
  }

  predicate IsHexDigit(c: char)
  {
    IsAsciiDigit(c) || 'a' <= c <= 'f' || 'A' <= c <= 'F'
  }

  function HexDigitValue(c: char): (d: nat)
    requires IsHexDigit(c)
    ensures d < 16
    ensures IsAsciiDigit(c) ==> d == c as int - '0' as int
  {
    if IsAsciiDigit(c) then c as int - '0' as int
    else if 'a' <= c <= 'f' then c as int - 'a' as int + 10
    else c as int - 'A' as int + 10
  }

  /** The value of a run of hexadecimal digits, most significant first. */
  function HexValue(s: string): nat
    requires forall i :: 0 <= i < |s| ==> IsHexDigit(s[i])
  {
    if s == [] then 0 else HexValue(s[..|s| - 1]) * 16 + HexDigitValue(s[|s| - 1])
  }

  /** The longest prefix of `s` made of digits. */
  function LeadingDigits(s: string): (d: string)
    ensures |d| <= |s| && d == s[..|d|]
    ensures forall i :: 0 <= i < |d| ==> IsAsciiDigit(d[i])
    ensures |d| < |s| ==> !IsAsciiDigit(s[|d|])
  {
    if s == [] || !IsAsciiDigit(s[0]) then [] else [s[0]] + LeadingDigits(s[1..])
  }

  /** The longest prefix of `s` made of hexadecimal digits. */
  function LeadingHexDigits(s: string): (d: string)
    ensures |d| <= |s| && d == s[..|d|]
    ensures forall i :: 0 <= i < |d| ==> IsHexDigit(d[i])
    ensures |d| < |s| ==> !IsHexDigit(s[|d|])
  {
    if s == [] || !IsHexDigit(s[0]) then [] else [s[0]] + LeadingHexDigits(s[1..])
  }

  function TrimStart(s: string): (t: string)
    ensures |t| <= |s| && t == s[|s| - |t|..]
    ensures t == [] || !IsJsWhitespace(t[0])
  {
    if s != [] && IsJsWhitespace(s[0]) then TrimStart(s[1..]) else s
  }

  /** What `parseInt` reads the digits from, once the leading white space is
      gone: the rest after at most one sign. */
  function IntBody(t: string): (b: string)
    ensures |b| <= |t| && b == t[|t| - |b|..]
  {
    if t != [] && (t[0] == '-' || t[0] == '+') then t[1..] else t
  }

  /** Without a radix, `parseInt` reads base 16 after a `0x` or `0X` prefix. */
  predicate HexPrefixed(b: string)
  {
    |b| >= 2 && b[0] == '0' && (b[1] == 'x' || b[1] == 'X')
  }

  /** The parse of a string that starts with no white space: an optional sign,
      then the longest run of digits, hexadecimal after a `0x` prefix; no
      digits gives NaN. */
  function ParseIntTrimmed(t: string): (r: Val)
    ensures r.NaN? || r.Num?
    ensures var b := IntBody(t);
      r.NaN? <==> if HexPrefixed(b) then LeadingHexDigits(b[2..]) == [] else LeadingDigits(b) == []
  {
    var negative := t != [] && t[0] == '-';
    var body := IntBody(t);
    var prefixed := HexPrefixed(body);
    var digits := if prefixed then LeadingHexDigits(body[2..]) else LeadingDigits(body);
    if digits == [] then NaN
    else
      var value: int := if prefixed then HexValue(digits) else DigitsValue(digits);
      Num(if negative then -value else value)
  }

  /** `parseInt` without a radix, of a string: its leading white space is
      skipped and the rest is parsed. */
  function ParseIntString(s: string): (r: Val)
    ensures r.NaN? || r.Num?
    ensures var b := IntBody(TrimStart(s));
      r.NaN? <==> if HexPrefixed(b) then LeadingHexDigits(b[2..]) == [] else LeadingDigits(b) == []
  {
    ParseIntTrimmed(TrimStart(s))
  }

  /** `parseInt(value)`: a number is kept and a string is parsed; every other
      value gives NaN here (see the model's notes on what JavaScript does). */
  function ParseInt(v: Val): (r: Val)
    ensures r.NaN? || r.Num?
    ensures v.Num? ==> r == v
    ensures v.Str? ==> r == ParseIntString(v.s)
  {
    match v
    case Num(_) => v
    case Str(s) => ParseIntString(s)
    case _ => NaN
  }

  /** The value a query field holds after normalisation. */
  function Normalised(key: string, v: Val): (r: Val)
    ensures IsFilterKey(key) ==> r.Arr? && (v.Arr? ==> r == v) && (!v.Arr? ==> r.items == [v])
    ensures key == "sorted" || key == "cache" ==> r == Bool(Truthy(v))
    ensures key == "limit" ==> r == ParseInt(v)
    ensures key == "fDate" || key == "foDate" ==> r == DateFrom(v)
    ensures !IsFilterKey(key) && key !in {"sorted", "cache", "limit", "fDate", "foDate"} ==> r == v
  {
    if IsFilterKey(key) then (if v.Arr? then v else Arr([v]))
    else if key == "fDate" || key == "foDate" then DateFrom(v)
    else if key == "sorted" || key == "cache" then Bool(Truthy(v))
    else if key == "limit" then ParseInt(v)
    else v
  }

  /** The query object that transQueryToStdFilter rewrites; its fields are changed in place. */
  class Query {
    var fields: map<string, Val>

    constructor (fields: map<string, Val>)
      ensures this.fields == fields
    {
      this.fields := fields;
    }

    /** transQueryToStdFilter: visits every own key once, in whatever order the keys
        are enumerated, and rewrites its value. */
    method TransQueryToStdFilter()
      modifies this
      ensures fields.Keys == old(fields).Keys
      ensures forall k :: k in fields ==> fields[k] == Normalised(k, old(fields)[k])
    {
      var remaining := fields.Keys;
      ghost var original := fields;
      while remaining != {}
        invariant remaining <= fields.Keys
        invariant fields.Keys == original.Keys
        invariant forall k :: k in fields && k !in remaining ==> fields[k] == Normalised(k, original[k])
        invariant forall k :: k in remaining ==> fields[k] == original[k]
        decreases remaining
      {
        var key :| key in remaining;
        fields := fields[key := Normalised(key, fields[key])];
        remaining := remaining - {key};
      }
    }
  }

  /** Normalising a second time changes nothing except for the two date keys, where
      a Date is wrapped again. */
  lemma NormalisedIdempotent(key: string, v: Val)
    requires key != "fDate" && key != "foDate"
    ensures Normalised(key, Normalised(key, v)) == Normalised(key, v)
  {
  }

  /** The schema admits `"false"` for `sorted` and `cache`, and `!!"false"` is true. */
  lemma FalseStringBecomesTrue()
    ensures Normalised("sorted", Str("false")) == Bool(true)
    ensures Normalised("cache", Str("false")) == Bool(true)
  {
  }

  /** A digit string, the only `limit` the schema admits, parses to its value. */
  lemma {:induction false} LimitDigitsParse(n: nat)
    ensures Normalised("limit", Str(Decimal(n))) == Num(n)
  {
    ParseIntOfDigits(Decimal(n));
    DigitsValueOfDecimal(n);
  }

  /** A string of decimal digits is read in base 10 to its value. */
  lemma ParseIntTrimmedDigits(t: string)
    requires t != [] && forall i :: 0 <= i < |t| ==> '0' <= t[i] <= '9'
    ensures ParseIntTrimmed(t) == Num(DigitsValue(t))
  {
    assert IntBody(t) == t by {
      assert IsAsciiDigit(t[0]);
    }
    assert !HexPrefixed(t) by {
      if |t| >= 2 {
        assert IsAsciiDigit(t[1]);
      }
    }
    assert LeadingDigits(t) == t by {
      AllDigitsLeading(t);
    }
  }

  /** Nothing is trimmed from a string that starts with a digit. */
  lemma TrimStartOfDigit(s: string)
    requires s != [] && IsAsciiDigit(s[0])
    ensures TrimStart(s) == s
  {
  }

  lemma ParseIntOfDigits(s: string)
    requires s != [] && forall i :: 0 <= i < |s| ==> '0' <= s[i] <= '9'
    ensures ParseIntString(s) == Num(DigitsValue(s))
  {
    TrimStartOfDigit(s);
    ParseIntTrimmedDigits(s);
  }

  lemma HexDigitsOf1A()
    ensures LeadingHexDigits("1A") == "1A" && HexValue("1A") == 26
  {
    assert "1A"[1..] == "A";
    assert "A"[1..] == "";
    assert "1A"[..1] == "1";
    assert "1"[..0] == "";
  }

  lemma {:induction false} AllHexLeading(s: string)
    requires forall i :: 0 <= i < |s| ==> IsHexDigit(s[i])
    ensures LeadingHexDigits(s) == s
  {
    if s != [] {
      AllHexLeading(s[1..]);
    }
  }

  /** After a `0x` or `0X` prefix the rest is read in base 16. */
  lemma ParseIntTrimmedHex(x: char, d: string)
    requires x == 'x' || x == 'X'
    requires d != [] && forall i :: 0 <= i < |d| ==> IsHexDigit(d[i])
    ensures ParseIntTrimmed(['0', x] + d) == Num(HexValue(d))
  {
    var t := ['0', x] + d;
    assert IntBody(t) == t;
    assert HexPrefixed(t);
    assert t[2..] == d;
    AllHexLeading(d);
  }

  /** A prefix followed by hexadecimal digits parses to their value. */
  lemma ParseIntOfHex(x: char, d: string)
    requires x == 'x' || x == 'X'
    requires d != [] && forall i :: 0 <= i < |d| ==> IsHexDigit(d[i])
    ensures ParseIntString(['0', x] + d) == Num(HexValue(d))
  {
    TrimStartOfDigit(['0', x] + d);
    ParseIntTrimmedHex(x, d);
  }

  /** "0x1A" parses to 26. */
  lemma HexPrefixParses()
    ensures ParseIntString("0x1A") == Num(26)
  {
    assert "0x1A" == ['0', 'x'] + "1A";
    HexDigitsOf1A();
    ParseIntOfHex('x', "1A");
  }

  /** A bare prefix has no digits. */
  lemma BareHexPrefixIsNaN()
    ensures ParseIntString("0x") == NaN
  {
    var s := "0x";
    assert TrimStart(s) == s by {
      assert !IsJsWhitespace(s[0]);
    }
    assert s[2..] == "";
  }

  /** Any white space character in front, Unicode spaces included, leaves the
      parse unchanged. */
  lemma LeadingSpaceIgnored(c: char, s: string)
    requires IsJsWhitespace(c)
    ensures ParseIntString([c] + s) == ParseIntString(s)
  {
    assert ([c] + s)[1..] == s;
  }

  lemma {:induction false} AllDigitsLeading(s: string)
    requires forall i :: 0 <= i < |s| ==> IsAsciiDigit(s[i])
    ensures LeadingDigits(s) == s
  {
    if s != [] {
      AllDigitsLeading(s[1..]);
    }
  }

  // ---------------------------------------------------------------------------
  // Validation
  // ---------------------------------------------------------------------------

  /** The reason a feed is rejected; `TypeError` is a property read on null or undefined. */
  datatype FeedError =
    | MissingFeedAuthor
    | MissingEntryAuthor
    | MissingFeedId
    | MissingEntryId
    | MissingFeedTitle
    | MissingEntryTitle
    | MissingFeedUpdated
    | MissingEntryUpdated
    | MissingContentOrAlternate
    | TypeError

  /** The items a `for...of` loop visits: an array's elements, a string's characters;
      any other value is not iterable. */
  function Iter(v: Val): (r: Result<seq<Val>, FeedError>)
    ensures v.Arr? ==> r == Ok(v.items)
    ensures r.Err? <==> !v.Arr? && !v.Str?
    ensures r.Err? ==> r.error == TypeError
  {
    match v
    case Arr(items) => Ok(items)
    case Str(s) => Ok(seq(|s|, i requires 0 <= i < |s| => Str([s[i]])))
    case _ => Err(TypeError)
  }

  /** `links.find(link => link.rel === 'alternate')` as a truth value; the callback
      reads `rel` of each link in turn, which fails on a nullish link. */
  function FindAlternate(links: seq<Val>): (r: Result<bool, FeedError>)
    ensures r == Ok(true) <==> exists i :: 0 <= i < |links| && OptGet(links[i], "rel") == Str("alternate") &&
                                   forall j :: 0 <= j <= i ==> !Nullish(links[j])
    ensures r == Ok(false) <==> forall i :: 0 <= i < |links| ==> !Nullish(links[i]) && OptGet(links[i], "rel") != Str("alternate")
  {
    if links == [] then Ok(false)
    else if Nullish(links[0]) then Err(TypeError)
    else if OptGet(links[0], "rel") == Str("alternate") then Ok(true)
    else
      var rest := FindAlternate(links[1..]);
      assert forall i :: 1 <= i < |links| ==> links[i] == links[1..][i - 1];
      rest
  }

  /** `Array.isArray(link) && link.find(...)`. */
  function AlternateLink(link: Val): Result<bool, FeedError>
  {
    if link.Arr? then FindAlternate(link.items) else Ok(false)
  }

  /** A per-entry test applied by a validation loop. */
  datatype EntryCheck =
    | FieldHasType(key: string, typeName: string, err: FeedError)
    | AuthorNamedAsWritten
    | AuthorNamed
    | ContentOrAlternate

  /** The corrected author test: a person with a string name, or an array (as Atom
      documents carry authors) holding one. */
  predicate NamedAuthor(author: Val)
  {
    TypeOf(OptGet(author, "name")) == "string" ||
    (author.Arr? && exists i :: 0 <= i < |author.items| && TypeOf(OptGet(author.items[i], "name")) == "string")
  }

  function ApplyCheck(c: EntryCheck, entry: Val): Option<FeedError>
  {
    match c
    case FieldHasType(key, typeName, err) =>
      (match Get(entry, key)
       case Err(_) => Some(TypeError)
       case Ok(v) => if TypeOf(v) == typeName then None else Some(err))
    case AuthorNamedAsWritten =>
      if TypeOf(OptGet(OptGet(entry, "author"), "name")) == "string" then None else Some(MissingEntryAuthor)
    case AuthorNamed =>
      if NamedAuthor(OptGet(entry, "author")) then None else Some(MissingEntryAuthor)
    case ContentOrAlternate =>
      (match Get(entry, "content")
       case Err(_) => Some(TypeError)
       case Ok(content) =>
         if Truthy(content) then None
         else match AlternateLink(OptGet(entry, "link"))
           case Ok(true) => None
           case Ok(false) => Some(MissingContentOrAlternate)
           case Err(_) => Some(TypeError))
  }

  /** The outcome of a loop that throws at the first entry failing `c`. */
  function FirstFailure(entries: seq<Val>, c: EntryCheck): (r: Option<FeedError>)
    ensures r.None? <==> forall i :: 0 <= i < |entries| ==> ApplyCheck(c, entries[i]).None?
    ensures r.Some? ==> exists i :: 0 <= i < |entries| && ApplyCheck(c, entries[i]) == r &&
                           forall j :: 0 <= j < i ==> ApplyCheck(c, entries[j]).None?
  {
    if entries == [] then None
    else if ApplyCheck(c, entries[0]).Some? then ApplyCheck(c, entries[0])
    else
      var rest := FirstFailure(entries[1..], c);
      assert forall i :: 1 <= i < |entries| ==> entries[i] == entries[1..][i - 1];
      rest
  }

  /** Two failures that are both first are the same failure. */
  lemma FirstFailureUnique(entries: seq<Val>, c: EntryCheck, k: nat)
    requires k < |entries| && ApplyCheck(c, entries[k]).Some?
    requires forall j :: 0 <= j < k ==> ApplyCheck(c, entries[j]).None?
    ensures FirstFailure(entries, c) == ApplyCheck(c, entries[k])
  {
  }

  /** `for (const entry of v)` running `c` on each entry. */
  function EachEntry(v: Val, c: EntryCheck): (r: Option<FeedError>)
  {
    match Iter(v)
    case Err(e) => Some(e)
    case Ok(items) => FirstFailure(items, c)
  }

  method CheckEachEntry(v: Val, c: EntryCheck) returns (r: Option<FeedError>)
    ensures r == EachEntry(v, c)
  {
    var items := Iter(v);
    if items.Err? {
      return Some(items.error);
    }
    var k := 0;
    while k < |items.value|
      invariant 0 <= k <= |items.value|
      invariant forall j :: 0 <= j < k ==> ApplyCheck(c, items.value[j]).None?
    {
      var failure := ApplyCheck(c, items.value[k]);
      if failure.Some? {
        FirstFailureUnique(items.value, c, k);
        return failure;
      }
      k := k + 1;
    }
    r := None;
  }

  /** mustHaveAuthor as written. */
  function AuthorCheckAsWritten(feed: Val, haveEntry: bool): (r: Option<FeedError>)
    ensures Nullish(feed) ==> r == Some(TypeError)
    ensures !Nullish(feed) && OptGet(OptGet(feed, "author"), "name") != Undefined ==> r.None?
    ensures !Nullish(feed) && OptGet(OptGet(feed, "author"), "name") == Undefined ==>
      (!haveEntry ==> r == Some(MissingFeedAuthor)) &&
      (haveEntry ==> (r.None? <==> (Iter(OptGet(feed, "entry")).Ok? &&
        forall i :: 0 <= i < |Iter(OptGet(feed, "entry")).value| ==>
          TypeOf(OptGet(OptGet(Iter(OptGet(feed, "entry")).value[i], "author"), "name")) == "string")))
  {
    match Get(feed, "author")
    case Err(e) => Some(TypeError)
    case Ok(author) =>
      if OptGet(author, "name") != Undefined then None
      else if !haveEntry then Some(MissingFeedAuthor)
      else EachEntry(OptGet(feed, "entry"), AuthorNamedAsWritten)
  }

  /** The corrected author rule of section 4.1.1 of RFC 4287: the feed names an
      author, or there are entries and every entry names one. */
  function AuthorCheck(feed: Val, haveEntry: bool): (r: Option<FeedError>)
    ensures Nullish(feed) ==> r == Some(TypeError)
    ensures !Nullish(feed) && NamedAuthor(OptGet(feed, "author")) ==> r.None?
    ensures !Nullish(feed) && !NamedAuthor(OptGet(feed, "author")) ==>
      (!haveEntry ==> r == Some(MissingFeedAuthor)) &&
      (haveEntry ==> (r.None? <==> (Iter(OptGet(feed, "entry")).Ok? &&
        forall i :: 0 <= i < |Iter(OptGet(feed, "entry")).value| ==>
          NamedAuthor(OptGet(Iter(OptGet(feed, "entry")).value[i], "author")))))
  {
    match Get(feed, "author")
    case Err(e) => Some(TypeError)
    case Ok(author) =>
      if NamedAuthor(author) then None
      else if !haveEntry then Some(MissingFeedAuthor)
      else EachEntry(OptGet(feed, "entry"), AuthorNamed)
  }

  method MustHaveAuthor(feed: Val, haveEntry: bool) returns (r: Option<FeedError>)
    ensures r == AuthorCheckAsWritten(feed, haveEntry)
  {
    var author := Get(feed, "author");
    if author.Err? {
      return Some(TypeError);
    }
    r := None;
    if OptGet(author.value, "name") == Undefined {
      if !haveEntry {
        return Some(MissingFeedAuthor);
      }
      r := CheckEachEntry(OptGet(feed, "entry"), AuthorNamedAsWritten);
    }
  }

  /** The shared shape of mustHaveId, mustHaveTitle and mustHaveUpdated: the feed's
      `key` has type `typeName`, and so does every entry's when there are entries. */
  function FieldCheck(feed: Val, haveEntry: bool, key: string, typeName: string,
                      feedErr: FeedError, entryErr: FeedError): (r: Option<FeedError>)
    ensures Nullish(feed) ==> r == Some(TypeError)
    ensures !Nullish(feed) && TypeOf(OptGet(feed, key)) != typeName ==> r == Some(feedErr)
    ensures r.None? <==> (!Nullish(feed) && TypeOf(OptGet(feed, key)) == typeName &&
      (haveEntry ==> (Iter(OptGet(feed, "entry")).Ok? &&
        forall i :: 0 <= i < |Iter(OptGet(feed, "entry")).value| ==>
          (!Nullish(Iter(OptGet(feed, "entry")).value[i]) &&
           TypeOf(OptGet(Iter(OptGet(feed, "entry")).value[i], key)) == typeName))))
  {
    match Get(feed, key)
    case Err(e) => Some(TypeError)
    case Ok(v) =>
      if TypeOf(v) != typeName then Some(feedErr)
      else if haveEntry then EachEntry(OptGet(feed, "entry"), FieldHasType(key, typeName, entryErr))
      else None
  }

  method MustHaveField(feed: Val, haveEntry: bool, key: string, typeName: string,
                       feedErr: FeedError, entryErr: FeedError) returns (r: Option<FeedError>)
    ensures r == FieldCheck(feed, haveEntry, key, typeName, feedErr, entryErr)
  {
    if Nullish(feed) {
      return Some(TypeError);
    }
    var v := OptGet(feed, key);
    if TypeOf(v) != typeName {
      return Some(feedErr);
    }
    if haveEntry {
      r := CheckEachEntry(OptGet(feed, "entry"), FieldHasType(key, typeName, entryErr));
      assert FieldCheck(feed, haveEntry, key, typeName, feedErr, entryErr) ==
             EachEntry(OptGet(feed, "entry"), FieldHasType(key, typeName, entryErr));
    } else {
      r := None;
    }
  }

  /** mustHaveId: a string `id` on the feed and on every entry. */
  method MustHaveId(feed: Val, haveEntry: bool) returns (r: Option<FeedError>)
    ensures r == FieldCheck(feed, haveEntry, "id", "string", MissingFeedId, MissingEntryId)
  {
    r := MustHaveField(feed, haveEntry, "id", "string", MissingFeedId, MissingEntryId);
  }

  /** mustHaveTitle: a string `title` on the feed and on every entry. */
  method MustHaveTitle(feed: Val, haveEntry: bool) returns (r: Option<FeedError>)
    ensures r == FieldCheck(feed, haveEntry, "title", "string", MissingFeedTitle, MissingEntryTitle)
  {
    r := MustHaveField(feed, haveEntry, "title", "string", MissingFeedTitle, MissingEntryTitle);
  }

  /** mustHaveUpdated: `typeof updated === 'object'` on the feed and on every entry
      (which `null` also satisfies). */
  method MustHaveUpdated(feed: Val, haveEntry: bool) returns (r: Option<FeedError>)
    ensures r == FieldCheck(feed, haveEntry, "updated", "object", MissingFeedUpdated, MissingEntryUpdated)
  {
    r := MustHaveField(feed, haveEntry, "updated", "object", MissingFeedUpdated, MissingEntryUpdated);
  }

  /** mustHaveContent as written: the scan ends, successfully, at the first entry
      that lacks content but has an alternate link. */
  function ContentCheckAsWritten(entries: seq<Val>): (r: Option<FeedError>)
  {
    if entries == [] then None
    else match Get(entries[0], "content")
      case Err(_) => Some(TypeError)
      case Ok(content) =>
        if Truthy(content) then ContentCheckAsWritten(entries[1..])
        else match AlternateLink(OptGet(entries[0], "link"))
          case Ok(true) => None
          case Ok(false) => Some(MissingContentOrAlternate)
          case Err(_) => Some(TypeError)
  }

  /** The corrected content rule of section 4.1.2 of RFC 4287: every entry has
      content or an alternate link. */
  function ContentCheck(entries: seq<Val>): (r: Option<FeedError>)
    ensures r.None? <==> forall i :: 0 <= i < |entries| ==>
      (!Nullish(entries[i]) &&
       (Truthy(OptGet(entries[i], "content")) || AlternateLink(OptGet(entries[i], "link")) == Ok(true)))
  {
    FirstFailure(entries, ContentOrAlternate)
  }

  method MustHaveContent(entries: seq<Val>) returns (r: Option<FeedError>)
    ensures r == ContentCheckAsWritten(entries)
  {
    var k := 0;
    while k < |entries|
      invariant 0 <= k <= |entries|
      invariant ContentCheckAsWritten(entries) == ContentCheckAsWritten(entries[k..])
    {
      var entry := entries[k];
      var content := Get(entry, "content");
      if content.Err? {
        return Some(TypeError);
      }
      if !Truthy(content.value) {
        var found := AlternateLink(OptGet(entry, "link"));
        if found == Ok(true) {
          return None;
        } else if found.Err? {
          return Some(TypeError);
        }
        return Some(MissingContentOrAlternate);
      }
      assert entries[k..][1..] == entries[k + 1..];
      k := k + 1;
    }
    r := None;
  }

  /** The as-written content scan accepts everything the corrected rule accepts. */
  lemma {:induction false} ContentCheckImpliesAsWritten(entries: seq<Val>)
    requires ContentCheck(entries).None?
    ensures ContentCheckAsWritten(entries).None?
  {
    if entries != [] {
      assert forall i :: 1 <= i < |entries| ==> entries[i] == entries[1..][i - 1];
      if Truthy(OptGet(entries[0], "content")) {
        ContentCheckImpliesAsWritten(entries[1..]);
      }
    }
  }

  /** An entry with an alternate link and no content hides a later entry that has
      neither. */
  lemma ContentScanStopsEarly()
    ensures var entries := [Obj(map["link" := Arr([Obj(map["rel" := Str("alternate")])])]), Obj(map[])];
      ContentCheckAsWritten(entries) == None && ContentCheck(entries) == Some(MissingContentOrAlternate)
  {
    var link := Obj(map["rel" := Str("alternate")]);
    var entries := [Obj(map["link" := Arr([link])]), Obj(map[])];
    assert FindAlternate([link]) == Ok(true);
    assert ApplyCheck(ContentOrAlternate, entries[0]).None?;
    assert ApplyCheck(ContentOrAlternate, entries[1]) == Some(MissingContentOrAlternate);
    FirstFailureUnique(entries, ContentOrAlternate, 1);
  }

  /** A feed whose authors are an array of named persons, as Atom documents carry
      them, fails the as-written author rule. */
  lemma AuthorArrayRejected()
    ensures var feed := Obj(map["author" := Arr([Obj(map["name" := Str("a")])])]);
      AuthorCheckAsWritten(feed, false) == Some(MissingFeedAuthor) && AuthorCheck(feed, false).None?
  {
    var person := Obj(map["name" := Str("a")]);
    var authors := Arr([person]);
    assert OptGet(authors, "name") == Undefined;
    assert TypeOf(OptGet(authors.items[0], "name")) == "string";
  }

  /** The first failing check, in the order isValidatedAtomFeed runs them. */
  function FirstOf(checks: seq<Option<FeedError>>): (r: Option<FeedError>)
    ensures r.None? <==> forall i :: 0 <= i < |checks| ==> checks[i].None?
    ensures r.Some? ==> exists i :: 0 <= i < |checks| && checks[i] == r && forall j :: 0 <= j < i ==> checks[j].None?
  {
    if checks == [] then None
    else if checks[0].Some? then checks[0]
    else
      var rest := FirstOf(checks[1..]);
      assert forall i :: 1 <= i < |checks| ==> checks[i] == checks[1..][i - 1];
      rest
  }

  lemma FirstOfAt(checks: seq<Option<FeedError>>, k: nat)
    requires k < |checks| && checks[k].Some?
    requires forall j :: 0 <= j < k ==> checks[j].None?
    ensures FirstOf(checks) == checks[k]
  {
  }

  /** The five checks of isValidatedAtomFeed as written, in the order they run. */
  function ChecksAsWritten(feed: Val): seq<Option<FeedError>>
  {
    var entry := OptGet(feed, "entry");
    var haveEntry := entry.Arr?;
    [AuthorCheckAsWritten(feed, haveEntry),
     FieldCheck(feed, haveEntry, "id", "string", MissingFeedId, MissingEntryId),
     FieldCheck(feed, haveEntry, "title", "string", MissingFeedTitle, MissingEntryTitle),
     FieldCheck(feed, haveEntry, "updated", "object", MissingFeedUpdated, MissingEntryUpdated),
     if haveEntry then ContentCheckAsWritten(entry.items) else None]
  }

  /** isValidatedAtomFeed as written; None stands for `return true`. Reading
      `feed.entry` fails first on a nullish feed. */
  function ValidateAsWritten(feed: Val): Option<FeedError>
  {
    if Nullish(feed) then Some(TypeError) else FirstOf(ChecksAsWritten(feed))
  }

  /** The same checks with the corrected author and content rules. */
  function Checks(feed: Val): seq<Option<FeedError>>
  {
    var entry := OptGet(feed, "entry");
    var haveEntry := entry.Arr?;
    [AuthorCheck(feed, haveEntry),
     FieldCheck(feed, haveEntry, "id", "string", MissingFeedId, MissingEntryId),
     FieldCheck(feed, haveEntry, "title", "string", MissingFeedTitle, MissingEntryTitle),
     FieldCheck(feed, haveEntry, "updated", "object", MissingFeedUpdated, MissingEntryUpdated),
     if haveEntry then ContentCheck(entry.items) else None]
  }

  /** isValidatedAtomFeed with the corrected author and content rules. */
  function Validate(feed: Val): Option<FeedError>
  {
    if Nullish(feed) then Some(TypeError) else FirstOf(Checks(feed))
  }

  /** The entries of a feed whose `entry` is an array, and none otherwise. */
  function EntriesOf(feed: Val): seq<Val>
  {
    var entry := OptGet(feed, "entry");
    if entry.Arr? then entry.items else []
  }

  /** The author requirement of section 4.1.1 of RFC 4287. */
  predicate AuthorConforms(feed: Val)
  {
    NamedAuthor(OptGet(feed, "author")) ||
    (OptGet(feed, "entry").Arr? &&
     forall i :: 0 <= i < |EntriesOf(feed)| ==> NamedAuthor(OptGet(EntriesOf(feed)[i], "author")))
  }

  /** The feed and each entry carry `key` with the given type. */
  predicate FieldConforms(feed: Val, key: string, typeName: string)
  {
    TypeOf(OptGet(feed, key)) == typeName &&
    forall i :: 0 <= i < |EntriesOf(feed)| ==>
      !Nullish(EntriesOf(feed)[i]) && TypeOf(OptGet(EntriesOf(feed)[i], key)) == typeName
  }

  /** Each entry has content or an alternate link (section 4.1.2 of RFC 4287). */
  predicate ContentConforms(feed: Val)
  {
    forall i :: 0 <= i < |EntriesOf(feed)| ==>
      !Nullish(EntriesOf(feed)[i]) &&
      (Truthy(OptGet(EntriesOf(feed)[i], "content")) ||
       AlternateLink(OptGet(EntriesOf(feed)[i], "link")) == Ok(true))
  }

  /** The requirements of sections 4.1.1 and 4.1.2 of RFC 4287 that the validator
      covers, stated on the feed's fields. */
  predicate ConformingFeed(feed: Val)
  {
    && feed.Obj?
    && AuthorConforms(feed)
    && FieldConforms(feed, "id", "string")
    && FieldConforms(feed, "title", "string")
    && FieldConforms(feed, "updated", "object")
    && ContentConforms(feed)
  }

  lemma AuthorCheckConforms(feed: Val)
    requires !Nullish(feed)
    ensures AuthorCheck(feed, OptGet(feed, "entry").Arr?).None? <==> AuthorConforms(feed)
  {
    if OptGet(feed, "entry").Arr? {
      assert Iter(OptGet(feed, "entry")).value == EntriesOf(feed);
    }
  }

  lemma FieldCheckConforms(feed: Val, key: string, typeName: string, feedErr: FeedError, entryErr: FeedError)
    requires !Nullish(feed)
    ensures FieldCheck(feed, OptGet(feed, "entry").Arr?, key, typeName, feedErr, entryErr).None? <==>
      FieldConforms(feed, key, typeName)
  {
    if OptGet(feed, "entry").Arr? {
      assert Iter(OptGet(feed, "entry")).value == EntriesOf(feed);
    }
  }

  lemma ContentCheckConforms(feed: Val)
    requires !Nullish(feed)
    ensures (if OptGet(feed, "entry").Arr? then ContentCheck(OptGet(feed, "entry").items) else None).None? <==>
      ContentConforms(feed)
  {
    if OptGet(feed, "entry").Arr? {
      assert OptGet(feed, "entry").items == EntriesOf(feed);
    }
  }

  /** The corrected validator accepts exactly the conforming feeds. */
  lemma ValidateIffConforming(feed: Val)
    ensures Validate(feed).None? <==> ConformingFeed(feed)
  {
    if Nullish(feed) {
      return;
    }
    var checks := Checks(feed);
    if !feed.Obj? {
      assert OptGet(feed, "author") == Undefined && !OptGet(feed, "entry").Arr?;
      assert !NamedAuthor(Undefined);
      assert checks[0] == Some(MissingFeedAuthor);
      return;
    }
    AuthorCheckConforms(feed);
    FieldCheckConforms(feed, "id", "string", MissingFeedId, MissingEntryId);
    FieldCheckConforms(feed, "title", "string", MissingFeedTitle, MissingEntryTitle);
    FieldCheckConforms(feed, "updated", "object", MissingFeedUpdated, MissingEntryUpdated);
    ContentCheckConforms(feed);
    assert checks[0].None? <==> AuthorConforms(feed);
    assert checks[1].None? <==> FieldConforms(feed, "id", "string");
    assert checks[2].None? <==> FieldConforms(feed, "title", "string");
    assert checks[3].None? <==> FieldConforms(feed, "updated", "object");
    assert checks[4].None? <==> ContentConforms(feed);
    assert Validate(feed).None? <==> forall i :: 0 <= i < |checks| ==> checks[i].None?;
  }

  /** What an accepted feed is known to have under the validator as written. */
  lemma ValidatedAsWrittenHasFields(feed: Val)
    requires ValidateAsWritten(feed).None?
    ensures !Nullish(feed)
    ensures FieldConforms(feed, "id", "string")
    ensures FieldConforms(feed, "title", "string")
    ensures FieldConforms(feed, "updated", "object")
  {
    var checks := ChecksAsWritten(feed);
    assert checks[1].None? && checks[2].None? && checks[3].None?;
    FieldCheckConforms(feed, "id", "string", MissingFeedId, MissingEntryId);
    FieldCheckConforms(feed, "title", "string", MissingFeedTitle, MissingEntryTitle);
    FieldCheckConforms(feed, "updated", "object", MissingFeedUpdated, MissingEntryUpdated);
  }

  /** isValidatedAtomFeed: runs the author, id, title, updated and (with entries)
      content checks in that order; the first failure is the error. */
  method IsValidatedAtomFeed(feed: Val) returns (r: Option<FeedError>)
    ensures r == ValidateAsWritten(feed)
  {
    var entry := Get(feed, "entry");
    if entry.Err? {
      return Some(TypeError);
    }
    var haveEntry := entry.value.Arr?;
    ghost var checks := ChecksAsWritten(feed);
    assert entry.value == OptGet(feed, "entry");
    assert checks == [AuthorCheckAsWritten(feed, haveEntry),
      FieldCheck(feed, haveEntry, "id", "string", MissingFeedId, MissingEntryId),
      FieldCheck(feed, haveEntry, "title", "string", MissingFeedTitle, MissingEntryTitle),
      FieldCheck(feed, haveEntry, "updated", "object", MissingFeedUpdated, MissingEntryUpdated),
      if haveEntry then ContentCheckAsWritten(entry.value.items) else None];
    r := MustHaveAuthor(feed, haveEntry);
    if r.Some? {
      FirstOfAt(checks, 0);
      return;
    }
    r := MustHaveId(feed, haveEntry);
    if r.Some? {
      FirstOfAt(checks, 1);
      return;
    }
    r := MustHaveTitle(feed, haveEntry);
    if r.Some? {
      FirstOfAt(checks, 2);
      return;
    }
    r := MustHaveUpdated(feed, haveEntry);
    if r.Some? {
      FirstOfAt(checks, 3);
      return;
    }
    if haveEntry {
      r := MustHaveContent(entry.value.items);
    }
    if r.Some? {
      FirstOfAt(checks, 4);
    }
  }

  // ---------------------------------------------------------------------------
  // Element emission
  // ---------------------------------------------------------------------------

  /** What an element carries: nothing, a CDATA section or a text node. */
  datatype Body = NoBody | Cdata(text: Val) | TextNode(text: Val)

  /** An emitted element; `fields` is the value handed to the builder as attributes
      or child fields. An entry element holds the elements emitted for the entry. */
  datatype Node =
    | Element(tag: string, fields: Val, body: Body)
    | EntryElement(children: seq<Node>)

  function TagOf(n: Node): string
  {
    if n.Element? then n.tag else "entry"
  }

  /** The order in which handleAtomElement looks at the fields. */
  const ElementOrder: seq<string> := [
    "author", "category", "contributor", "generator", "icon", "id", "link", "logo",
    "rights", "subtitle", "title", "updated", "content", "published", "summary"]

  function Rank(tag: string): nat
  {
    match tag
    case "author" => 0
    case "category" => 1
    case "contributor" => 2
    case "generator" => 3
    case "icon" => 4
    case "id" => 5
    case "link" => 6
    case "logo" => 7
    case "rights" => 8
    case "subtitle" => 9
    case "title" => 10
    case "updated" => 11
    case "content" => 12
    case "published" => 13
    case "summary" => 14
    case _ => 15
  }

  lemma RankOfOrder(k: nat)
    requires k < |ElementOrder|
    ensures Rank(ElementOrder[k]) == k
  {
  }

  /** isTextContent: `type` is 'html' or 'text'; reading `type` fails on a nullish value. */
  function IsTextContent(data: Val): (r: Result<bool, FeedError>)
    ensures r.Err? <==> Nullish(data)
    ensures r.Ok? ==> (r.value <==> OptGet(data, "type") == Str("html") || OptGet(data, "type") == Str("text"))
  {
    match Get(data, "type")
    case Err(_) => Err(TypeError)
    case Ok(t) => Ok(t == Str("html") || t == Str("text"))
  }

  /** handleTextContent: html becomes a CDATA section, text a text node, and any
      other type emits nothing. */
  function TextContent(name: string, node: Val): (r: seq<Node>)
    ensures OptGet(node, "type") == Str("html") ==> r == [Element(name, Undefined, Cdata(OptGet(node, "content")))]
    ensures OptGet(node, "type") == Str("text") ==> r == [Element(name, Undefined, TextNode(OptGet(node, "content")))]
    ensures OptGet(node, "type") != Str("html") && OptGet(node, "type") != Str("text") ==> r == []
  {
    match OptGet(node, "type")
    case Str("html") => [Element(name, Undefined, Cdata(OptGet(node, "content")))]
    case Str("text") => [Element(name, Undefined, TextNode(OptGet(node, "content")))]
    case _ => []
  }

  /** The content element: text content, an out-of-line `src`, or inline content
      with its type, in that order of preference. */
  function ContentElement(c: Val): (r: seq<Node>)
    requires !Nullish(c)
    ensures |r| <= 1
    ensures forall i :: 0 <= i < |r| ==> r[i].Element? && r[i].tag == "content"
  {
    if IsTextContent(c).value then TextContent("content", c)
    else if Truthy(OptGet(c, "src")) then
      [Element("content", Obj(map["type" := OptGet(c, "type"), "src" := OptGet(c, "src")]), NoBody)]
    else if Truthy(OptGet(c, "content")) then
      [Element("content", Obj(map["type" := OptGet(c, "type")]), TextNode(OptGet(c, "content")))]
    else []
  }

  /** `const {content, ...rest} = generator`: the generator's fields without `content`. */
  function WithoutContent(v: Val): Val
  {
    if v.Obj? then Obj(v.props - {"content"}) else Obj(map[])
  }

  /** The elements one guarded block of handleAtomElement appends for `tag`. A
      person list must be an array (it is mapped), a link list iterable, and a
      date a Date (it is formatted). */
  function Part(data: Val, tag: string): (r: Result<seq<Node>, FeedError>)
    ensures r.Ok? ==> forall i :: 0 <= i < |r.value| ==> r.value[i].Element? && r.value[i].tag == tag
    ensures !Truthy(OptGet(data, tag)) ==> r == Ok([])
    ensures r.Err? ==> r.error == TypeError
  {
    var v := OptGet(data, tag);
    if !Truthy(v) then Ok([])
    else match tag
      case "author" | "contributor" =>
        if v.Arr? then Ok(seq(|v.items|, i requires 0 <= i < |v.items| => Element(tag, v.items[i], NoBody)))
        else Err(TypeError)
      case "category" => Ok([Element(tag, v, NoBody)])
      case "generator" => Ok([Element(tag, WithoutContent(v), TextNode(OptGet(v, "content")))])
      case "icon" | "id" | "logo" => Ok([Element(tag, Undefined, TextNode(v))])
      case "link" =>
        (match Iter(v)
         case Err(e) => Err(e)
         case Ok(items) => Ok(seq(|items|, i requires 0 <= i < |items| => Element(tag, items[i], NoBody))))
      case "rights" | "subtitle" | "title" | "summary" => Ok(TextContent(tag, v))
      case "updated" | "published" =>
        if v.DateFrom? then Ok([Element(tag, Undefined, TextNode(v))]) else Err(TypeError)
      case "content" => Ok(ContentElement(v))
      case _ => Ok([])
  }

  /** The elements of the first `k` blocks, or the error of the first failing one. */
  function EmitUpTo(data: Val, k: nat): (r: Result<seq<Node>, FeedError>)
    requires k <= |ElementOrder|
    ensures r.Err? ==> r.error == TypeError
  {
    if k == 0 then Ok([])
    else match EmitUpTo(data, k - 1)
      case Err(e) => Err(e)
      case Ok(before) =>
        match Part(data, ElementOrder[k - 1])
        case Err(e) => Err(e)
        case Ok(nodes) => Ok(before + nodes)
  }

  /** Everything handleAtomElement appends for `data`. */
  function Emitted(data: Val): (r: Result<seq<Node>, FeedError>)
    ensures r.Err? ==> r.error == TypeError
  {
    if Nullish(data) then Err(TypeError) else EmitUpTo(data, |ElementOrder|)
  }

  /** The elements of the first `k` blocks are ordered by rank, each is below `k`,
      and each comes from a present field. */
  lemma {:induction false} EmitUpToOrdered(data: Val, k: nat)
    requires k <= |ElementOrder|
    requires EmitUpTo(data, k).Ok?
    ensures var ns := EmitUpTo(data, k).value;
      forall i :: 0 <= i < |ns| ==> ns[i].Element? && Rank(ns[i].tag) < k && Truthy(OptGet(data, ns[i].tag))
    ensures var ns := EmitUpTo(data, k).value;
      forall i, j :: 0 <= i < j < |ns| ==> Rank(TagOf(ns[i])) <= Rank(TagOf(ns[j]))
  {
    if k > 0 {
      EmitUpToOrdered(data, k - 1);
      RankOfOrder(k - 1);
      var before := EmitUpTo(data, k - 1).value;
      var nodes := Part(data, ElementOrder[k - 1]).value;
      assert EmitUpTo(data, k).value == before + nodes;
      assert forall i :: 0 <= i < |nodes| ==> Rank(nodes[i].tag) == k - 1;
      assert forall i :: 0 <= i < |nodes| ==> Truthy(OptGet(data, nodes[i].tag));
    }
  }

  /** Elements are emitted in the fixed order author, category, contributor,
      generator, icon, id, link, logo, rights, subtitle, title, updated, content,
      published, summary, and only for fields that are present. */
  lemma EmissionOrder(data: Val)
    requires Emitted(data).Ok?
    ensures var ns := Emitted(data).value;
      forall i, j :: 0 <= i < j < |ns| ==> Rank(TagOf(ns[i])) <= Rank(TagOf(ns[j]))
    ensures var ns := Emitted(data).value;
      forall i :: 0 <= i < |ns| ==> ns[i].Element? && ns[i].tag in ElementOrder && Truthy(OptGet(data, ns[i].tag))
  {
    EmitUpToOrdered(data, |ElementOrder|);
    var ns := Emitted(data).value;
    forall i | 0 <= i < |ns|
      ensures ns[i].tag in ElementOrder
    {
      assert Rank(ns[i].tag) < 15;
    }
  }

  /** The parts of blocks before `k` are all in `EmitUpTo(data, k)`. */
  lemma {:induction false} EmitUpToContainsPart(data: Val, k: nat, m: nat)
    requires m < k <= |ElementOrder|
    requires EmitUpTo(data, k).Ok?
    ensures Part(data, ElementOrder[m]).Ok?
    ensures forall n :: n in Part(data, ElementOrder[m]).value ==> n in EmitUpTo(data, k).value
  {
    if m < k - 1 {
      EmitUpToContainsPart(data, k - 1, m);
    }
  }

  /** A present category, generator, icon, id, logo, updated or published field
      always yields its element. */
  lemma PresentFieldEmitted(data: Val, m: nat)
    requires m < |ElementOrder| && ElementOrder[m] in {"category", "generator", "icon", "id", "logo", "updated", "published"}
    requires Emitted(data).Ok? && Truthy(OptGet(data, ElementOrder[m]))
    ensures exists i :: 0 <= i < |Emitted(data).value| && TagOf(Emitted(data).value[i]) == ElementOrder[m]
  {
    EmitUpToContainsPart(data, |ElementOrder|, m);
    var nodes := Part(data, ElementOrder[m]).value;
    assert |nodes| == 1;
    assert nodes[0] in Emitted(data).value;
  }

  /** A plain string title has no `type`, so no title element is emitted. */
  lemma StringTitleEmitsNothing(s: string)
    ensures Part(Obj(map["title" := Str(s)]), "title") == Ok([])
  {
  }

  /** The document under construction; `Ele` appends one child element. */
  class Doc {
    var nodes: seq<Node>

    constructor ()
      ensures nodes == []
    {
      nodes := [];
    }

    method Ele(n: Node)
      modifies this
      ensures nodes == old(nodes) + [n]
    {
      nodes := nodes + [n];
    }

    /** Appends the elements one at a time, as the builder calls do. */
    method EleAll(ns: seq<Node>)
      modifies this
      ensures nodes == old(nodes) + ns
    {
      var i := 0;
      while i < |ns|
        invariant 0 <= i <= |ns|
        invariant nodes == old(nodes) + ns[..i]
      {
        Ele(ns[i]);
        assert ns[..i + 1] == ns[..i] + [ns[i]];
        i := i + 1;
      }
      assert ns[..i] == ns;
    }
  }

  /** handleAtomElement: the fifteen guarded blocks in their fixed order, each
      appending its elements to `doc`; a failing block throws. */
  method HandleAtomElement(doc: Doc, data: Val) returns (r: Result<(), FeedError>)
    modifies doc
    ensures r.Err? <==> Emitted(data).Err?
    ensures r.Err? ==> r.error == TypeError
    ensures r.Ok? ==> doc.nodes == old(doc.nodes) + Emitted(data).value
  {
    if Nullish(data) {
      return Err(TypeError);
    }
    ghost var start := doc.nodes;
    var k := 0;
    while k < |ElementOrder|
      invariant 0 <= k <= |ElementOrder|
      invariant EmitUpTo(data, k).Ok?
      invariant doc.nodes == start + EmitUpTo(data, k).value
    {
      var part := Part(data, ElementOrder[k]);
      if part.Err? {
        EmitUpToStaysFailed(data, k + 1);
        return Err(part.error);
      }
      doc.EleAll(part.value);
      EmitUpToStep(data, k);
      k := k + 1;
    }
    r := Ok(());
  }

  lemma EmitUpToStep(data: Val, k: nat)
    requires k < |ElementOrder| && EmitUpTo(data, k).Ok? && Part(data, ElementOrder[k]).Ok?
    ensures EmitUpTo(data, k + 1) == Ok(EmitUpTo(data, k).value + Part(data, ElementOrder[k]).value)
  {
  }

  /** Once a block fails, the emission up to every later block fails. */
  lemma {:induction false} EmitUpToStaysFailed(data: Val, k: nat)
    requires 0 < k <= |ElementOrder|
    requires EmitUpTo(data, k).Err?
    ensures Emitted(data).Err? || Nullish(data)
    decreases |ElementOrder| - k
  {
    if k < |ElementOrder| {
      EmitUpToStaysFailed(data, k + 1);
    }
  }

  /** The whole document buildAtomFeed builds: the feed's own elements, then one
      entry element per entry holding that entry's elements. */
  function FeedTree(feed: Val): (r: Result<seq<Node>, FeedError>)
    ensures r.Err? ==> r.error == TypeError
  {
    match Emitted(feed)
    case Err(e) => Err(e)
    case Ok(head) =>
      match Iter(OptGet(feed, "entry"))
      case Err(e) => Err(e)
      case Ok(entries) =>
        match EntriesTree(entries)
        case Err(e) => Err(e)
        case Ok(tail) => Ok(head + tail)
  }

  function EntriesTree(entries: seq<Val>): (r: Result<seq<Node>, FeedError>)
    ensures r.Ok? <==> forall i :: 0 <= i < |entries| ==> Emitted(entries[i]).Ok?
    ensures r.Err? ==> r.error == TypeError
    ensures r.Ok? ==> (|r.value| == |entries| &&
      forall i :: 0 <= i < |entries| ==> r.value[i] == EntryElement(Emitted(entries[i]).value))
  {
    if entries == [] then Ok([])
    else match EntriesTree(entries[..|entries| - 1])
      case Err(e) => Err(e)
      case Ok(before) =>
        match Emitted(entries[|entries| - 1])
        case Err(e) => Err(e)
        case Ok(children) => Ok(before + [EntryElement(children)])
  }

  /** A built document starts with the feed's elements, in order, and continues with
      exactly one entry element per entry, in entry order. */
  lemma FeedTreeShape(feed: Val)
    requires FeedTree(feed).Ok?
    ensures var t := FeedTree(feed).value; var head := Emitted(feed).value;
      var entries := Iter(OptGet(feed, "entry")).value;
      && t[..|head|] == head
      && |t| == |head| + |entries|
      && forall i :: 0 <= i < |entries| ==> t[|head| + i] == EntryElement(Emitted(entries[i]).value)
  {
  }

  /** buildAtomFeed, up to the serialisation of the document. */
  method BuildAtomFeed(feed: Val) returns (r: Result<seq<Node>, FeedError>)
    ensures r == FeedTree(feed)
  {
    var root := new Doc();
    var head := HandleAtomElement(root, feed);
    if head.Err? {
      return Err(head.error);
    }
    var entries := Iter(OptGet(feed, "entry"));
    if entries.Err? {
      return Err(entries.error);
    }
    var k := 0;
    while k < |entries.value|
      invariant 0 <= k <= |entries.value|
      invariant Emitted(feed).Ok? && EntriesTree(entries.value[..k]).Ok?
      invariant root.nodes == Emitted(feed).value + EntriesTree(entries.value[..k]).value
      modifies root
    {
      var entryDoc := new Doc();
      var done := HandleAtomElement(entryDoc, entries.value[k]);
      assert entries.value[..k + 1][..k] == entries.value[..k];
      assert entries.value[..k + 1][k] == entries.value[k];
      if done.Err? {
        EntriesTreeStaysFailed(entries.value, k + 1);
        return Err(done.error);
      }
      assert entryDoc.nodes == Emitted(entries.value[k]).value;
      ghost var before := root.nodes;
      root.Ele(EntryElement(entryDoc.nodes));
      assert root.nodes == before + [EntryElement(Emitted(entries.value[k]).value)];
      assert EntriesTree(entries.value[..k + 1]).value ==
             EntriesTree(entries.value[..k]).value + [EntryElement(Emitted(entries.value[k]).value)];
      k := k + 1;
    }
    assert entries.value[..k] == entries.value;
    r := Ok(root.nodes);
  }

  lemma EntriesTreeStaysFailed(entries: seq<Val>, k: nat)
    requires 0 < k <= |entries|
    requires EntriesTree(entries[..k]).Err?
    ensures EntriesTree(entries).Err?
  {
    assert !Emitted(entries[..k][k - 1]).Ok? || exists i :: 0 <= i < k && !Emitted(entries[..k][i]).Ok?;
  }
}
