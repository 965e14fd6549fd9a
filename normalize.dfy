/** The response normalizer: markup stripping (`replace(/<[^>]*>/g, '')`
    followed by `trim()`), `substring(0, n)` truncation, zero-means-unset
    timestamps and 0/1 flags. */
module Normalize {
  import opened Js

  // ---------------------------------------------------------------------
  // String.prototype.trim

  /** The characters `trim()` removes: ECMAScript WhiteSpace and
      LineTerminator code points. */
  predicate IsJsWhitespace(c: char) {
    || ('\U{0009}' <= c <= '\U{000D}')
    || c == ' ' || c == '\U{00A0}' || c == '\U{1680}'
    || ('\U{2000}' <= c <= '\U{200A}')
    || c == '\U{2028}' || c == '\U{2029}' || c == '\U{202F}' || c == '\U{205F}'
    || c == '\U{3000}' || c == '\U{FEFF}'
  }

  function TrimStart(s: string): string
    decreases |s|
  {
    if s != [] && IsJsWhitespace(s[0]) then TrimStart(s[1..]) else s
  }

  function TrimEnd(s: string): string
    decreases |s|
  {
    if s != [] && IsJsWhitespace(s[|s| - 1]) then TrimEnd(s[..|s| - 1]) else s
  }

  function Trim(s: string): string {
    TrimEnd(TrimStart(s))
  }

  predicate Trimmed(s: string) {
    s == [] || (!IsJsWhitespace(s[0]) && !IsJsWhitespace(s[|s| - 1]))
  }

  // ---------------------------------------------------------------------
  // replace(/<[^>]*>/g, '')

  /** Position of the first '>' at or after `from`. */
  function CloseAt(s: string, from: nat): (k: nat)
    requires from <= |s| && '>' in s[from..]
    ensures from <= k < |s| && s[k] == '>'
    ensures forall j :: from <= j < k ==> s[j] != '>'
    decreases |s| - from
  {
    if s[from] == '>' then from
    else
      assert s[from..] == [s[from]] + s[from + 1..];
      CloseAt(s, from + 1)
  }

  /** The global replace of `<[^>]*>` by nothing. Scanning from the left, a
      '<' that has some '>' after it starts a match that ends at the first
      such '>' (the class `[^>]` takes every other character, line breaks
      included); the match is removed and scanning resumes after it, without
      looking again at what came before. A '<' with no '>' anywhere after it
      does not match and stays. */
  function StripTags(s: string): string
    decreases |s|
  {
    if s == [] then []
    else if s[0] == '<' && '>' in s[1..] then StripTags(s[CloseAt(s, 1) + 1..])
    else [s[0]] + StripTags(s[1..])
  }

  /** `stripHtml` of src/tools/forums.ts, also written inline in course
      summaries. */
  function StripHtml(html: string): string {
    Trim(StripTags(html))
  }

  /** `s.substring(0, n)` (lengths counted in Dafny characters). */
  function Truncate(s: string, n: nat): string {
    if |s| <= n then s else s[..n]
  }

  /** No '<' is followed, anywhere later, by a '>'. */
  predicate NoTag(s: string) {
    forall i, j :: 0 <= i < j < |s| && s[i] == '<' ==> s[j] != '>'
  }

  // ---------------------------------------------------------------------
  // Zero-means-unset timestamps and 0/1 flags

  /** An output date field: `null`, or the ISO-8601 rendering of
      `new Date(seconds * 1000)`. The rendering itself is left abstract. */
  datatype Timestamp = NoDate | IsoOf(seconds: Value)

  /** `v ? new Date(v * 1000).toISOString() : null` */
  function DateOrNull(v: Value): Timestamp {
    if Truthy(v) then IsoOf(v) else NoDate
  }

  /** `v === 1` */
  predicate IsOne(v: Value) {
    StrictEq(v, Num(1))
  }

  // ---------------------------------------------------------------------
  // {...record, f1: date(record.f1), ...}

  /** A field of a reshaped record: passed through, or a converted date. */
  datatype Field = Raw(value: Value) | Date(time: Timestamp)

  /** The own fields `{...v}` copies. Only objects are spread here. */
  function Spread(v: Value): map<string, Value> {
    if v.Obj? then v.fields else map[]
  }

  /** `{...record, f: record.f ? new Date(record.f * 1000).toISOString() : null, ...}`
      for the date fields `dates`: the dates are converted, every other
      field passes through, nothing is added. Reading a date field of null
      or undefined throws. */
  function WithDates(record: Value, dates: seq<string>): (r: Result<map<string, Field>>)
    ensures r.Err? <==> Nullish(record) && dates != []
    ensures r.Ok? ==> forall k :: k in dates ==> k in r.value && r.value[k] == Date(DateOrNull(Prop(record, k)))
    ensures r.Ok? ==> forall k :: k in Spread(record) && k !in dates ==>
                        k in r.value && r.value[k] == Raw(Spread(record)[k])
    ensures r.Ok? ==> forall k :: k in r.value ==> k in Spread(record) || k in dates
  {
    if dates != [] && Nullish(record) then
      Err(Get(record, dates[0]).error)
    else
      var fields := Spread(record);
      Ok(map k | k in fields.Keys + (set d | d in dates) ::
           if k in dates then Date(DateOrNull(Prop(record, k))) else Raw(fields[k]))
  }

  // ---------------------------------------------------------------------
  // Lemmas

  /** A zero, null or absent timestamp is never rendered; any other number
      is rendered from exactly that number. */
  lemma DateOrNullZeroIsUnset(v: Value)
    ensures DateOrNull(v) == NoDate <==> !Truthy(v)
    ensures DateOrNull(Num(0)) == NoDate && DateOrNull(Null) == NoDate && DateOrNull(Undefined) == NoDate
    ensures v.Num? && v.n != 0 ==> DateOrNull(v) == IsoOf(v)
  {
  }

  /** The flag is set by the number 1 only: `true` and `"1"` are not 1. */
  lemma IsOneOnlyForNumberOne(v: Value)
    ensures IsOne(v) <==> v == Num(1)
    ensures !IsOne(Bool(true)) && !IsOne(Str("1"))
  {
  }

  lemma {:induction false} TrimStartKeepsSuffix(s: string)
    ensures |TrimStart(s)| <= |s| && TrimStart(s) == s[|s| - |TrimStart(s)|..]
    ensures TrimStart(s) == [] || !IsJsWhitespace(TrimStart(s)[0])
    ensures forall i :: 0 <= i < |s| - |TrimStart(s)| ==> IsJsWhitespace(s[i])
    decreases |s|
  {
    if s != [] && IsJsWhitespace(s[0]) {
      TrimStartKeepsSuffix(s[1..]);
    }
  }

  lemma {:induction false} TrimEndKeepsPrefix(s: string)
    ensures |TrimEnd(s)| <= |s| && TrimEnd(s) == s[..|TrimEnd(s)|]
    ensures TrimEnd(s) == [] || !IsJsWhitespace(TrimEnd(s)[|TrimEnd(s)| - 1])
    ensures forall i :: |TrimEnd(s)| <= i < |s| ==> IsJsWhitespace(s[i])
    decreases |s|
  {
    if s != [] && IsJsWhitespace(s[|s| - 1]) {
      var t := s[..|s| - 1];
      TrimEndKeepsPrefix(t);
      assert t[..|TrimEnd(t)|] == s[..|TrimEnd(t)|];
    }
  }

  lemma {:induction false} TrimEndKeepsFirst(s: string)
    requires s == [] || !IsJsWhitespace(s[0])
    ensures TrimEnd(s) == [] || !IsJsWhitespace(TrimEnd(s)[0])
  {
    TrimEndKeepsPrefix(s);
  }

  /** `trim()` leaves no whitespace at either end, and takes nothing but
      whitespace from the ends. */
  lemma TrimIsTrimmed(s: string)
    ensures Trimmed(Trim(s))
    ensures exists a, b :: 0 <= a <= b <= |s| && Trim(s) == s[a..b]
  {
    TrimStartKeepsSuffix(s);
    TrimEndKeepsPrefix(TrimStart(s));
    TrimEndKeepsFirst(TrimStart(s));
    var a := |s| - |TrimStart(s)|;
    assert Trim(s) == s[a..a + |Trim(s)|];
  }

  lemma {:induction false} TrimStartOfTrimmed(s: string)
    requires s == [] || !IsJsWhitespace(s[0])
    ensures TrimStart(s) == s
  {
  }

  lemma {:induction false} TrimEndOfTrimmed(s: string)
    requires s == [] || !IsJsWhitespace(s[|s| - 1])
    ensures TrimEnd(s) == s
  {
  }

  /** Trimming twice is trimming once. */
  lemma TrimIdempotent(s: string)
    ensures Trim(Trim(s)) == Trim(s)
  {
    TrimIsTrimmed(s);
    var t := Trim(s);
    TrimStartOfTrimmed(t);
    TrimEndOfTrimmed(t);
  }

  /** Every character left by StripTags was in the input. */
  lemma {:induction false} StripTagsKeepsOnlyInputChars(s: string)
    ensures forall c :: c in StripTags(s) ==> c in s
    decreases |s|
  {
    if s != [] {
      if s[0] == '<' && '>' in s[1..] {
        var k := CloseAt(s, 1);
        StripTagsKeepsOnlyInputChars(s[k + 1..]);
        assert forall c :: c in s[k + 1..] ==> c in s;
      } else {
        StripTagsKeepsOnlyInputChars(s[1..]);
        assert forall c :: c in s[1..] ==> c in s;
      }
    }
  }

  /** After StripTags no '<' is followed anywhere later by a '>'; unmatched
      '<' or '>' characters can remain. */
  lemma {:induction false} StripTagsLeavesNoTag(s: string)
    ensures NoTag(StripTags(s))
    decreases |s|
  {
    if s != [] {
      if s[0] == '<' && '>' in s[1..] {
        StripTagsLeavesNoTag(s[CloseAt(s, 1) + 1..]);
      } else {
        var rest := StripTags(s[1..]);
        StripTagsLeavesNoTag(s[1..]);
        if s[0] == '<' {
          StripTagsKeepsOnlyInputChars(s[1..]);
          assert '>' !in rest;
        }
        var r := [s[0]] + rest;
        assert r == StripTags(s);
        forall i, j | 0 <= i < j < |r| && r[i] == '<'
          ensures r[j] != '>'
        {
          assert r[j] == rest[j - 1];
          if i > 0 {
            assert r[i] == rest[i - 1];
          }
        }
      }
    }
  }

  /** Text that already has no tag is left as it is. */
  lemma {:induction false} StripTagsOfNoTag(s: string)
    requires NoTag(s)
    ensures StripTags(s) == s
    decreases |s|
  {
    if s != [] {
      if s[0] == '<' {
        assert forall j :: 0 <= j < |s[1..]| ==> s[1..][j] == s[j + 1];
        assert '>' !in s[1..];
      }
      assert NoTag(s[1..]) by {
        forall i, j | 0 <= i < j < |s[1..]| && s[1..][i] == '<'
          ensures s[1..][j] != '>'
        {
          assert s[1..][i] == s[i + 1] && s[1..][j] == s[j + 1];
        }
      }
      StripTagsOfNoTag(s[1..]);
    }
  }

  lemma NoTagSlice(s: string, a: nat, b: nat)
    requires NoTag(s) && a <= b <= |s|
    ensures NoTag(s[a..b])
  {
    var t := s[a..b];
    forall i, j | 0 <= i < j < |t| && t[i] == '<'
      ensures t[j] != '>'
    {
      assert t[i] == s[a + i] && t[j] == s[a + j];
    }
  }

  /** stripHtml leaves no tag: no '<' in its result is followed by a '>'. */
  lemma StripHtmlLeavesNoTag(html: string)
    ensures NoTag(StripHtml(html))
  {
    StripTagsLeavesNoTag(html);
    TrimIsTrimmed(StripTags(html));
    var a, b :| 0 <= a <= b <= |StripTags(html)| && Trim(StripTags(html)) == StripTags(html)[a..b];
    NoTagSlice(StripTags(html), a, b);
  }

  /** stripHtml is idempotent. */
  lemma StripHtmlIdempotent(html: string)
    ensures StripHtml(StripHtml(html)) == StripHtml(html)
  {
    StripHtmlLeavesNoTag(html);
    StripTagsOfNoTag(StripHtml(html));
    TrimIdempotent(StripTags(html));
  }

  /** A truncated text has at most `n` characters, is a prefix of the text,
      and is the whole text when that was short enough. */
  lemma TruncateIsBoundedPrefix(s: string, n: nat)
    ensures |Truncate(s, n)| <= n && Truncate(s, n) <= s
    ensures |s| <= n ==> Truncate(s, n) == s
    ensures |s| > n ==> |Truncate(s, n)| == n
  {
  }

  /** A shortened stripped text still has no tag. */
  lemma StrippedAndTruncatedHasNoTag(html: string, n: nat)
    ensures NoTag(Truncate(StripHtml(html), n))
    ensures |Truncate(StripHtml(html), n)| <= n
  {
    StripHtmlLeavesNoTag(html);
    var t := StripHtml(html);
    if |t| > n {
      NoTagSlice(t, 0, n);
    }
  }

  /** The pattern removes only complete tags: stray angle brackets stay, so
      stripped text can still contain '<' or '>'. */
  lemma StrayBracketsRemain()
    ensures StripTags("a<b") == "a<b"
    ensures StripTags("a>b") == "a>b"
  {
    assert StripTags("b") == "b";
    assert StripTags("<b") == "<b";
    assert StripTags(">b") == ">b";
  }
}
