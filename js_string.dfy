/** The JavaScript string operations the two core files rely on:
    `String.prototype.trim`, `s.split(',')[0]` and the `s || fallback` idiom. */
module JsString {
  import opened Geo

  /** The characters `trim` removes: ECMAScript WhiteSpace (tab, vertical tab,
      form feed, the byte-order mark and every space separator) and
      LineTerminator (line feed, carriage return, U+2028, U+2029). */
  const WHITESPACE: set<char> := {
    '\t', '\n', '\U{000B}', '\U{000C}', '\r', ' ', '\U{00A0}', '\U{1680}',
    '\U{2000}', '\U{2001}', '\U{2002}', '\U{2003}', '\U{2004}', '\U{2005}',
    '\U{2006}', '\U{2007}', '\U{2008}', '\U{2009}', '\U{200A}',
    '\U{2028}', '\U{2029}', '\U{202F}', '\U{205F}', '\U{3000}', '\U{FEFF}'
  }

  predicate IsWhitespace(c: char) {
    c in WHITESPACE
  }

  /** The first index at or after `i` that does not hold whitespace
      (`|s|` if there is none). */
  function SkipLeading(s: string, i: nat): (r: nat)
    requires i <= |s|
    ensures i <= r <= |s|
    ensures r < |s| ==> !IsWhitespace(s[r])
    ensures forall k :: i <= k < r ==> IsWhitespace(s[k])
    decreases |s| - i
  {
    if i < |s| && IsWhitespace(s[i]) then SkipLeading(s, i + 1) else i
  }

  /** The end of `s[lo..j]` once its trailing whitespace is dropped. */
  function SkipTrailing(s: string, lo: nat, j: nat): (r: nat)
    requires lo <= j <= |s|
    ensures lo <= r <= j
    ensures lo < r ==> !IsWhitespace(s[r - 1])
    ensures forall k :: r <= k < j ==> IsWhitespace(s[k])
  {
    if lo < j && IsWhitespace(s[j - 1]) then SkipTrailing(s, lo, j - 1) else j
  }

  /** `s.trim()`: `s` without its leading and trailing whitespace. */
  function Trim(s: string): (r: string)
    ensures |r| <= |s|
    ensures r != [] ==> !IsWhitespace(r[0]) && !IsWhitespace(r[|r| - 1])
  {
    var start := SkipLeading(s, 0);
    s[start..SkipTrailing(s, start, |s|)]
  }

  /** The trimmed text is the slice of `s` that starts after its leading
      whitespace and stops before its trailing whitespace. */
  lemma TrimIsSlice(s: string)
    ensures var i := SkipLeading(s, 0);
      i + |Trim(s)| <= |s| && Trim(s) == s[i..i + |Trim(s)|]
      && (forall k :: 0 <= k < i ==> IsWhitespace(s[k]))
      && (forall k :: i + |Trim(s)| <= k < |s| ==> IsWhitespace(s[k]))
  {
  }

  /** Trimming twice is trimming once. */
  lemma {:induction false} TrimIdempotent(s: string)
    ensures Trim(Trim(s)) == Trim(s)
  {
    var r := Trim(s);
    assert SkipLeading(r, 0) == 0;
    assert SkipTrailing(r, 0, |r|) == |r|;
  }

  /** The number of UTF-16 code units `c` takes: two for a character outside
      the Basic Multilingual Plane (a surrogate pair), one otherwise. */
  function Utf16Width(c: char): nat {
    if c > '\U{FFFF}' then 2 else 1
  }

  /** `s.length` in JavaScript, which counts UTF-16 code units, not characters. */
  function Utf16Length(s: string): (n: nat)
    ensures |s| <= n <= 2 * |s|
  {
    if s == [] then 0 else Utf16Width(s[0]) + Utf16Length(s[1..])
  }

  /** The length of a concatenation is the sum of the lengths. */
  lemma {:induction false} Utf16LengthAppend(x: string, y: string)
    ensures Utf16Length(x + y) == Utf16Length(x) + Utf16Length(y)
  {
    if x == [] {
      assert x + y == y;
    } else {
      assert (x + y)[1..] == x[1..] + y;
      Utf16LengthAppend(x[1..], y);
    }
  }

  /** A slice of `s` is no longer than a wider slice of `s`. */
  lemma {:induction false} Utf16LengthSlice(s: string, lo: nat, i: nat, j: nat, hi: nat)
    requires lo <= i <= j <= hi <= |s|
    ensures Utf16Length(s[i..j]) <= Utf16Length(s[lo..hi])
  {
    assert s[lo..hi] == s[lo..i] + s[i..j] + s[j..hi];
    Utf16LengthAppend(s[lo..i] + s[i..j], s[j..hi]);
    Utf16LengthAppend(s[lo..i], s[i..j]);
  }

  /** A query shorter than this, once trimmed, is never sent to the geocoder. */
  const MIN_QUERY_LENGTH: nat := 3

  /** `text.trim().length >= 3`, the length counted in UTF-16 code units. Only
      a text at least that long can pass. */
  predicate Searchable(text: string)
    ensures Searchable(text) ==> Utf16Length(text) >= MIN_QUERY_LENGTH
  {
    TrimIsSlice(text);
    Utf16LengthSlice(text, 0, SkipLeading(text, 0), SkipLeading(text, 0) + |Trim(text)|, |text|);
    assert text[0..|text|] == text;
    Utf16Length(Trim(text)) >= MIN_QUERY_LENGTH
  }

  /** `s[i]` and `s[j]`, `i <= j`, are non-whitespace characters and the
      stretch from the one to the other takes three UTF-16 code units. */
  ghost predicate SpanAt(s: string, i: int, j: int) {
    0 <= i <= j < |s| && !IsWhitespace(s[i]) && !IsWhitespace(s[j])
    && Utf16Length(s[i..j + 1]) >= MIN_QUERY_LENGTH
  }

  /** `s` holds such a stretch somewhere. */
  ghost predicate SpansThreeUnits(s: string) {
    exists i, j :: SpanAt(s, i, j)
  }

  /** The trimmed text itself runs from one non-whitespace character to
      another. */
  lemma {:induction false} SearchableSpans(s: string)
    requires Searchable(s)
    ensures SpansThreeUnits(s)
  {
    var r := Trim(s);
    var a := SkipLeading(s, 0);
    TrimIsSlice(s);
    var i, j := a, a + |r| - 1;
    assert s[i] == r[0] && s[j] == r[|r| - 1];
    assert s[i..j + 1] == r;
    assert SpanAt(s, i, j);
  }

  /** Any stretch between two non-whitespace characters lies inside the
      trimmed text, which is therefore at least as long. */
  lemma {:induction false} SpansSearchable(s: string)
    requires SpansThreeUnits(s)
    ensures Searchable(s)
  {
    var r := Trim(s);
    var a := SkipLeading(s, 0);
    TrimIsSlice(s);
    var i, j :| SpanAt(s, i, j);
    var n := |r|;
    assert a <= i && j < a + n;
    Utf16LengthSlice(s, a, i, j + 1, a + n);
  }

  /** A text is searchable exactly when it spans three code units: the trimmed
      length depends only on where the first and the last non-whitespace
      characters are. */
  lemma {:induction false} SearchableIff(s: string)
    ensures Searchable(s) <==> SpansThreeUnits(s)
  {
    if Searchable(s) {
      SearchableSpans(s);
    }
    if SpansThreeUnits(s) {
      SpansSearchable(s);
    }
  }

  /** A text of three or more code units (in particular, of three or more
      characters) none of which is whitespace is searchable as it stands. */
  lemma {:induction false} SearchableWithoutWhitespace(s: string)
    requires Utf16Length(s) >= MIN_QUERY_LENGTH
    requires forall k :: 0 <= k < |s| ==> !IsWhitespace(s[k])
    ensures Searchable(s) && Trim(s) == s
  {
    assert SkipLeading(s, 0) == 0;
    assert SkipTrailing(s, 0, |s|) == |s|;
  }

  /** One character outside the Basic Multilingual Plane and one letter make a
      searchable text: two characters, but three code units. */
  lemma AstralCharacterCountsTwice()
    ensures |"\U{1F600}a"| == 2 && Searchable("\U{1F600}a")
  {
    var s := "\U{1F600}a";
    assert Utf16Length(s) == 2 + Utf16Length(s[1..]) == 3;
    SearchableWithoutWhitespace(s);
  }

  /** `p` is `s.split(',')[0]`: a comma-free prefix of `s` that is either all
      of `s` or is followed in `s` by a comma. */
  ghost predicate IsFirstSegment(p: string, s: string) {
    |p| <= |s| && s[..|p|] == p && ',' !in p && (|p| == |s| || s[|p|] == ',')
  }

  /** `s.split(',')[0]`. */
  function FirstSegment(s: string): (r: string)
    ensures IsFirstSegment(r, s)
  {
    if s == [] || s[0] == ',' then [] else [s[0]] + FirstSegment(s[1..])
  }

  /** The first segment is the only string with the properties of one. */
  lemma {:induction false} FirstSegmentUnique(p: string, s: string)
    requires IsFirstSegment(p, s)
    ensures p == FirstSegment(s)
  {
    var r := FirstSegment(s);
    assert p == s[..|p|] == r;
  }

  /** A string without commas is its own first segment. */
  lemma {:induction false} FirstSegmentNoComma(s: string)
    requires ',' !in s
    ensures FirstSegment(s) == s
  {
    FirstSegmentUnique(s, s);
  }

  /** Splitting `head + "," + tail` yields `head` when `head` has no comma. */
  lemma {:induction false} FirstSegmentOfJoin(head: string, tail: string)
    requires ',' !in head
    ensures FirstSegment(head + [','] + tail) == head
  {
    var s := head + [','] + tail;
    assert s[..|head|] == head && s[|head|] == ',';
    FirstSegmentUnique(head, s);
  }

  /** JavaScript truthiness of a possibly missing string: present and non-empty. */
  predicate Truthy(v: Option<string>) {
    v.Some? && v.value != ""
  }

  /** `v || fallback` on a possibly missing string. */
  function OrElse(v: Option<string>, fallback: string): string {
    if Truthy(v) then v.value else fallback
  }
}
