/** The pieces of Rust's `str` API that the bot relies on, over `string` (a sequence of
    Unicode scalar values, as a Rust `char` is): ASCII whitespace splitting and joining,
    ASCII case folding, `split_once`, `repeat`, the padding of `format!` width specifiers,
    `to_string` of an unsigned integer, `str::parse` of an unsigned integer type and the
    UTF-8 byte length that `str::len` reports. */
module Text {
  import opened Wrappers

  // ---------------------------------------------------------------------------------
  // ASCII whitespace, tokens and joining
  // ---------------------------------------------------------------------------------

  /** `u8::is_ascii_whitespace`: space, tab, line feed, form feed and carriage return
      (the vertical tab is not included). */
  predicate IsAsciiWhitespace(c: char) {
    c == ' ' || c == '\t' || c == '\n' || c == '\U{000C}' || c == '\r'
  }

  predicate NoWhitespace(s: string) {
    forall i :: 0 <= i < |s| ==> !IsAsciiWhitespace(s[i])
  }

  /** Length of the run of non-whitespace characters that starts `s`. */
  function WordLength(s: string): (n: nat)
    ensures n <= |s|
    ensures NoWhitespace(s[..n])
    ensures n < |s| ==> IsAsciiWhitespace(s[n])
  {
    if s == [] || IsAsciiWhitespace(s[0]) then 0
    else
      var n := 1 + WordLength(s[1..]);
      assert s[..n] == [s[0]] + s[1..][..n - 1];
      n
  }

  /** `str::split_ascii_whitespace`: the maximal non-empty runs of non-whitespace
      characters, in order. */
  function Tokens(s: string): (ts: seq<string>)
    ensures forall i :: 0 <= i < |ts| ==> ts[i] != [] && NoWhitespace(ts[i])
    decreases |s|
  {
    if s == [] then []
    else if IsAsciiWhitespace(s[0]) then Tokens(s[1..])
    else
      var n := WordLength(s);
      [s[..n]] + Tokens(s[n..])
  }

  /** `[&str]::join(" ")`. */
  function JoinSpace(ts: seq<string>): string {
    if |ts| == 0 then ""
    else if |ts| == 1 then ts[0]
    else ts[0] + " " + JoinSpace(ts[1..])
  }

  /** A header label collapsed the way the percentile table's labels are: split on ASCII
      whitespace and joined with one space. */
  function Normalize(s: string): string {
    JoinSpace(Tokens(s))
  }

  lemma {:induction false} WordLengthOfWord(w: string, rest: string)
    requires NoWhitespace(w)
    ensures WordLength(w + rest) == |w| + WordLength(rest)
  {
    if w == [] {
      assert w + rest == rest;
    } else {
      assert (w + rest)[0] == w[0];
      assert (w + rest)[1..] == w[1..] + rest;
      WordLengthOfWord(w[1..], rest);
    }
  }

  /** Whitespace before the text is skipped: it starts no token. */
  lemma TokensSkipsWhitespace(c: char, s: string)
    requires IsAsciiWhitespace(c)
    ensures Tokens([c] + s) == Tokens(s)
  {
    assert ([c] + s)[1..] == s;
  }

  /** A word that runs up to whitespace or to the end of the text is one whole token, and
      splitting carries on after it. Together with `TokensSkipsWhitespace` and
      `Tokens("") == []` this fixes `Tokens` on every text. */
  lemma TokensTakesWord(w: string, s: string)
    requires w != [] && NoWhitespace(w)
    requires s == [] || IsAsciiWhitespace(s[0])
    ensures Tokens(w + s) == [w] + Tokens(s)
  {
    WordLengthOfWord(w, s);
    assert WordLength(s) == 0;
    assert (w + s)[0] == w[0];
    assert (w + s)[..|w|] == w;
    assert (w + s)[|w|..] == s;
  }

  /** Splitting a space-joined list of words gives the words back. */
  lemma {:induction false} TokensOfJoin(ts: seq<string>)
    requires forall i :: 0 <= i < |ts| ==> ts[i] != [] && NoWhitespace(ts[i])
    ensures Tokens(JoinSpace(ts)) == ts
  {
    if |ts| == 0 {
    } else if |ts| == 1 {
      WordLengthOfWord(ts[0], []);
      assert ts[0] + [] == ts[0];
      assert ts[0][..|ts[0]|] == ts[0];
      assert ts[0][|ts[0]|..] == [];
    } else {
      var t, r := ts[0], JoinSpace(ts[1..]);
      var s := t + " " + r;
      assert s == t + (" " + r);
      WordLengthOfWord(t, " " + r);
      assert WordLength(s) == |t|;
      assert s[..|t|] == t;
      assert s[|t|..] == " " + r;
      assert (" " + r)[1..] == r;
      TokensOfJoin(ts[1..]);
      assert Tokens(s) == [t] + Tokens(" " + r);
      assert [t] + ts[1..] == ts;
    }
  }

  /** Normalising keeps the words of a label and is idempotent, so a label that is
      already in table form is dispatched as written. */
  lemma NormalizeKeepsTokens(s: string)
    ensures Tokens(Normalize(s)) == Tokens(s)
    ensures Normalize(Normalize(s)) == Normalize(s)
  {
    TokensOfJoin(Tokens(s));
  }

  // ---------------------------------------------------------------------------------
  // ASCII case folding
  // ---------------------------------------------------------------------------------

  function ToAsciiLower(c: char): (l: char)
    ensures 'A' <= c <= 'Z' ==> l as int == c as int + 32
    ensures !('A' <= c <= 'Z') ==> l == c
  {
    if 'A' <= c <= 'Z' then (c as int + 32) as char else c
  }

  /** `str::eq_ignore_ascii_case`. Rust compares UTF-8 bytes; every keyword the bot
      compares against is ASCII, and a non-ASCII character is never equal to an ASCII
      one under either comparison, so comparing characters gives the same answers. */
  predicate EqIgnoreAsciiCase(a: string, b: string) {
    |a| == |b| && forall i :: 0 <= i < |a| ==> ToAsciiLower(a[i]) == ToAsciiLower(b[i])
  }

  /** A word without whitespace never equals, ignoring case, a text that contains a space. */
  lemma NoWordMatchesSpaced(w: string, k: string, j: nat)
    requires NoWhitespace(w)
    requires j < |k| && k[j] == ' '
    ensures !EqIgnoreAsciiCase(w, k)
  {
    if |w| == |k| {
      assert !IsAsciiWhitespace(w[j]);
      assert ToAsciiLower(w[j]) != ' ';
    }
  }

  // ---------------------------------------------------------------------------------
  // Substrings
  // ---------------------------------------------------------------------------------

  predicate MatchAt(s: string, pat: string, j: nat) {
    j + |pat| <= |s| && s[j..j + |pat|] == pat
  }

  /** The first position at or after `k` where `pat` occurs in `s`. */
  function IndexFrom(s: string, pat: string, k: nat): (r: Option<nat>)
    ensures r.Some? ==> k <= r.value && MatchAt(s, pat, r.value)
    ensures r.Some? ==> forall j :: k <= j < r.value ==> !MatchAt(s, pat, j)
    ensures r.None? ==> forall j :: k <= j ==> !MatchAt(s, pat, j)
    decreases |s| - k
  {
    if k + |pat| > |s| then None
    else if s[k..k + |pat|] == pat then Some(k)
    else IndexFrom(s, pat, k + 1)
  }

  /** `str::split_once(pat).map(|x| x.0).unwrap_or(s)`: the text before the first
      occurrence of `pat`, or all of `s` when `pat` does not occur. */
  function BeforeFirst(s: string, pat: string): (r: string)
    ensures r <= s
    ensures |r| < |s| ==> MatchAt(s, pat, |r|)
    ensures forall j :: 0 <= j < |r| ==> !MatchAt(s, pat, j)
    ensures MatchAt(s, pat, |r|) || forall j :: 0 <= j ==> !MatchAt(s, pat, j)
  {
    match IndexFrom(s, pat, 0)
    case Some(i) => s[..i]
    case None => s
  }

  // ---------------------------------------------------------------------------------
  // Repetition and padding
  // ---------------------------------------------------------------------------------

  /** `str::repeat` of a one-character string. */
  function Repeat(c: char, n: nat): (r: string)
    ensures |r| == n
    ensures forall i :: 0 <= i < n ==> r[i] == c
  {
    seq(n, _ => c)
  }

  /** `format!("{s: <w$}")`: left-aligned in a field of `w` characters, never truncated. */
  function PadRight(s: string, w: nat): (r: string)
    ensures |r| == if |s| < w then w else |s|
    ensures r[..|s|] == s
    ensures forall i :: |s| <= i < |r| ==> r[i] == ' '
  {
    if |s| < w then s + Repeat(' ', w - |s|) else s
  }

  /** `format!("{s: >w$}")`: right-aligned in a field of `w` characters, never truncated. */
  function PadLeft(s: string, w: nat): (r: string)
    ensures |r| == if |s| < w then w else |s|
    ensures r[|r| - |s|..] == s
    ensures forall i :: 0 <= i < |r| - |s| ==> r[i] == ' '
  {
    if |s| < w then Repeat(' ', w - |s|) + s else s
  }

  // ---------------------------------------------------------------------------------
  // Decimal numbers
  // ---------------------------------------------------------------------------------

  predicate IsDigit(c: char) {
    '0' <= c <= '9'
  }

  predicate AllDigits(s: string) {
    forall i :: 0 <= i < |s| ==> IsDigit(s[i])
  }

  function DigitValue(c: char): nat
    requires IsDigit(c)
  {
    c as int - '0' as int
  }

  function DigitChar(d: nat): (c: char)
    requires d < 10
    ensures IsDigit(c) && DigitValue(c) == d
  {
    ('0' as int + d) as char
  }

  /** The value of a string of decimal digits, most significant first. */
  function DigitsValue(s: string): nat
    requires AllDigits(s)
  {
    if s == [] then 0 else DigitsValue(s[..|s| - 1]) * 10 + DigitValue(s[|s| - 1])
  }

  /** `u64::to_string` / `{}` formatting of an unsigned integer: shortest decimal form. */
  function NatToString(n: nat): (r: string)
    ensures r != [] && AllDigits(r)
    ensures |r| > 1 ==> r[0] != '0'
  {
    if n < 10 then [DigitChar(n)]
    else
      var r := NatToString(n / 10) + [DigitChar(n % 10)];
      assert r[0] == NatToString(n / 10)[0];
      r
  }

  /** `str::parse::<uN>()` where `max` is the type's largest value: an optional leading
      `+`, then at least one decimal digit and nothing else; leading zeros are accepted
      and a value above `max` is an overflow error. */
  function ParseUnsigned(s: string, max: nat): (r: Option<nat>)
    ensures r.Some? ==> r.value <= max
    ensures r.Some? <==> (var d := if s != [] && s[0] == '+' then s[1..] else s;
                          d != [] && AllDigits(d) && DigitsValue(d) <= max)
    ensures r.Some? ==> (var d := if s[0] == '+' then s[1..] else s;
                         AllDigits(d) && r.value == DigitsValue(d))
  {
    if s == [] then None
    else
      var digits := if s[0] == '+' then s[1..] else s;
      if digits == [] || !AllDigits(digits) then None
      else if DigitsValue(digits) <= max then Some(DigitsValue(digits))
      else None
  }

  const U8_MAX: nat := 0xFF
  const U16_MAX: nat := 0xFFFF
  const U64_MAX: nat := 0xFFFF_FFFF_FFFF_FFFF

  lemma {:induction false} DigitsOfNatToString(n: nat)
    ensures DigitsValue(NatToString(n)) == n
  {
    var r := NatToString(n);
    if n >= 10 {
      DigitsOfNatToString(n / 10);
      assert r[..|r| - 1] == NatToString(n / 10);
    }
  }

  /** Printing a number and parsing it back with a type wide enough gives the number. */
  lemma ParseOfNatToString(n: nat, max: nat)
    requires n <= max
    ensures ParseUnsigned(NatToString(n), max) == Some(n)
  {
    DigitsOfNatToString(n);
  }

  // ---------------------------------------------------------------------------------
  // UTF-8 length
  // ---------------------------------------------------------------------------------

  function Utf8Width(c: char): (w: nat)
    ensures 1 <= w <= 4
  {
    if c as int < 0x80 then 1
    else if c as int < 0x800 then 2
    else if c as int < 0x1_0000 then 3
    else 4
  }

  /** `str::len`: the number of bytes of the UTF-8 encoding, never fewer than the
      number of characters. */
  function Utf8Len(s: string): (n: nat)
    ensures n >= |s|
    ensures (forall i :: 0 <= i < |s| ==> s[i] as int < 0x80) ==> n == |s|
  {
    if s == [] then 0 else Utf8Width(s[0]) + Utf8Len(s[1..])
  }
}
