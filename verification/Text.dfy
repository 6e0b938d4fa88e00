/** The few string operations of the source languages that the model needs. */
module Text {

  import opened Outcome

  // White space as str.strip sees it.
  predicate IsSpace(c: char) {
    || c == ' ' || '\t' <= c <= '\r' || '\U{1c}' <= c <= '\U{1f}' || c == '\U{85}' || c == '\U{a0}' || c == '\U{1680}'
    || '\U{2000}' <= c <= '\U{200a}' || '\U{2028}' <= c <= '\U{2029}' || c == '\U{202f}' || c == '\U{205f}' || c == '\U{3000}'
  }

  predicate IsDigit(c: char) {
    '0' <= c <= '9'
  }

  predicate AllDigits(s: string) {
    s != "" && forall i :: 0 <= i < |s| ==> IsDigit(s[i])
  }

  // ---- Digits beyond ASCII -------------------------------------------------------------------

  type Figure = d: nat | d < 10

  // Which other characters are digits, and which of these are decimal, is up to the Unicode version of
  // the interpreter: any table will do.
  datatype Characters = Characters(digit: char -> bool, decimal: char -> Option<Figure>)

  const BEYOND_ASCII: Characters

  // Digits in every version that are not decimal.
  predicate IsSuperscript(c: char) {
    '\U{b2}' <= c <= '\U{b3}' || c == '\U{b9}'
  }

  // The figure that `int` reads; full-width ones are decimal in every version.
  function DecimalValue(c: char): Option<Figure> {
    if IsDigit(c) then Some((c - '0') as Figure)
    else if '\U{ff10}' <= c <= '\U{ff19}' then Some((c - '\U{ff10}') as Figure)
    else if c < '\U{80}' || IsSuperscript(c) then None
    else BEYOND_ASCII.decimal(c)
  }

  // str.isdigit accepts every decimal, and more.
  predicate CountsAsDigit(c: char) {
    DecimalValue(c).Some? || IsSuperscript(c) || ('\U{80}' <= c && BEYOND_ASCII.digit(c))
  }

  // str.isdigit
  predicate AllCountAsDigits(s: string) {
    s != "" && forall i :: 0 <= i < |s| ==> CountsAsDigit(s[i])
  }

  predicate AllDecimal(s: string) {
    forall i :: 0 <= i < |s| ==> DecimalValue(s[i]).Some?
  }

  // The interpreter's limit for conversions from and to text.
  const MAX_INT_DIGITS := 4300

  // `int` converts the text; on a text of digits it raises otherwise.
  predicate Convertible(s: string) {
    AllDecimal(s) && |s| <= MAX_INT_DIGITS
  }

  function StripLeft(s: string): string {
    if s != "" && IsSpace(s[0]) then StripLeft(s[1..]) else s
  }

  function StripRight(s: string): string {
    if s != "" && IsSpace(s[|s| - 1]) then StripRight(s[..|s| - 1]) else s
  }

  function Strip(s: string): string {
    StripRight(StripLeft(s))
  }

  // The position of the first occurrence of a character, or the length.
  function Find(s: string, c: char): (r: nat)
    ensures r <= |s| && (r < |s| ==> s[r] == c)
    ensures forall i :: 0 <= i < r ==> s[i] != c
  {
    if s == "" || s[0] == c then 0 else 1 + Find(s[1..], c)
  }

  // str.split on one character: never empty.
  function Split(s: string, separator: char): (r: seq<string>)
    ensures r != []
  {
    var i := Find(s, separator);
    if i == |s| then [s] else [s[..i]] + Split(s[i + 1..], separator)
  }

  // str.join with one character.
  function Join(parts: seq<string>, separator: char): string {
    if parts == [] then ""
    else if |parts| == 1 then parts[0]
    else parts[0] + [separator] + Join(parts[1..], separator)
  }

  lemma FindIs(s: string, c: char, i: nat)
    requires i <= |s| && (forall j :: 0 <= j < i ==> s[j] != c) && (i < |s| ==> s[i] == c)
    ensures Find(s, c) == i
  {
  }

  lemma {:induction false} SplitJoin(parts: seq<string>, separator: char)
    requires parts != [] && forall i :: 0 <= i < |parts| ==> separator !in parts[i]
    ensures Split(Join(parts, separator), separator) == parts
  {
    var text := Join(parts, separator);
    if |parts| == 1 {
      FindIs(text, separator, |text|);
    } else {
      var tail := Join(parts[1..], separator);
      assert text == parts[0] + [separator] + tail;
      FindIs(text, separator, |parts[0]|);
      assert text[..|parts[0]|] == parts[0] && text[|parts[0]| + 1..] == tail;
      SplitJoin(parts[1..], separator);
      assert parts == [parts[0]] + parts[1..];
    }
  }

  lemma StripNothing(s: string)
    requires s != "" ==> !IsSpace(s[0]) && !IsSpace(s[|s| - 1])
    ensures Strip(s) == s
  {
  }

  // ---- Words -------------------------------------------------------------------------------

  // The pieces of a text between white space.
  function Words(s: string): (r: seq<string>)
    ensures s != "" && !IsSpace(s[0]) ==> r != []
  {
    if s == "" then []
    else if IsSpace(s[0]) then Words(s[1..])
    else
      var rest := Words(s[1..]);
      if |s| > 1 && !IsSpace(s[1]) then [[s[0]] + rest[0]] + rest[1..] else [[s[0]]] + rest
  }

  ghost predicate Solid(words: seq<string>) {
    forall i :: 0 <= i < |words| ==> words[i] != "" && forall j :: 0 <= j < |words[i]| ==> !IsSpace(words[i][j])
  }

  lemma {:induction false} WordsSolid(s: string)
    ensures Solid(Words(s))
  {
    if s != "" { WordsSolid(s[1..]); }
  }

  lemma {:induction false} JoinedEnds(words: seq<string>)
    requires Solid(words) && words != []
    ensures var t := Join(words, ' '); t != "" && !IsSpace(t[0]) && !IsSpace(t[|t| - 1])
  {
    if |words| > 1 {
      var tail := Join(words[1..], ' ');
      JoinedEnds(words[1..]);
      var t := Join(words, ' ');
      assert t == words[0] + [' '] + tail;
      assert t[|t| - 1] == tail[|tail| - 1];
    }
  }

  lemma {:induction false} StripLeftIs(s: string, t: string)
    requires t == "" || !IsSpace(t[0])
    requires forall i :: 0 <= i < |s| ==> IsSpace(s[i])
    ensures StripLeft(s + t) == t
  {
    if s == "" {
      assert s + t == t;
    } else {
      assert (s + t)[1..] == s[1..] + t;
      StripLeftIs(s[1..], t);
    }
  }

  lemma {:induction false} StripRightIs(t: string, s: string)
    requires t == "" || !IsSpace(t[|t| - 1])
    requires forall i :: 0 <= i < |s| ==> IsSpace(s[i])
    ensures StripRight(t + s) == t
  {
    if s == "" {
      assert t + s == t;
    } else {
      assert (t + s)[..|t + s| - 1] == t + s[..|s| - 1];
      StripRightIs(t, s[..|s| - 1]);
    }
  }

  // Stripping takes white space away at both ends, and nothing else.
  lemma StripIs(left: string, t: string, right: string)
    requires t != "" ==> !IsSpace(t[0]) && !IsSpace(t[|t| - 1])
    requires (forall i :: 0 <= i < |left| ==> IsSpace(left[i])) && forall i :: 0 <= i < |right| ==> IsSpace(right[i])
    ensures Strip(left + t + right) == t
  {
    if t == "" {
      StripLeftIs(left + right, "");
      assert left + t + right == left + right + "";
    } else {
      assert left + t + right == left + (t + right);
      StripLeftIs(left, t + right);
      StripRightIs(t, right);
    }
  }

  // ---- Decimal numerals ----------------------------------------------------------------------

  function DigitChar(d: nat): char
    requires d < 10
  {
    '0' + d as char
  }

  function DigitValue(c: char): Figure
    requires DecimalValue(c).Some?
  {
    DecimalValue(c).value
  }

  // str(n)
  function Decimal(n: nat): (r: string)
    ensures AllDigits(r)
  {
    if n < 10 then [DigitChar(n)] else Decimal(n / 10) + [DigitChar(n % 10)]
  }

  // int(s)
  function ParseDecimal(s: string): nat
    requires AllDecimal(s)
  {
    if s == "" then 0 else 10 * ParseDecimal(s[..|s| - 1]) + DigitValue(s[|s| - 1])
  }

  lemma {:induction false} DecimalRoundTrip(n: nat)
    ensures ParseDecimal(Decimal(n)) == n
  {
    if n < 10 {
      assert Decimal(n)[..0] == "";
      assert DigitValue(DigitChar(n)) == n;
    } else {
      DecimalRoundTrip(n / 10);
      var text := Decimal(n);
      assert text[..|text| - 1] == Decimal(n / 10);
      assert DigitValue(DigitChar(n % 10)) == n % 10;
    }
  }

  // A number has no more digits than a text it was read from.
  lemma {:induction false} DecimalShort(s: string)
    requires s != "" && AllDecimal(s)
    ensures |Decimal(ParseDecimal(s))| <= |s|
  {
    var n := |s| - 1;
    var before, last := ParseDecimal(s[..n]), DigitValue(s[n]);
    assert ParseDecimal(s) == 10 * before + last;
    if n > 0 {
      DecimalShort(s[..n]);
    } else {
      assert before == 0;
    }
  }

  lemma {:induction false} DecimalGrows(a: nat, b: nat)
    requires a <= b
    ensures |Decimal(a)| <= |Decimal(b)|
  {
    if b >= 10 && a >= 10 { DecimalGrows(a / 10, b / 10); }
  }

  lemma DigitsAreBare(s: string)
    requires AllDigits(s)
    ensures Strip(s) == s && ',' !in s && '-' !in s
  {
  }
}
