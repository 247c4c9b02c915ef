/** The parts of the JavaScript runtime that the client relies on: the values
    JSON.parse produces, the exceptions it can meet, and the String built-ins
    used to fill URL templates. */
module JsRuntime {
  import opened Wrappers

  /** A value produced by JSON.parse. */
  datatype Json =
    | JNull
    | JBool(b: bool)
    | JNumber(n: real)
    | JString(s: string)
    | JArray(items: seq<Json>)
    | JObject(fields: map<string, Json>)

  /** A JavaScript value as this client sees one: None is `undefined`. */
  type JsValue = Option<Json>

  /** The exceptions that matter here. */
  datatype JsError = TypeError | SyntaxError

  /** JSON.parse (reached through Response.json()): any total function from
      text to a value or a syntax error. Its internals are not modelled. */
  type JsonParser = string -> Result<Json, JsError>

  /** JSON.stringify on JSON values, likewise opaque. */
  type JsonStringifier = Json -> string

  // ---------------------------------------------------------------------
  // String.prototype.indexOf and String.prototype.replace (string pattern)
  // ---------------------------------------------------------------------

  /** `pat` occurs in `s` starting at index `i`. */
  predicate OccursAt(s: string, pat: string, i: nat)
  {
    i + |pat| <= |s| && s[i..i + |pat|] == pat
  }

  /** `i` is the leftmost index at which `pat` occurs in `s`. */
  predicate IsFirstOccurrence(s: string, pat: string, i: nat)
  {
    OccursAt(s, pat, i) && forall j :: 0 <= j < i ==> !OccursAt(s, pat, j)
  }

  /** Occurrences in `s` one place further right are occurrences in `s[1..]`. */
  lemma OccursShift(s: string, pat: string)
    requires |s| > 0
    ensures forall j :: 1 <= j ==> (OccursAt(s, pat, j) <==> OccursAt(s[1..], pat, j - 1))
  {
    forall j | 1 <= j ensures OccursAt(s, pat, j) <==> OccursAt(s[1..], pat, j - 1) {
      if j + |pat| <= |s| {
        assert s[1..][j - 1..j - 1 + |pat|] == s[j..j + |pat|];
      }
    }
  }

  /** s.indexOf(pat), with -1 written as None. */
  function IndexOf(s: string, pat: string): (r: Option<nat>)
    ensures r.Some? ==> IsFirstOccurrence(s, pat, r.value)
    ensures r.None? ==> forall j :: 0 <= j <= |s| ==> !OccursAt(s, pat, j)
    decreases |s|
  {
    if pat <= s then
      assert s[0..|pat|] == pat;
      Some(0)
    else if s == [] then
      None
    else
      OccursShift(s, pat);
      assert !OccursAt(s, pat, 0) by {
        if |pat| <= |s| { assert s[0..|pat|] == s[..|pat|]; }
      }
      match IndexOf(s[1..], pat)
      case None => None
      case Some(i) => Some(i + 1)
  }

  /** s.replace(pat, rep) for a string pattern: only the leftmost occurrence is
      replaced, and `s` is returned unchanged when `pat` does not occur. */
  function ReplaceFirst(s: string, pat: string, rep: string): (r: string)
    ensures (forall j :: 0 <= j <= |s| ==> !OccursAt(s, pat, j)) ==> r == s
    ensures forall i: nat :: IsFirstOccurrence(s, pat, i) ==> r == s[..i] + rep + s[i + |pat|..]
  {
    match IndexOf(s, pat)
    case None => s
    case Some(i) => s[..i] + rep + s[i + |pat|..]
  }

  /** When the first character of `pat` does not appear before it, the
      replacement lands exactly where `pat` stood and nothing else changes. */
  lemma ReplaceFirstAt(prefix: string, pat: string, suffix: string, rep: string)
    requires |pat| > 0 && pat[0] !in prefix
    ensures ReplaceFirst(prefix + pat + suffix, pat, rep) == prefix + rep + suffix
  {
    var s := prefix + pat + suffix;
    var i := |prefix|;
    assert s[i..i + |pat|] == pat;
    assert IsFirstOccurrence(s, pat, i);
    assert s[..i] == prefix;
    assert s[i + |pat|..] == suffix;
  }

  /** A pattern whose first character is absent from `s` does not occur in it. */
  lemma AbsentWithoutFirstChar(s: string, pat: string)
    requires |pat| > 0 && pat[0] !in s
    ensures forall j :: 0 <= j <= |s| ==> !OccursAt(s, pat, j)
  {
    forall j | 0 <= j <= |s| ensures !OccursAt(s, pat, j) {
      if j + |pat| <= |s| {
        assert s[j..j + |pat|][0] == s[j];
      }
    }
  }

  // ---------------------------------------------------------------------
  // `${n}` for an integer n
  // ---------------------------------------------------------------------

  predicate IsDigit(c: char)
  {
    '0' <= c <= '9'
  }

  predicate AllDigits(s: string)
  {
    forall k :: 0 <= k < |s| ==> IsDigit(s[k])
  }

  function DigitChar(d: nat): (c: char)
    requires d < 10
    ensures IsDigit(c) && c as int - '0' as int == d
  {
    ('0' as int + d) as char
  }

  /** The decimal numeral of n, without leading zeros. */
  function Digits(n: nat): (s: string)
    ensures |s| > 0 && AllDigits(s)
    ensures s[0] == '0' ==> n == 0
    ensures s[0] == '0' ==> s == "0"
  {
    if n < 10 then [DigitChar(n)] else Digits(n / 10) + [DigitChar(n % 10)]
  }

  /** The text a template literal gives an integral JavaScript number:
      a minus sign for negative values, then the decimal digits. */
  function NumberText(n: int): (s: string)
    ensures |s| > 0
    ensures forall k :: 0 <= k < |s| ==> IsDigit(s[k]) || (k == 0 && s[k] == '-')
    ensures s[0] == '-' <==> n < 0
    ensures forall c :: c in s ==> IsDigit(c) || c == '-'
    ensures n < 0 ==> |s| > 1 && s[1] != '0'
    ensures n >= 0 && s[0] == '0' ==> s == "0"
  {
    if n < 0 then "-" + Digits(-n) else Digits(n)
  }

  /** The value a decimal numeral denotes (a reference reading of digits). */
  function DigitsValue(s: string): nat
    requires AllDigits(s)
  {
    if s == [] then 0 else DigitsValue(s[..|s| - 1]) * 10 + (s[|s| - 1] as int - '0' as int)
  }

  /** The value of a numeral with an optional leading minus sign. */
  function NumeralValue(s: string): int
    requires |s| > 0 && (if s[0] == '-' then AllDigits(s[1..]) else AllDigits(s))
  {
    if s[0] == '-' then -(DigitsValue(s[1..]) as int) else DigitsValue(s)
  }

  lemma {:induction false} DigitsRoundTrip(n: nat)
    ensures DigitsValue(Digits(n)) == n
  {
    if n >= 10 {
      var s := Digits(n);
      assert s[..|s| - 1] == Digits(n / 10);
      DigitsRoundTrip(n / 10);
    }
  }

  /** Reading the text back gives the number: the text is its decimal numeral. */
  lemma NumberTextRoundTrip(n: int)
    ensures var s := NumberText(n);
      |s| > 0 && (if s[0] == '-' then AllDigits(s[1..]) else AllDigits(s)) && NumeralValue(s) == n
  {
    if n < 0 {
      assert NumberText(n)[1..] == Digits(-n);
      DigitsRoundTrip(-n);
    } else {
      DigitsRoundTrip(n);
    }
  }
}
