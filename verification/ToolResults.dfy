/** What is served of a tool result (worker-claude/src/sessions/reader.py): texts up to a limit
    as they are, longer ones cut, with their length. */
module ToolResults {
  /** A tool result: nothing, a text, or a list of parts, each with the text it contributes
      when the list is flattened and the length of its Python representation. */
  datatype Content = Null | Str(s: string) | Parts(parts: seq<Part>)

  datatype Part = Part(text: string, reprLength: nat)

  // ----- truncation of tool results -----

  const MAX_TOOL_RESULT_SIZE := 20_000

  function Decimal(n: nat): string {
    if n < 10 then [DIGITS[n]] else Decimal(n / 10) + [DIGITS[n % 10]]
  }

  const DIGITS := "0123456789"

  function Take(s: string, n: nat): string { if |s| <= n then s else s[..n] }

  function Cut(s: string): string {
    Take(s, MAX_TOOL_RESULT_SIZE) + "\n\n... (truncated, " + Decimal(|s|) + " chars total)"
  }

  function Flatten(parts: seq<Part>): string {
    if parts == [] then "" else parts[0].text + Flatten(parts[1..])
  }

  function ReprTotal(parts: seq<Part>): nat {
    if parts == [] then 0 else parts[0].reprLength + ReprTotal(parts[1..])
  }

  function Truncate(c: Content): Content {
    match c
    case Str(s) => if |s| > MAX_TOOL_RESULT_SIZE then Str(Cut(s)) else c
    case Parts(parts) => if ReprTotal(parts) > MAX_TOOL_RESULT_SIZE then Str(Cut(Flatten(parts))) else c
    case Null => c
  }

  // ----- what a cut result says -----

  function DigitOf(c: char): nat { if '0' <= c <= '9' then c as int - '0' as int else 0 }

  /** What the digits say. */
  function Value(digits: string): nat {
    if digits == "" then 0 else Value(digits[..|digits| - 1]) * 10 + DigitOf(digits[|digits| - 1])
  }

  predicate Numeral(digits: string) {
    && digits != "" && (forall c :: c in digits ==> '0' <= c <= '9')
    && (|digits| > 1 ==> digits[0] != '0')
  }

  ghost predicate CutWith(s: string, t: string, digits: string) {
    && Numeral(digits) && Value(digits) == |s|
    && t == (if |s| <= 20_000 then s else s[..20_000]) + "\n\n... (truncated, " + digits + " chars total)"
  }

  /** The text starts with the first characters, and ends by saying how many there were. */
  ghost predicate CutTo(s: string, t: string) { exists digits :: CutWith(s, t, digits) }

  function TextsInOrder(parts: seq<Part>): string {
    if parts == [] then "" else TextsInOrder(parts[..|parts| - 1]) + parts[|parts| - 1].text
  }

  function Sizes(parts: seq<Part>): nat {
    if parts == [] then 0 else Sizes(parts[..|parts| - 1]) + parts[|parts| - 1].reprLength
  }

  /** What a client may get to see of a result. */
  ghost predicate Served(original: Content, served: Content) {
    match original
    case Null => served == Null
    case Str(s) => if |s| <= 20_000 then served == original else served.Str? && CutTo(s, served.s)
    case Parts(parts) =>
      if Sizes(parts) <= 20_000 then served == original else served.Str? && CutTo(TextsInOrder(parts), served.s)
  }

  lemma {:induction false} DecimalIsNumeral(n: nat)
    ensures Numeral(Decimal(n)) && Value(Decimal(n)) == n && (n > 0 ==> Decimal(n)[0] != '0')
  {
    if n < 10 {
      OneDigit(n);
      assert Decimal(n)[..0] == "" && Value("") == 0;
    } else {
      DecimalIsNumeral(n / 10);
      OneDigit(n % 10);
      assert Decimal(n)[..|Decimal(n)| - 1] == Decimal(n / 10);
    }
  }

  lemma OneDigit(d: nat)
    requires d < 10
    ensures '0' <= DIGITS[d] <= '9' && DigitOf(DIGITS[d]) == d && (d > 0 ==> DIGITS[d] != '0')
  {
  }

  lemma {:induction false} FlattenIsInOrder(parts: seq<Part>)
    ensures Flatten(parts) == TextsInOrder(parts) && ReprTotal(parts) == Sizes(parts)
  {
    if |parts| == 1 {
      assert parts[1..] == [] && parts[..0] == [];
      assert parts[0].text + "" == parts[0].text == "" + parts[0].text;
    } else if parts != [] {
      var mid := parts[1..|parts| - 1];
      FlattenIsInOrder(parts[1..]);
      FlattenIsInOrder(parts[..|parts| - 1]);
      FlattenIsInOrder(mid);
      assert parts[1..][..|parts| - 2] == mid && parts[..|parts| - 1][1..] == mid;
      assert parts[0].text + (TextsInOrder(mid) + parts[|parts| - 1].text) ==
             (parts[0].text + TextsInOrder(mid)) + parts[|parts| - 1].text;
    }
  }

  lemma CutCuts(s: string)
    ensures CutTo(s, Cut(s))
  {
    DecimalIsNumeral(|s|);
    assert CutWith(s, Cut(s), Decimal(|s|));
  }

  lemma TruncateServes(c: Content)
    ensures Served(c, Truncate(c))
  {
    hide CutTo, Cut;
    match c
    case Null =>
    case Str(s) => CutCuts(s);
    case Parts(parts) =>
      FlattenIsInOrder(parts);
      CutCuts(Flatten(parts));
  }

  function Power10(k: nat): nat { if k == 0 then 1 else 10 * Power10(k - 1) }

  lemma {:induction false} NumeralIsLarge(digits: string)
    requires Numeral(digits) && digits[0] != '0'
    ensures Power10(|digits| - 1) <= Value(digits)
  {
    var init := digits[..|digits| - 1];
    if |digits| == 1 {
      assert digits[0] in digits && init == "";
      assert Power10(0) == 1 <= DigitOf(digits[0]);
    } else {
      assert forall c :: c in init ==> c in digits;
      NumeralIsLarge(init);
      assert Power10(|digits| - 1) == 10 * Power10(|init| - 1);
    }
  }

  lemma ZeroIsZero(digits: string)
    requires Numeral(digits) && digits[0] == '0'
    ensures Value(digits) == 0
  {
    assert digits[..0] == "" && Value("") == 0;
  }

  lemma {:induction false} PowersGrow(j: nat, k: nat)
    requires j <= k
    ensures Power10(j) <= Power10(k)
  {
    if j < k { PowersGrow(j, k - 1); }
  }

  /** A cut text is short: the limit, the words of the marker, and the digits of the length. */
  lemma CutIsBounded(s: string, t: string, k: nat)
    requires CutTo(s, t) && 0 < |s| < Power10(k)
    ensures |t| <= 20_031 + k
  {
    var digits :| CutWith(s, t, digits);
    if digits[0] == '0' {
      ZeroIsZero(digits);
    } else {
      NumeralIsLarge(digits);
      if |digits| > k { PowersGrow(k, |digits| - 1); }
    }
  }

  /** Only texts beyond the limit are changed, and what a cut text says tells its length. */
  lemma CutTellsLength(s: string, s': string, t: string)
    requires CutTo(s, t) && CutTo(s', t) && |s| > 20_000 && |s'| > 20_000
    ensures |s| == |s'| && s[..20_000] == s'[..20_000]
  {
    var d :| CutWith(s, t, d);
    var d' :| CutWith(s', t, d');
    assert t[..20_000] == s[..20_000] && t[..20_000] == s'[..20_000];
    assert |d| == |d'|;
    assert t[20_018..20_018 + |d|] == d && t[20_018..20_018 + |d|] == d';
  }
}
