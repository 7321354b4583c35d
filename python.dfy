/** The few Python built-ins the expense tracker leans on: `str.strip()`,
    `str(int)`, list indexing with negative positions, and the three parsers
    `int()`, `float()` and `datetime.strptime(..., "%Y-%m-%d")`.

    The parsers are library code whose exact grammar is not part of this
    model; they are carried around as the fields of a `Builtins` value, so
    every fact proved below holds for whatever those parsers accept. */
module Python {

  datatype Option<+T> = None | Some(value: T) {
    /** The value held, or `default` when there is none. */
    function GetOr(default: T): T {
      match this
      case Some(v) => v
      case None => default
    }
  }

  /** The calendar fields of a successfully parsed `YYYY-MM-DD` date. */
  datatype Date = Date(year: int, month: int, day: int)

  /** The parsing built-ins. `None` stands for the `ValueError` the parser
      raises; a `float` result is an exact real (no NaN, no infinity). */
  datatype Builtins = Builtins(
    parseInt: string -> Option<int>,      // int(s)
    parseFloat: string -> Option<real>,   // float(s)
    parseDate: string -> Option<Date>     // datetime.strptime(s, "%Y-%m-%d")
  )

  /** Whether `strptime` accepts `s` as a date. */
  predicate ValidDate(py: Builtins, s: string) {
    py.parseDate(s).Some?
  }

  // ---------------------------------------------------------------- strip()

  /** `str.isspace()` for a single character: the ASCII controls TAB..CR,
      the separators FS..US, SPACE, NEL, NBSP and the Unicode space
      separators, line separator and paragraph separator. */
  predicate IsSpace(c: char) {
    var k := c as int;
    (0x09 <= k <= 0x0D) || (0x1C <= k <= 0x20) || k == 0x85 || k == 0xA0 ||
    k == 0x1680 || (0x2000 <= k <= 0x200A) || k == 0x2028 || k == 0x2029 ||
    k == 0x202F || k == 0x205F || k == 0x3000
  }

  /** `s.lstrip()`: the suffix of `s` left after dropping leading whitespace. */
  function TrimStart(s: string): (r: string)
    ensures |r| <= |s| && r == s[|s| - |r|..]
    ensures forall i :: 0 <= i < |s| - |r| ==> IsSpace(s[i])
    ensures r == [] || !IsSpace(r[0])
  {
    if s != [] && IsSpace(s[0]) then TrimStart(s[1..]) else s
  }

  /** `s.rstrip()`: the prefix of `s` left after dropping trailing whitespace. */
  function TrimEnd(s: string): (r: string)
    ensures |r| <= |s| && r == s[..|r|]
    ensures forall i :: |r| <= i < |s| ==> IsSpace(s[i])
    ensures r == [] || !IsSpace(r[|r| - 1])
  {
    if s != [] && IsSpace(s[|s| - 1]) then TrimEnd(s[..|s| - 1]) else s
  }

  /** `s.strip()`: a prefix of `s.lstrip()` that neither starts nor ends in
      whitespace, with only whitespace cut off after it, and empty exactly
      when `s` is all whitespace. */
  function Strip(s: string): (r: string)
    ensures |r| <= |TrimStart(s)| && r == TrimStart(s)[..|r|]
    ensures forall i :: |r| <= i < |TrimStart(s)| ==> IsSpace(TrimStart(s)[i])
    ensures r == [] || (!IsSpace(r[0]) && !IsSpace(r[|r| - 1]))
    ensures r == [] <==> forall i :: 0 <= i < |s| ==> IsSpace(s[i])
  {
    StrippedEmptyIffAllSpace(s);
    TrimEnd(TrimStart(s))
  }

  lemma StrippedEmptyIffAllSpace(s: string)
    ensures TrimEnd(TrimStart(s)) == [] <==> forall i :: 0 <= i < |s| ==> IsSpace(s[i])
  {
    var t := TrimStart(s);
    var lo := |s| - |t|;
    assert t == s[lo..];
    if TrimEnd(t) == [] {
      assert t == [];
    } else {
      assert TrimEnd(t)[0] == t[0] == s[lo];
    }
  }

  /** The test `s.strip() == ""` that every prompt of the tracker uses to
      decide whether the user left a field empty, stated directly: every
      character is whitespace. `BlankIffStripsToEmpty` shows the two agree. */
  predicate IsBlank(s: string) {
    forall i :: 0 <= i < |s| ==> IsSpace(s[i])
  }

  lemma BlankIffStripsToEmpty(s: string)
    ensures IsBlank(s) <==> Strip(s) == []
  {
  }

  // ---------------------------------------------------------------- str(n)

  predicate IsDigit(c: char) {
    '0' <= c <= '9'
  }

  predicate AllDigits(s: string) {
    forall i :: 0 <= i < |s| ==> IsDigit(s[i])
  }

  /** The number a string of decimal digits denotes. */
  function DigitsValue(s: string): nat
    requires AllDigits(s)
  {
    if s == [] then 0
    else DigitsValue(s[..|s| - 1]) * 10 + (s[|s| - 1] as int - '0' as int)
  }

  function DigitChar(d: nat): (c: char)
    requires d < 10
    ensures IsDigit(c) && c as int - '0' as int == d
  {
    ('0' as int + d) as char
  }

  /** `str(n)` for a natural number: canonical decimal digits (no sign, no
      leading zero) that denote `n`. */
  function DecimalString(n: nat): (r: string)
    ensures |r| > 0 && AllDigits(r)
    ensures |r| > 1 ==> r[0] != '0'
    ensures DigitsValue(r) == n
    decreases n
  {
    if n < 10 then [DigitChar(n)]
    else
      var prefix := DecimalString(n / 10);
      var r := prefix + [DigitChar(n % 10)];
      assert r[..|r| - 1] == prefix;
      r
  }

  // ---------------------------------------------------------------- xs[i]

  /** Python's `xs[i]`: positions `0..len-1` count from the front, positions
      `-len..-1` count from the back, and anything else raises `IndexError`
      (here `None`). */
  function PyIndex<T>(xs: seq<T>, i: int): (r: Option<T>)
    ensures r.Some? <==> -|xs| <= i < |xs|
    ensures r.Some? ==> r.value == xs[if i < 0 then |xs| + i else i]
  {
    if 0 <= i < |xs| then Some(xs[i])
    else if -|xs| <= i < 0 then Some(xs[|xs| + i])
    else None
  }
}
