/** The parts of `std::string` and `std::stoi`/`std::to_string` that the
  * interpreter relies on, as functions on `string`.  Each `char` stands for
  * one byte of the program text.
  */
module StdText {

  datatype Option<+T> = None | Some(value: T)

  /** `pat` occurs in `s` starting at index `k`. */
  predicate OccursAt(s: string, pat: string, k: int)
  {
    0 <= k && k + |pat| <= |s| && s[k..k + |pat|] == pat
  }

  /** `s.find(pat, from)`: the first occurrence of `pat` at or after `from`
    * (`None` plays the part of `npos`). */
  function FindFrom(s: string, pat: string, from: nat): (r: Option<nat>)
    ensures r.Some? ==> from <= r.value && OccursAt(s, pat, r.value)
    ensures r.Some? ==> forall k :: from <= k < r.value ==> !OccursAt(s, pat, k)
    ensures r.None? ==> forall k :: from <= k ==> !OccursAt(s, pat, k)
    decreases |s| - from
  {
    if from + |pat| > |s| then None
    else if s[from..from + |pat|] == pat then Some(from)
    else FindFrom(s, pat, from + 1)
  }

  /** `s.find(pat)`. */
  function Find(s: string, pat: string): Option<nat>
  {
    FindFrom(s, pat, 0)
  }

  /** `s.find(pat) != npos`. */
  predicate Contains(s: string, pat: string)
  {
    Find(s, pat).Some?
  }

  /** `s.rfind(c)`: the last index holding `c`. */
  function RFindChar(s: string, c: char): (r: Option<nat>)
    ensures r.Some? ==> r.value < |s| && s[r.value] == c
    ensures r.Some? ==> forall k :: r.value < k < |s| ==> s[k] != c
    ensures r.None? ==> forall k :: 0 <= k < |s| ==> s[k] != c
  {
    if s == [] then None
    else if s[|s| - 1] == c then Some(|s| - 1)
    else RFindChar(s[..|s| - 1], c)
  }

  lemma {:induction false} FindCharIsFirst(s: string, c: char, from: nat)
    ensures FindFrom(s, [c], from).Some? ==>
      var k := FindFrom(s, [c], from).value; k < |s| && s[k] == c && forall j :: from <= j < k ==> s[j] != c
    ensures FindFrom(s, [c], from).None? ==> forall j :: from <= j < |s| ==> s[j] != c
  {
    var r := FindFrom(s, [c], from);
    if r.Some? {
      forall j | from <= j < r.value ensures s[j] != c {
        assert !OccursAt(s, [c], j);
        assert s[j..j + 1] == [s[j]];
      }
      assert s[r.value..r.value + 1] == [s[r.value]];
    } else {
      forall j | from <= j < |s| ensures s[j] != c {
        assert !OccursAt(s, [c], j);
        assert s[j..j + 1] == [s[j]];
      }
    }
  }

  /** `s.find(c)` for a single character: the first index holding `c`; it
    * exists exactly when `s.rfind(c)` does, and comes no later. */
  function FindChar(s: string, c: char): (r: Option<nat>)
    ensures r.Some? ==> r.value < |s| && s[r.value] == c
    ensures r.Some? ==> forall j :: 0 <= j < r.value ==> s[j] != c
    ensures r.None? ==> forall j :: 0 <= j < |s| ==> s[j] != c
    ensures r.Some? <==> RFindChar(s, c).Some?
    ensures r.Some? ==> r.value <= RFindChar(s, c).value
  {
    FindCharIsFirst(s, c, 0);
    FindFrom(s, [c], 0)
  }

  /** `s.substr(pos, count)`: at most `count` characters from `pos` on. */
  function Substr(s: string, pos: nat, count: nat): (r: string)
    requires pos <= |s|
  {
    if count <= |s| - pos then s[pos..pos + count] else s[pos..]
  }

  // ---------------------------------------------------------------------
  // Integer conversion
  // ---------------------------------------------------------------------

  const IntMin: int := -0x8000_0000
  const IntMax: int := 0x7FFF_FFFF

  predicate InIntRange(v: int)
  {
    IntMin <= v <= IntMax
  }

  /** What `std::stoi` does with a string: a value, or one of its two exceptions. */
  datatype Conversion = Parsed(value: int) | InvalidArgument | OutOfRange

  /** The characters `isspace` accepts in the C locale. */
  predicate IsSpace(c: char)
  {
    c == ' ' || c == '\t' || c == '\n' || c == '\U{000B}' || c == '\U{000C}' || c == '\r'
  }

  predicate IsDigit(c: char)
  {
    '0' <= c <= '9'
  }

  predicate AllDigits(s: string)
  {
    forall k :: 0 <= k < |s| ==> IsDigit(s[k])
  }

  /** Index of the first non-space character at or after `k`. */
  function SkipSpaces(s: string, k: nat): (r: nat)
    requires k <= |s|
    ensures k <= r <= |s|
    ensures forall j :: k <= j < r ==> IsSpace(s[j])
    ensures r == |s| || !IsSpace(s[r])
    decreases |s| - k
  {
    if k < |s| && IsSpace(s[k]) then SkipSpaces(s, k + 1) else k
  }

  /** End of the run of decimal digits that starts at `k`. */
  function DigitsEnd(s: string, k: nat): (r: nat)
    requires k <= |s|
    ensures k <= r <= |s|
    ensures AllDigits(s[k..r])
    ensures r == |s| || !IsDigit(s[r])
    decreases |s| - k
  {
    if k < |s| && IsDigit(s[k]) then
      var r := DigitsEnd(s, k + 1);
      assert s[k..r] == [s[k]] + s[k + 1..r];
      r
    else k
  }

  function DigitValue(c: char): nat
    requires IsDigit(c)
  {
    c as int - '0' as int
  }

  /** Value of a string of decimal digits, read most significant first. */
  function DigitsValue(ds: string): nat
    requires AllDigits(ds)
  {
    if ds == [] then 0 else DigitsValue(ds[..|ds| - 1]) * 10 + DigitValue(ds[|ds| - 1])
  }

  /** `std::stoi(s)` (base 10): optional leading white space, an optional sign,
    * then the longest run of digits; what follows the digits is ignored.
    * No digit at all is `invalid_argument`; a value outside 32-bit `int` is
    * `out_of_range`. */
  function Stoi(s: string): (r: Conversion)
    ensures r.Parsed? ==> InIntRange(r.value)
  {
    var k := SkipSpaces(s, 0);
    var negative := k < |s| && s[k] == '-';
    var start := if k < |s| && (s[k] == '-' || s[k] == '+') then k + 1 else k;
    var end := DigitsEnd(s, start);
    if end == start then InvalidArgument
    else
      var magnitude: int := DigitsValue(s[start..end]);
      var v := if negative then -magnitude else magnitude;
      if InIntRange(v) then Parsed(v) else OutOfRange
  }

  /** The interpreter's `isInteger`: `stoi` throws nothing.  That needs a
    * digit, and the value it reads fits in an `int`. */
  function IsInteger(s: string): (b: bool)
    ensures b ==> Stoi(s).Parsed? && InIntRange(Stoi(s).value)
    ensures b ==> exists k :: 0 <= k < |s| && IsDigit(s[k])
  {
    var k := SkipSpaces(s, 0);
    var start := if k < |s| && (s[k] == '-' || s[k] == '+') then k + 1 else k;
    assert Stoi(s).Parsed? ==> DigitsEnd(s, start) > start && IsDigit(s[start..DigitsEnd(s, start)][0]);
    Stoi(s).Parsed?
  }

  function Digit(d: nat): (c: char)
    requires d < 10
  {
    ('0' as int + d) as char
  }

  /** Decimal digits of a natural number, with no leading zero. */
  function NatToString(n: nat): (r: string)
    ensures |r| > 0 && AllDigits(r)
    ensures |r| > 1 ==> r[0] != '0'
  {
    if n < 10 then [Digit(n)] else NatToString(n / 10) + [Digit(n % 10)]
  }

  /** `std::to_string(n)`, and also what `cout << n` writes. */
  function IntToString(n: int): string
  {
    if n < 0 then "-" + NatToString(-n) else NatToString(n)
  }

  lemma {:induction false} DigitsValueOfNatToString(n: nat)
    ensures DigitsValue(NatToString(n)) == n
  {
    var s := NatToString(n);
    if n >= 10 {
      DigitsValueOfNatToString(n / 10);
      assert s[..|s| - 1] == NatToString(n / 10);
    }
  }

  /** `stoi` reads back what `to_string` wrote, and it stops at the first
    * character that is not a digit, so a numeric prefix is accepted. */
  lemma StoiReadsNumericPrefix(n: int, rest: string)
    requires InIntRange(n)
    requires rest == [] || !IsDigit(rest[0])
    ensures Stoi(IntToString(n) + rest) == Parsed(n)
  {
    var s := IntToString(n) + rest;
    var digits := NatToString(if n < 0 then -n else n);
    var start := if n < 0 then 1 else 0;
    assert SkipSpaces(s, 0) == 0;
    assert s[start..start + |digits|] == digits;
    DigitsEndOfRun(s, start, start + |digits|);
    DigitsValueOfNatToString(if n < 0 then -n else n);
  }

  /** The scan for digits stops exactly at the end of a run of digits. */
  lemma {:induction false} DigitsEndOfRun(s: string, k: nat, e: nat)
    requires k <= e <= |s|
    requires AllDigits(s[k..e])
    requires e == |s| || !IsDigit(s[e])
    ensures DigitsEnd(s, k) == e
    decreases e - k
  {
    if k < e {
      assert IsDigit(s[k..e][0]);
      assert s[k + 1..e] == s[k..e][1..];
      DigitsEndOfRun(s, k + 1, e);
    }
  }

  lemma StoiOfIntToString(n: int)
    requires InIntRange(n)
    ensures Stoi(IntToString(n)) == Parsed(n)
  {
    StoiReadsNumericPrefix(n, []);
    assert IntToString(n) + [] == IntToString(n);
  }

  /** `isInteger` on decimal text: it holds exactly when the number fits in
    * an `int`; a longer number makes `stoi` throw `out_of_range`. */
  lemma IsIntegerOfDecimal(n: int)
    ensures Stoi(IntToString(n)) == if InIntRange(n) then Parsed(n) else OutOfRange
    ensures IsInteger(IntToString(n)) <==> InIntRange(n)
  {
    var s := IntToString(n);
    var digits := NatToString(if n < 0 then -n else n);
    var start := if n < 0 then 1 else 0;
    assert SkipSpaces(s, 0) == 0;
    assert s[start..] == digits;
    assert s[start..start + |digits|] == digits;
    DigitsEndOfRun(s, start, start + |digits|);
    DigitsValueOfNatToString(if n < 0 then -n else n);
  }

}
