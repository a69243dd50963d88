/** Decimal printing and parsing of 64-bit integers, and thousands separators.
    Text is a sequence of byte values. */
module Decimal {
  import opened Wrappers

  type byte = x: int | 0 <= x < 256
  type Bytes = seq<byte>

  const PLUS: byte := 43
  const COMMA: byte := 44
  const MINUS: byte := 45

  const INT64_MIN: int := -0x8000_0000_0000_0000
  const INT64_MAX: int := 0x7fff_ffff_ffff_ffff

  predicate IsDigit(b: byte) { 48 <= b <= 57 }

  predicate AllDigits(s: Bytes) { forall i | 0 <= i < |s| :: IsDigit(s[i]) }

  function Digits(n: nat): (s: Bytes)
    ensures s != [] && AllDigits(s)
  {
    if n < 10 then [48 + n] else Digits(n / 10) + [48 + n % 10]
  }

  function Value(s: Bytes): int {
    if s == [] then 0 else Value(s[..|s| - 1]) * 10 + (s[|s| - 1] as int - 48)
  }

  /** strconv.FormatInt(n, 10) */
  function FormatInt(n: int): (s: Bytes)
    ensures s != []
  {
    if n < 0 then [MINUS] + Digits(-n) else Digits(n)
  }

  /** strconv.ParseInt(s, 10, 64) */
  function ParseInt(s: Bytes): Option<int> {
    var signed := s != [] && (s[0] == PLUS || s[0] == MINUS);
    var digits := if signed then s[1..] else s;
    if digits == [] || !AllDigits(digits) then None
    else
      var n := if signed && s[0] == MINUS then -Value(digits) else Value(digits);
      if INT64_MIN <= n <= INT64_MAX then Some(n) else None
  }

  lemma {:induction false} ValueOfDigits(n: nat)
    ensures Value(Digits(n)) == n
  {
    if n >= 10 {
      ValueOfDigits(n / 10);
      assert Digits(n)[..|Digits(n)| - 1] == Digits(n / 10);
    }
  }

  /** Every 64-bit integer survives printing and parsing. */
  lemma ParseFormat(n: int)
    requires INT64_MIN <= n <= INT64_MAX
    ensures ParseInt(FormatInt(n)) == Some(n)
  {
    ValueOfDigits(if n < 0 then -n else n);
    if n < 0 { assert FormatInt(n)[1..] == Digits(-n); }
  }

  /** A printed integer holds digits only, after an optional minus sign. */
  lemma FormatShape(n: int)
    ensures var s := FormatInt(n);
            var start := if s[0] == MINUS then 1 else 0;
            |s| > start && AllDigits(s[start..]) && (s[0] == MINUS <==> n < 0)
  {
    if n < 0 { assert FormatInt(n)[1..] == Digits(-n); }
    else { assert FormatInt(n)[0..] == Digits(n); assert IsDigit(Digits(n)[0]); }
  }

  // ---- thousands separators -------------------------------------------------------

  function RemoveCommas(s: Bytes): Bytes {
    if s == [] then [] else (if s[0] == COMMA then [] else [s[0]]) + RemoveCommas(s[1..])
  }

  /** Zero or more times a comma and exactly three digits. */
  predicate Triples(s: Bytes) {
    s == [] || (|s| >= 4 && s[0] == COMMA && AllDigits(s[1..4]) && Triples(s[4..]))
  }

  /** An optional minus sign, one to three digits, then the triples. */
  predicate Grouped(s: Bytes) {
    exists start: nat, first: nat | start <= first <= |s| ::
      start == (if s != [] && s[0] == MINUS then 1 else 0)
      && 1 <= first - start <= 3 && AllDigits(s[start..first]) && Triples(s[first..])
  }

  lemma {:induction false} RemoveCommasSplit(a: Bytes, b: Bytes)
    ensures RemoveCommas(a + b) == RemoveCommas(a) + RemoveCommas(b)
  {
    if a == [] {
      assert a + b == b;
    } else {
      assert (a + b)[1..] == a[1..] + b;
      RemoveCommasSplit(a[1..], b);
    }
  }

  lemma {:induction false} NoCommas(s: Bytes)
    requires COMMA !in s
    ensures RemoveCommas(s) == s
  {
    if s != [] { NoCommas(s[1..]); }
  }

  lemma DigitsHaveNoComma(s: Bytes)
    requires AllDigits(s)
    ensures COMMA !in s
  {
    forall k | 0 <= k < |s| ensures s[k] != COMMA { assert IsDigit(s[k]); }
  }

  /** One more comma: the next three digits join the tail. */
  lemma TripleJoins(d: Bytes, i: nat, tail: Bytes)
    requires i + 3 <= |d| && AllDigits(d[i..i + 3]) && Triples(tail) && RemoveCommas(tail) == d[i + 3..]
    ensures var longer := [COMMA] + d[i..i + 3] + tail;
            Triples(longer) && RemoveCommas(longer) == d[i..]
  {
    var group := d[i..i + 3];
    var longer := [COMMA] + group + tail;
    assert longer[1..4] == group && longer[4..] == tail;
    assert longer[1..] == group + tail;
    RemoveCommasSplit(group, tail);
    DigitsHaveNoComma(group);
    NoCommas(group);
    assert d[i..] == group + d[i + 3..];
  }

  lemma GroupsFinish(d: Bytes, first: nat, tail: Bytes)
    requires var start := if d != [] && d[0] == MINUS then 1 else 0;
             start < first <= |d| && first - start <= 3 && AllDigits(d[start..])
    requires Triples(tail) && RemoveCommas(tail) == d[first..]
    ensures RemoveCommas(d[..first] + tail) == d && Grouped(d[..first] + tail)
  {
    var start := if d[0] == MINUS then 1 else 0;
    var head := d[..first];
    var s := head + tail;
    assert COMMA !in head by {
      forall k | 0 <= k < first ensures head[k] != COMMA {
        if k >= start { assert head[k] == d[start..][k - start]; }
      }
    }
    NoCommas(head);
    RemoveCommasSplit(head, tail);
    assert head + d[first..] == d;
    assert s[start..first] == d[start..][..first - start];
    assert s[first..] == tail && s[0] == d[0];
  }

  lemma PartDigits(d: Bytes, start: nat, i: nat)
    requires start <= i && i + 3 <= |d| && AllDigits(d[start..])
    ensures AllDigits(d[i..i + 3])
  {
    var group := d[i..i + 3];
    forall k | 0 <= k < 3 ensures IsDigit(group[k]) { assert group[k] == d[start..][i - start + k]; }
  }

  /** countNum: commas are inserted from the right. */
  method CountNum(n: int) returns (s: Bytes)
    ensures RemoveCommas(s) == FormatInt(n)
    ensures Grouped(s)
  {
    s := FormatInt(n);
    FormatShape(n);
    ghost var d := s;
    ghost var tail: Bytes := [];
    var start := 0;
    if s[0] == MINUS { start := 1; }
    var i := |s| - 3;
    assert d[..i + 3] + tail == d && d[i + 3..] == [];
    while i > start
      invariant start == (if d[0] == MINUS then 1 else 0)
      invariant start < i + 3 <= |d|
      invariant s == d[..i + 3] + tail && Triples(tail) && RemoveCommas(tail) == d[i + 3..]
    {
      PartDigits(d, start, i);
      TripleJoins(d, i, tail);
      assert s[..i] + [COMMA] + s[i..] == d[..i] + ([COMMA] + d[i..i + 3] + tail);
      tail := [COMMA] + d[i..i + 3] + tail;
      s := s[..i] + [COMMA] + s[i..];
      i := i - 3;
    }
    GroupsFinish(d, i + 3, tail);
  }
}
