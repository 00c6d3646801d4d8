/** Decimal text: what a printed integer has to look like, and how it reads back. */
module Decimals {

  predicate IsDigit(c: char) { '0' <= c <= '9' }

  function Value(c: char): nat
    requires IsDigit(c)
  {
    c as int - '0' as int
  }

  function Digit(d: nat): (c: char)
    requires d < 10
    ensures IsDigit(c) && Value(c) == d
  {
    ('0' as int + d) as char
  }

  /** The decimal digits of n, most significant first, without leading zeros. */
  function Magnitude(n: nat): string
  {
    if n < 10 then [Digit(n)] else Magnitude(n / 10) + [Digit(n % 10)]
  }

  function Decimal(v: int): string
  {
    if v < 0 then "-" + Magnitude(-v) else Magnitude(v)
  }

  predicate AllDigits(s: string)
  {
    forall i :: 0 <= i < |s| ==> IsDigit(s[i])
  }

  predicate CanonicalNat(s: string)
  {
    s != [] && AllDigits(s) && (|s| > 1 ==> s[0] != '0')
  }

  /** No leading zeros, no "-0", no sign other than a single minus. */
  predicate Canonical(s: string)
  {
    CanonicalNat(s) || (|s| > 1 && s[0] == '-' && s[1] != '0' && CanonicalNat(s[1..]))
  }

  function ParseNat(s: string): nat
    requires AllDigits(s)
  {
    if s == [] then 0 else 10 * ParseNat(s[..|s| - 1]) + Value(s[|s| - 1])
  }

  function Parse(s: string): int
    requires Canonical(s)
  {
    if s[0] == '-' then -(ParseNat(s[1..]) as int) else ParseNat(s)
  }

  lemma {:induction false} ParseMagnitude(n: nat)
    ensures CanonicalNat(Magnitude(n)) && ParseNat(Magnitude(n)) == n
    ensures n > 0 ==> Magnitude(n)[0] != '0'
  {
    var s := Magnitude(n);
    if n >= 10 {
      ParseMagnitude(n / 10);
      assert s[..|s| - 1] == Magnitude(n / 10);
      assert s[0] == Magnitude(n / 10)[0];
    }
  }

  /** Printing is faithful: the text of every integer is canonical and reads back as that integer. */
  lemma ParseDecimal(v: int)
    ensures Canonical(Decimal(v)) && Parse(Decimal(v)) == v
  {
    if v < 0 {
      ParseMagnitude(-v);
      assert Decimal(v)[1..] == Magnitude(-v);
    } else {
      ParseMagnitude(v);
    }
  }

  lemma {:induction false} MagnitudeParse(s: string)
    requires CanonicalNat(s)
    ensures Magnitude(ParseNat(s)) == s
    ensures s[0] != '0' ==> ParseNat(s) > 0
  {
    var t, c := s[..|s| - 1], s[|s| - 1];
    assert s == t + [c] && Digit(Value(c)) == c;
    if t == [] {
      assert ParseNat(s) == Value(c);
    } else {
      MagnitudeParse(t);
      assert ParseNat(t) > 0;
      assert ParseNat(s) / 10 == ParseNat(t) && ParseNat(s) % 10 == Value(c);
    }
  }

  /** Canonical text is unique: only Decimal(v) reads back as v. */
  lemma DecimalParse(s: string)
    requires Canonical(s)
    ensures Decimal(Parse(s)) == s
  {
    if s[0] == '-' {
      MagnitudeParse(s[1..]);
      assert s == "-" + s[1..];
    } else {
      MagnitudeParse(s);
    }
  }

  lemma DecimalInjective(v: int, w: int)
    requires Decimal(v) == Decimal(w)
    ensures v == w
  {
    ParseDecimal(v);
    ParseDecimal(w);
  }

  function Pow10(k: nat): nat
  {
    if k == 0 then 1 else 10 * Pow10(k - 1)
  }

  /** The number of digits of n is the least k > 0 with n < 10^k. */
  lemma {:induction false} MagnitudeLength(n: nat, k: nat)
    requires k > 0
    ensures |Magnitude(n)| <= k <==> n < Pow10(k)
  {
    if n >= 10 {
      if k == 1 {
        assert Pow10(1) == 10;
      } else {
        MagnitudeLength(n / 10, k - 1);
        assert Pow10(k) == 10 * Pow10(k - 1);
      }
    } else {
      Pow10AtLeast10(k);
    }
  }

  lemma {:induction false} Pow10AtLeast10(k: nat)
    requires k > 0
    ensures Pow10(k) >= 10
  {
    if k > 1 { Pow10AtLeast10(k - 1); }
  }
}

/** include/LogStream.h and src/LogStream.cc: the fixed buffer and the integer printer. */
module LogStream {
  import opened Decimals
  import opened Seqs

  const kLargeBuffer: nat := 4000 * 1000
  const kMaxNumericSize: nat := 48

  /** FixedBuffer<SIZE>: `cur` is the offset of cur_ from data_. */
  class FixedBuffer {
    const data: array<char>
    var cur: nat

    ghost predicate Valid()
      reads this
    {
      cur <= data.Length
    }

    ghost function Contents(): (s: string)
      reads this, data
      requires Valid()
    {
      data[..cur]
    }

    constructor (size: nat)
      ensures Valid() && fresh(data) && data.Length == size && Contents() == []
    {
      data := new char[size];
      cur := 0;
    }

    function Avail(): int
      reads this
    {
      data.Length - cur
    }

    /** A line that does not leave at least one byte free is dropped without a trace. */
    method Append(line: string)
      requires Valid()
      modifies this`cur, data
      ensures Valid()
      ensures Contents() == if old(Avail()) > |line| then old(Contents()) + line else old(Contents())
    {
      if Avail() > |line| {
        forall i | 0 <= i < |line| { data[cur + i] := line[i]; }
        cur := cur + |line|;
        assert data[..cur] == old(data[..cur]) + line;
      }
    }

    /** Accepts bytes that were written through Current(). */
    method Add(len: nat)
      requires Valid() && cur + len <= data.Length
      modifies this`cur
      ensures Valid() && cur == old(cur) + len
      ensures Contents() == old(Contents()) + data[old(cur)..old(cur) + len]
    {
      cur := cur + len;
      assert data[..cur] == data[..old(cur)] + data[old(cur)..cur];
    }

    method Reset()
      modifies this`cur
      ensures Valid() && Contents() == []
    {
      cur := 0;
    }
  }

  /** The integer types that LogStream prints, as ranges (long is 64 bits wide). */
  datatype IntType = Int32 | UInt32 | Int64 | UInt64 {
    const min: int := match this
      case Int32 => -0x8000_0000
      case Int64 => -0x8000_0000_0000_0000
      case _ => 0

    const max: int := match this
      case Int32 => 0x7FFF_FFFF
      case UInt32 => 0xFFFF_FFFF
      case Int64 => 0x7FFF_FFFF_FFFF_FFFF
      case UInt64 => 0xFFFF_FFFF_FFFF_FFFF

    predicate Holds(v: int) { min <= v <= max }
  }

  // C++ integer division and remainder truncate toward zero.
  function CppDiv(a: int, b: int): int
    requires b > 0
  {
    if a >= 0 then a / b else -((-a) / b)
  }

  function CppRem(a: int, b: int): int
    requires b > 0
  {
    if a >= 0 then a % b else -((-a) % b)
  }

  /** `digits` with its terminating NUL; `zero` points at index 9. */
  type DigitTable = t: string | |t| == 19 witness "9876543210123456789"

  const literalDigits: DigitTable := "987654321023456789\0"
  const intendedDigits: DigitTable := "9876543210123456789"

  function Zero(table: DigitTable, lsd: int): char
    requires -9 <= lsd <= 9
  {
    table[9 + lsd]
  }

  /** The table prints remainder d as the digit |d|. */
  predicate Prints(table: DigitTable, d: int)
  {
    -9 <= d <= 9 && Zero(table, d) == Digit(if d < 0 then -d else d)
  }

  /** The table is right for every remainder that a value of the given sign can leave. */
  predicate PrintsAll(table: DigitTable, negative: bool)
  {
    forall d :: -9 <= d <= 9 && (if negative then d <= 0 else d >= 0) ==> Prints(table, d)
  }

  /** What the do-while loop emits from i on, least significant first. */
  function Emitted(table: DigitTable, i: int): string
    decreases if i < 0 then -i else i
  {
    [Zero(table, CppRem(i, 10))] +
    if CppDiv(i, 10) == 0 then [] else Emitted(table, CppDiv(i, 10))
  }

  /** The text convert leaves in its buffer for a given table. */
  function Rendered(table: DigitTable, v: int): string
  {
    Reversed(Emitted(table, v) + if v < 0 then "-" else "")
  }

  lemma {:induction false} EmittedIsMagnitude(table: DigitTable, i: int)
    requires PrintsAll(table, i < 0)
    ensures Reversed(Emitted(table, i)) == Magnitude(if i < 0 then -i else i)
    decreases if i < 0 then -i else i
  {
    var q, r := CppDiv(i, 10), CppRem(i, 10);
    assert Prints(table, r);
    if q == 0 {
      assert Emitted(table, i) == [Zero(table, r)];
    } else {
      ReversedCons(Zero(table, r), Emitted(table, q));
      EmittedIsMagnitude(table, q);
    }
  }

  /**
   * A table that is right for the signs of the remainders it meets prints the
   * canonical decimal text, including that of the minimum of a signed type:
   * the loop never negates the value.
   */
  lemma RenderedIsDecimal(table: DigitTable, v: int)
    requires PrintsAll(table, v < 0)
    ensures Rendered(table, v) == Decimal(v)
  {
    EmittedIsMagnitude(table, v);
    if v < 0 {
      ReversedSnoc(Emitted(table, v), '-');
    } else {
      assert Emitted(table, v) + "" == Emitted(table, v);
    }
  }

  lemma IntendedTablePrintsAll(v: int)
    ensures Rendered(intendedDigits, v) == Decimal(v)
  {
    RenderedIsDecimal(intendedDigits, v);
  }

  lemma {:induction false} LeadingDigit(table: DigitTable, n: nat) returns (d: nat)
    requires n > 0
    ensures 1 <= d <= 9
    ensures Reversed(Emitted(table, n)) != [] && Reversed(Emitted(table, n))[0] == Zero(table, d)
    ensures Magnitude(n)[0] == Digit(d)
  {
    if n < 10 {
      d := n;
      assert Emitted(table, n) == [Zero(table, n)];
    } else {
      d := LeadingDigit(table, n / 10);
      ReversedCons(Zero(table, n % 10), Emitted(table, n / 10));
    }
  }

  /**
   * The table as it stands in the source lacks its second '1'. It prints v
   * correctly exactly when v is not positive.
   */
  lemma LiteralTablePrintsExactlyNonPositive(v: int)
    ensures Rendered(literalDigits, v) == Decimal(v) <==> v <= 0
  {
    if v < 0 {
      RenderedIsDecimal(literalDigits, v);
    } else if v == 0 {
      assert Emitted(literalDigits, 0) == "0";
      assert Rendered(literalDigits, 0) == Reversed("0");
    } else {
      var d := LeadingDigit(literalDigits, v);
      assert Emitted(literalDigits, v) + "" == Emitted(literalDigits, v);
      assert Zero(literalDigits, d) != Digit(d);
    }
  }

  lemma {:induction false} EmittedLength(table: DigitTable, i: int)
    ensures |Emitted(table, i)| == |Magnitude(if i < 0 then -i else i)|
    decreases if i < 0 then -i else i
  {
    if CppDiv(i, 10) != 0 {
      EmittedLength(table, CppDiv(i, 10));
    }
  }

  /** Whatever the table, the text has the length of the canonical text. */
  lemma RenderedLength(table: DigitTable, v: int)
    ensures |Rendered(table, v)| == |Decimal(v)|
  {
    EmittedLength(table, v);
  }

  /** At most 20 characters for every 64-bit value, so the guard of 48 bytes leaves room for the NUL. */
  lemma NumericSizeSuffices(t: IntType, v: int)
    requires t.Holds(v)
    ensures |Decimal(v)| <= 20 < kMaxNumericSize
  {
    assert Pow10(4) == 10_000;
    assert Pow10(8) == 10_000 * Pow10(4);
    assert Pow10(12) == 10_000 * Pow10(8);
    assert Pow10(16) == 10_000 * Pow10(12);
    assert Pow10(19) == 1000 * Pow10(16);
    assert Pow10(20) == 10 * Pow10(19);
    MagnitudeLength(if v < 0 then -v else v, if v < 0 then 19 else 20);
  }

  /** Dividing stays inside the type, so `i /= 10` never wraps, even from the minimum. */
  lemma DivisionStaysInType(t: IntType, v: int)
    requires t.Holds(v)
    ensures t.Holds(CppDiv(v, 10)) && (t.min == 0 ==> CppRem(v, 10) >= 0)
  {
  }

  /** std::reverse over [lo, hi): the two ends are swapped and move towards each other until they meet. */
  method ReverseRange(buf: array<char>, lo: nat, hi: nat)
    requires lo <= hi <= buf.Length
    modifies buf
    ensures forall k :: 0 <= k < lo || hi <= k < buf.Length ==> buf[k] == old(buf[k])
    ensures buf[lo..hi] == Reversed(old(buf[lo..hi]))
  {
    var first, last := lo, hi;
    while first < last
      invariant lo <= first && last <= hi && first - lo == hi - last && first <= last + 1
      invariant forall k :: 0 <= k < buf.Length && !(lo <= k < first || last <= k < hi) ==> buf[k] == old(buf[k])
      invariant forall k :: lo <= k < first || last <= k < hi ==> buf[k] == old(buf[lo + (hi - 1 - k)])
    {
      last := last - 1;
      if first < last {
        buf[first], buf[last] := buf[last], buf[first];
      }
      first := first + 1;
    }
    ghost var was := old(buf[lo..hi]);
    forall k | 0 <= k < hi - lo ensures buf[lo..hi][k] == Reversed(was)[k] {
      assert buf[lo + k] == old(buf[hi - 1 - k]) == was[hi - lo - 1 - k];
    }
  }

  /** Round k of the loop emits out[k]; zero comes after the last value, and only there. */
  predicate Round(table: DigitTable, t: IntType, vals: seq<int>, out: string, k: nat)
    requires k < |vals| == |out|
  {
    && t.Holds(vals[k]) && out[k] == Zero(table, CppRem(vals[k], 10))
    && if k + 1 == |vals| then CppDiv(vals[k], 10) == 0 else CppDiv(vals[k], 10) == vals[k + 1] != 0
  }

  /** The values of the loop variable, one for each digit. */
  predicate Quotients(table: DigitTable, t: IntType, vals: seq<int>, out: string)
  {
    |vals| == |out| > 0 && forall k {:trigger Round(table, t, vals, out, k)} :: 0 <= k < |vals| ==> Round(table, t, vals, out, k)
  }

  lemma {:induction false} EmittedQuotients(table: DigitTable, t: IntType, i: int) returns (vals: seq<int>)
    requires t.Holds(i)
    ensures Quotients(table, t, vals, Emitted(table, i)) && vals[0] == i
    decreases if i < 0 then -i else i
  {
    vals := [i];
    if CppDiv(i, 10) != 0 {
      DivisionStaysInType(t, i);
      var rest := EmittedQuotients(table, t, CppDiv(i, 10));
      vals := vals + rest;
      forall k | 0 <= k < |vals| ensures Round(table, t, vals, Emitted(table, i), k) {
        assert k > 0 ==> Round(table, t, rest, Emitted(table, CppDiv(i, 10)), k - 1);
      }
    }
  }

  /** The remainder's digit, and the quotient that the next round starts from. */
  method NextDigit(table: DigitTable, t: IntType, i: int, ghost vals: seq<int>, ghost out: string, ghost k: nat)
    returns (digit: char, next: int)
    requires Quotients(table, t, vals, out) && k < |vals| && i == vals[k]
    ensures digit == out[k]
    ensures if k + 1 == |vals| then next == 0 else next == vals[k + 1] != 0
    ensures t.Holds(next)
  {
    assert Round(table, t, vals, out, k);
    DivisionStaysInType(t, i);
    digit, next := Zero(table, CppRem(i, 10)), CppDiv(i, 10);
  }

  /**
   * The do-while loop of convert<T>, least significant digit first; p is where it
   * stops. The loop variable is a T all the time, so no division wraps.
   */
  method EmitDigits(buf: array<char>, start: nat, table: DigitTable, t: IntType, value: int) returns (p: nat)
    requires t.Holds(value) && start + |Magnitude(if value < 0 then -value else value)| <= buf.Length
    modifies buf
    ensures p == start + |Emitted(table, value)| <= buf.Length
    ensures buf[start..p] == Emitted(table, value)
    ensures forall k :: 0 <= k < start || p <= k < buf.Length ==> buf[k] == old(buf[k])
  {
    EmittedLength(table, value);
    ghost var out := Emitted(table, value);
    ghost var vals := EmittedQuotients(table, t, value);
    var i, more := value, true;
    p := start;
    while more
      invariant start <= p <= start + |out| && (more <==> p < start + |out|)
      invariant t.Holds(i) && (more ==> i == vals[p - start])
      invariant forall k :: start <= k < p ==> buf[k] == out[k - start]
      invariant forall k :: 0 <= k < start || p <= k < buf.Length ==> buf[k] == old(buf[k])
      decreases start + |out| - p
    {
      buf[p], i := NextDigit(table, t, i, vals, out, p - start);
      p := p + 1;
      more := i != 0;
    }
  }

  /**
   * convert: prints value at offset start and returns the length of the text.
   * Only the text and one NUL behind it are written.
   */
  method Convert(buf: array<char>, start: nat, table: DigitTable, t: IntType, value: int) returns (len: nat)
    requires t.Holds(value) && start + |Decimal(value)| < buf.Length
    modifies buf
    ensures len == |Decimal(value)|
    ensures buf[start..start + len] == Rendered(table, value)
    ensures buf[start + len] == '\0'
    ensures forall k :: 0 <= k < start || start + len < k < buf.Length ==> buf[k] == old(buf[k])
  {
    RenderedLength(table, value);
    EmittedLength(table, value);
    var p := EmitDigits(buf, start, table, t, value);
    ghost var digits := buf[start..p];
    if value < 0 {
      buf[p] := '-';
      p := p + 1;
    }
    buf[p] := '\0';
    assert buf[start..p] == digits + if value < 0 then "-" else "";
    ReverseRange(buf, start, p);
    len := p - start;
  }

  /** Converting at current() and adding the length. */
  method AppendText(buffer: FixedBuffer, table: DigitTable, t: IntType, v: int)
    requires t.Holds(v) && buffer.Valid() && buffer.cur + |Decimal(v)| < buffer.data.Length
    modifies buffer`cur, buffer.data
    ensures buffer.Valid() && buffer.Contents() == old(buffer.Contents()) + Rendered(table, v)
  {
    var len := Convert(buffer.data, buffer.cur, table, t, v);
    assert buffer.data[..buffer.cur] == old(buffer.data[..buffer.cur]);
    buffer.Add(len);
  }

  /**
   * LogStream::formatInteger: appends the decimal text when 48 bytes are free
   * and drops the number otherwise. Never writes outside the buffer.
   */
  method FormatInteger(buffer: FixedBuffer, t: IntType, table: DigitTable, v: int)
    requires buffer.Valid() && t.Holds(v)
    modifies buffer`cur, buffer.data
    ensures buffer.Valid()
    ensures buffer.Contents() ==
      old(buffer.Contents()) + if old(buffer.Avail()) >= 48 then Rendered(table, v) else ""
  {
    if buffer.Avail() >= kMaxNumericSize {
      NumericSizeSuffices(t, v);
      AppendText(buffer, table, t, v);
    }
  }

  /** What a reader gets back from one printed value, intended table: the value itself. */
  lemma PrintParseRoundTrip(v: int)
    ensures Canonical(Rendered(intendedDigits, v))
    ensures Parse(Rendered(intendedDigits, v)) == v
    ensures forall s :: Canonical(s) && Parse(s) == v ==> s == Rendered(intendedDigits, v)
  {
    IntendedTablePrintsAll(v);
    ParseDecimal(v);
    forall s | Canonical(s) && Parse(s) == v ensures s == Rendered(intendedDigits, v) {
      DecimalParse(s);
    }
  }
}
