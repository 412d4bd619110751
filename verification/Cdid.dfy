/** Document ids (cdid/cdid.go): a 48-bit millisecond clock followed by ten bytes of
    document hash, or a bare hash, printed in an order-preserving base32 alphabet. */
module Cdid {
  import opened Bits

  datatype Cdid = TimeId(time: seq<nat>, data: seq<nat>) | HashId(hash: seq<nat>)

  datatype Result = Ok(id: Cdid) | Corrupt

  // The id value a decoded string of the wrong length yields, without an error.
  const ZERO: Cdid := TimeId([0, 0, 0, 0, 0, 0], [0, 0, 0, 0, 0, 0, 0, 0, 0, 0])

  const MAX_MILLI: nat := 0xffff_ffff_ffff
  const NANOS_PER_MILLI: nat := 1_000_000
  const ALPHABET: string := "0123456789abcdefghjkmnpqrstuvwyz"

  predicate Bytes(n: nat, b: seq<nat>) {
    |b| == n && forall k :: 0 <= k < n ==> b[k] < 256
  }

  predicate Valid(c: Cdid) {
    match c
    case TimeId(time, data) => Bytes(6, time) && Bytes(10, data)
    case HashId(hash) => Bytes(15, hash)
  }

  // ---- Time ----

  /** The instant t (unix nanoseconds) in milliseconds, clamped to 48 bits. */
  function Clamp(t: int): (m: nat)
    ensures m <= MAX_MILLI
  {
    var milli := t / NANOS_PER_MILLI;
    if milli < 0 then 0 else if MAX_MILLI < milli then MAX_MILLI else milli
  }

  lemma ClampMonotone(t: int, u: int)
    requires t <= u
    ensures Clamp(t) <= Clamp(u)
  {
  }

  /** The n bytes of m, most significant first: byte(m >> 8(n-1)) … byte(m). */
  function BigEndian(m: nat, n: nat): (b: seq<nat>)
    ensures Bytes(n, b)
  {
    if n == 0 then [] else BigEndian(m / 256, n - 1) + [m % 256]
  }

  function Number(b: seq<nat>): nat {
    if b == [] then 0 else 256 * Number(b[..|b| - 1]) + b[|b| - 1]
  }

  predicate Fits(m: nat, n: nat) {
    if n == 0 then m == 0 else Fits(m / 256, n - 1)
  }

  // m >> 8k
  function ShiftBytes(m: nat, k: nat): nat {
    if k == 0 then m else ShiftBytes(m / 256, k - 1)
  }

  lemma {:induction false} BigEndianAt(m: nat, n: nat, k: nat)
    requires k < n
    ensures BigEndian(m, n)[k] == ShiftBytes(m, n - 1 - k) % 256
  {
    if k < n - 1 {
      BigEndianAt(m / 256, n - 1, k);
    }
  }

  /** setTime's in-place write of the six clock bytes. */
  method SetTime(time: array<nat>, t: int)
    requires time.Length == 6
    modifies time
    ensures time[..] == BigEndian(Clamp(t), 6)
  {
    var m := Clamp(t);
    time[0] := ShiftBytes(m, 5) % 256;
    time[1] := ShiftBytes(m, 4) % 256;
    time[2] := ShiftBytes(m, 3) % 256;
    time[3] := ShiftBytes(m, 2) % 256;
    time[4] := ShiftBytes(m, 1) % 256;
    time[5] := ShiftBytes(m, 0) % 256;
    forall k | 0 <= k < 6
      ensures time[k] == BigEndian(m, 6)[k]
    {
      BigEndianAt(m, 6, k);
    }
  }

  function New(data: seq<nat>, t: int): (c: Cdid)
    requires Bytes(10, data)
    ensures Valid(c)
  {
    TimeId(BigEndian(Clamp(t), 6), data)
  }

  /** GetTime of a time id, in milliseconds. */
  function GetMilli(c: Cdid): nat
    requires c.TimeId?
  {
    Number(c.time)
  }

  lemma {:induction false} NumberOfBigEndian(m: nat, n: nat)
    requires Fits(m, n)
    ensures Number(BigEndian(m, n)) == m
  {
    if n > 0 {
      NumberOfBigEndian(m / 256, n - 1);
      assert BigEndian(m, n)[..n - 1] == BigEndian(m / 256, n - 1);
    }
  }

  lemma ClampFits(t: int)
    ensures Fits(Clamp(t), 6)
  {
    var m := Clamp(t);
    assert Fits(m / 256 / 256 / 256 / 256 / 256 / 256, 0);
    assert Fits(m / 256 / 256 / 256 / 256 / 256, 1);
    assert Fits(m / 256 / 256 / 256 / 256, 2);
    assert Fits(m / 256 / 256 / 256, 3);
    assert Fits(m / 256 / 256, 4);
    assert Fits(m / 256, 5);
  }

  /** Reading the clock back gives the clamped millisecond. */
  lemma TimeRoundTrip(data: seq<nat>, t: int)
    requires Bytes(10, data)
    ensures GetMilli(New(data, t)) == Clamp(t)
  {
    ClampFits(t);
    NumberOfBigEndian(Clamp(t), 6);
  }

  lemma {:induction false} ClockOrder(m: nat, k: nat, n: nat)
    requires Fits(m, n) && Fits(k, n)
    ensures LexLess(BigEndian(m, n), BigEndian(k, n)) <==> m < k
    ensures BigEndian(m, n) == BigEndian(k, n) <==> m == k
  {
    if n > 0 {
      var a, b := BigEndian(m / 256, n - 1), BigEndian(k / 256, n - 1);
      ClockOrder(m / 256, k / 256, n - 1);
      LexAppend(a, [m % 256], b, [k % 256]);
      assert LexLess([m % 256], [k % 256]) <==> m % 256 < k % 256;
      assert BigEndian(m, n)[..n - 1] == a && BigEndian(k, n)[..n - 1] == b;
      assert BigEndian(m, n)[n - 1] == m % 256 && BigEndian(k, n)[n - 1] == k % 256;
    }
  }

  // ---- Text ----

  function CharOf(d: nat): (c: char)
    requires d < 32
    ensures c != 'x'
  {
    if d < 10 then ('0' as int + d) as char
    else if d < 18 then ('a' as int + d - 10) as char
    else if d < 20 then ('j' as int + d - 18) as char
    else if d < 22 then ('m' as int + d - 20) as char
    else if d < 30 then ('p' as int + d - 22) as char
    else ('y' as int + d - 30) as char
  }

  // 32 stands for a character outside the alphabet
  function DigitOf(c: char): (d: nat)
    ensures d <= 32
    ensures d < 32 ==> CharOf(d) == c
  {
    if '0' <= c <= '9' then c as int - '0' as int
    else if 'a' <= c <= 'h' then c as int - 'a' as int + 10
    else if 'j' <= c <= 'k' then c as int - 'j' as int + 18
    else if 'm' <= c <= 'n' then c as int - 'm' as int + 20
    else if 'p' <= c <= 'w' then c as int - 'p' as int + 22
    else if 'y' <= c <= 'z' then c as int - 'y' as int + 30
    else 32
  }

  lemma AlphabetInOrder()
    ensures |ALPHABET| == 32
    ensures forall d :: 0 <= d < 32 ==> ALPHABET[d] == CharOf(d)
  {
  }

  function Chars(ds: seq<nat>): (s: string)
    requires Symbols(5, ds)
    ensures |s| == |ds|
    ensures forall k :: 0 <= k < |s| ==> s[k] == CharOf(ds[k])
  {
    assert Pow2(5) == 32;
    if ds == [] then [] else [CharOf(ds[0])] + Chars(ds[1..])
  }

  /** Unpadded base32 of a byte string. */
  function Encode(b: seq<nat>): string {
    Chars(Cut(5, Spell(8, b)))
  }

  function DigitsOf(s: string): (ds: seq<nat>)
    ensures |ds| == |s|
    ensures forall k :: 0 <= k < |s| ==> ds[k] == DigitOf(s[k])
  {
    if s == [] then [] else [DigitOf(s[0])] + DigitsOf(s[1..])
  }

  // whole bytes in an unpadded group of r characters
  function TailBytes(r: nat): nat {
    if r == 2 then 1 else if r == 4 then 2 else if r == 5 then 3 else if r == 7 then 4 else 0
  }

  // whole bytes in m unpadded characters
  function WholeBytes(m: nat): (n: nat)
    ensures 8 * n <= 5 * m
  {
    m / 8 * 5 + TailBytes(m % 8)
  }

  function DecodeDigits(ds: seq<nat>): seq<nat> {
    SpellFive(ds);
    Cut(8, Spell(5, ds)[..8 * WholeBytes(|ds|)])
  }

  /** Decodes unpadded base32; trailing bits that fill no byte are ignored. */
  function Decode(s: string): (r: (bool, seq<nat>)) {
    if 32 in DigitsOf(s) then (false, []) else (true, DecodeDigits(DigitsOf(s)))
  }

  lemma {:induction false} SpellFive(ds: seq<nat>)
    ensures |Spell(5, ds)| == 5 * |ds|
  {
    if ds != [] {
      SpellFive(ds[1..]);
    }
  }

  lemma {:induction false} SpellEight(b: seq<nat>)
    ensures |Spell(8, b)| == 8 * |b|
  {
    if b != [] {
      SpellEight(b[1..]);
    }
  }

  function Print(c: Cdid): string {
    match c
    case TimeId(time, data) => Encode(time + data)
    case HashId(hash) => "x" + Encode(hash)
  }

  function Parse(s: string): Result
    requires s != ""
  {
    if s[0] == 'x' then
      var (ok, b) := Decode(s[1..]);
      if !ok then Corrupt else if |b| != 15 then Ok(ZERO) else Ok(HashId(b))
    else
      var (ok, b) := Decode(s);
      if !ok then Corrupt else if |b| != 16 then Ok(ZERO) else Ok(TimeId(b[..6], b[6..]))
  }

  lemma DigitsOfChars(ds: seq<nat>)
    requires Symbols(5, ds)
    ensures DigitsOf(Chars(ds)) == ds
  {
    assert Pow2(5) == 32;
  }

  lemma {:induction false} GroupsOfFive(n: nat)
    ensures Groups(5, n) == (n + 4) / 5
  {
    if n >= 5 {
      GroupsOfFive(n - 5);
    }
  }

  /** Regrouping eight-bit symbols into five-bit ones and back. */
  lemma Regroup(b: seq<nat>)
    requires Bytes(|b|, b)
    ensures
      var ds := Cut(5, Spell(8, b));
      && |ds| == (8 * |b| + 4) / 5
      && 8 * |b| <= |Spell(5, ds)|
      && Cut(8, Spell(5, ds)[..8 * |b|]) == b
  {
    var bits := Spell(8, b);
    assert Pow2(8) == 256;
    SpellEight(b);
    SpellOfCut(5, bits);
    GroupsOfFive(8 * |b|);
    assert Spell(5, Cut(5, bits))[..8 * |b|] == bits;
    CutOfSpell(8, b);
  }

  /** The characters n bytes take are decoded to n bytes. */
  lemma WholeBytesBack(n: nat, m: nat)
    requires m == (8 * n + 4) / 5
    ensures WholeBytes(m) == n
  {
    var k, r := n / 5, n % 5;
    var tail := (8 * r + 4) / 5;
    assert 8 * n + 4 == 5 * (8 * k) + (8 * r + 4);
    assert m == 8 * k + tail;
    assert TailBytes(tail) == r && tail < 8;
  }

  lemma DecodeDigitsBack(ds: seq<nat>, b: seq<nat>)
    requires |ds| == (8 * |b| + 4) / 5 && 8 * |b| <= |Spell(5, ds)| && Cut(8, Spell(5, ds)[..8 * |b|]) == b
    ensures DecodeDigits(ds) == b
  {
    WholeBytesBack(|b|, |ds|);
    DecodeWhole(ds, b);
  }

  lemma DecodeWhole(ds: seq<nat>, b: seq<nat>)
    requires WholeBytes(|ds|) == |b| && 8 * |b| <= |Spell(5, ds)| && Cut(8, Spell(5, ds)[..8 * |b|]) == b
    ensures DecodeDigits(ds) == b
  {
  }

  /** Decoding gives back every byte string that was encoded. */
  lemma DecodeEncode(b: seq<nat>)
    requires Bytes(|b|, b)
    ensures Decode(Encode(b)) == (true, b)
  {
    var ds := Cut(5, Spell(8, b));
    assert 32 !in ds by {
      assert Pow2(5) == 32;
    }
    DigitsOfChars(ds);
    Regroup(b);
    DecodeDigitsBack(ds, b);
  }

  /** Parsing a printed id gives the id back, for time ids and hash ids alike. */
  lemma ParsePrint(c: Cdid)
    requires Valid(c)
    ensures Print(c) != "" && Parse(Print(c)) == Ok(c)
  {
    match c
    case TimeId(time, data) =>
      var b := time + data;
      DecodeEncode(b);
      EncodeNonEmpty(b);
      assert b[..6] == time && b[6..] == data;
    case HashId(hash) =>
      DecodeEncode(hash);
      assert Print(c)[1..] == Encode(hash);
  }

  lemma EncodeNonEmpty(b: seq<nat>)
    requires b != []
    ensures Encode(b) != "" && Encode(b)[0] != 'x'
  {
    SpellEight(b);
    SpellOfCut(5, Spell(8, b));
  }

  // ---- Order ----

  function Codes(s: string): (r: seq<nat>)
    ensures |r| == |s|
    ensures forall k :: 0 <= k < |s| ==> r[k] == s[k] as nat
  {
    if s == [] then [] else [s[0] as nat] + Codes(s[1..])
  }

  /** Byte order on strings. */
  predicate Before(s: string, t: string) {
    LexLess(Codes(s), Codes(t))
  }

  lemma {:induction false} CharsOrder(a: seq<nat>, b: seq<nat>)
    requires Symbols(5, a) && Symbols(5, b)
    ensures Before(Chars(a), Chars(b)) <==> LexLess(a, b)
  {
    assert Pow2(5) == 32;
    if a != [] && b != [] {
      CharsOrder(a[1..], b[1..]);
      assert Codes(Chars(a))[1..] == Codes(Chars(a[1..]));
      assert Codes(Chars(b))[1..] == Codes(Chars(b[1..]));
    }
  }

  lemma EncodeOrder(a: seq<nat>, b: seq<nat>)
    requires Bytes(|a|, a) && Bytes(|b|, b)
    requires |a| == |b|
    ensures Before(Encode(a), Encode(b)) <==> LexLess(a, b)
  {
    assert Pow2(8) == 256;
    SpellEight(a);
    SpellEight(b);
    CharsOrder(Cut(5, Spell(8, a)), Cut(5, Spell(8, b)));
    CutOrder(5, Spell(8, a), Spell(8, b));
    SpellOrder(8, a, b);
  }

  /** String order on time ids is the order of (clamped millisecond, data). */
  lemma PrintOrder(d: seq<nat>, t: int, e: seq<nat>, u: int)
    requires Bytes(10, d) && Bytes(10, e)
    ensures Before(Print(New(d, t)), Print(New(e, u)))
      <==> Clamp(t) < Clamp(u) || (Clamp(t) == Clamp(u) && LexLess(d, e))
  {
    var a, b := BigEndian(Clamp(t), 6), BigEndian(Clamp(u), 6);
    EncodeOrder(a + d, b + e);
    LexAppend(a, d, b, e);
    ClampFits(t);
    ClampFits(u);
    ClockOrder(Clamp(t), Clamp(u), 6);
  }

  const NO_DATA: seq<nat> := [0, 0, 0, 0, 0, 0, 0, 0, 0, 0]

  lemma {:induction false} NothingBelowZeros(d: seq<nat>, n: nat)
    requires |d| == n
    ensures !LexLess(d, seq(n, _ => 0))
  {
    if n > 0 {
      NothingBelowZeros(d[1..], n - 1);
      assert seq(n, _ => 0)[1..] == seq<nat>(n - 1, _ => 0);
    }
  }

  /** An id sorts below the zero-data id of an instant exactly when its millisecond is
      strictly below that instant's. */
  lemma CutoffIsStrict(d: seq<nat>, t: int, u: int)
    requires Bytes(10, d)
    ensures Before(Print(New(d, t)), Print(New(NO_DATA, u))) <==> Clamp(t) < Clamp(u)
  {
    PrintOrder(d, t, NO_DATA, u);
    NothingBelowZeros(d, 10);
    assert NO_DATA == seq(10, _ => 0);
  }

  /** The same of ids by name. */
  lemma CutoffBetween(id: string, d: seq<nat>, t: int, cutoff: string, u: int)
    requires Bytes(10, d) && id == Print(New(d, t)) && cutoff == Print(New(NO_DATA, u))
    ensures Before(id, cutoff) <==> Clamp(t) < Clamp(u)
  {
    CutoffIsStrict(d, t, u);
  }

  /** Ids of different data differ. */
  lemma PrintDiffers(d: seq<nat>, t: int, e: seq<nat>, u: int)
    requires Bytes(10, d) && Bytes(10, e) && d != e
    ensures Print(New(d, t)) != Print(New(e, u))
  {
    ParsePrint(New(d, t));
    ParsePrint(New(e, u));
  }
}
