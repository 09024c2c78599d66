// Minting ids (agent-api/id.go): 48 bits of millisecond clock and 80 bits of
// entropy as 26 Crockford base-32 characters, in creation order as plain text.
module Ulids {

  type Byte = x: int | 0 <= x < 256

  const DIGITS := "0123456789ABCDEFGHJKMNPQRSTVWXYZ"

  const BITS40 := 0x100_0000_0000
  const BITS48 := 0x1_0000_0000_0000
  const BITS80 := 0x1_0000_0000_0000_0000_0000
  const BITS79 := 0x8000_0000_0000_0000_0000

  // ---------- numbers ----------

  /** Bytes as a big-endian number. */
  function Value(b: seq<Byte>): nat {
    if b == [] then 0 else 256 * Value(b[..|b| - 1]) + b[|b| - 1]
  }

  function Pow256(n: nat): (p: nat)
    ensures p > 0
  {
    if n == 0 then 1 else 256 * Pow256(n - 1)
  }

  function Pow32(n: nat): (p: nat)
    ensures p > 0
  {
    if n == 0 then 1 else 32 * Pow32(n - 1)
  }

  lemma Powers()
    ensures Pow256(5) == BITS40 == Pow32(8)
    ensures Pow256(6) == BITS48 && Pow256(10) == BITS80 && Pow256(16) == BITS48 * BITS80
    ensures Pow32(10) >= BITS48 && Pow32(25) * 8 == BITS48 * BITS80
  {
    assert Pow256(6) == 256 * Pow256(5);
    assert Pow256(10) == 256 * 256 * 256 * 256 * Pow256(6);
    assert Pow256(16) == 256 * 256 * 256 * 256 * 256 * 256 * Pow256(10);
    assert Pow32(10) == 32 * 32 * Pow32(8);
    assert Pow32(15) == 32 * 32 * 32 * 32 * 32 * Pow32(10);
    assert Pow32(20) == 32 * 32 * 32 * 32 * 32 * Pow32(15);
    assert Pow32(25) == 32 * 32 * 32 * 32 * 32 * Pow32(20);
  }

  lemma Regroup(k: int, a: int, p: int)
    ensures k * (a * p) == a * (k * p)
  {
  }

  lemma AtLeast(d: int, k: int, p: int)
    requires d >= k && p >= 0
    ensures d * p >= k * p
  {
    assert (d - k) * p >= 0;
  }

  lemma ModIs(v: int, q: int, k: int, r: int)
    requires q > 0 && v == k * q + r && 0 <= r < q
    ensures v % q == r
  {
    var d := v / q - k;
    assert v == v / q * q + v % q;
    assert d * q == v / q * q - k * q;
    assert -d * q == -(d * q);
    if d > 0 { AtLeast(d, 1, q); }
    if d < 0 { AtLeast(-d, 1, q); }
  }

  lemma {:induction false} ValueBound(b: seq<Byte>)
    ensures Value(b) < Pow256(|b|)
  {
    if b != [] { ValueBound(b[..|b| - 1]); }
  }

  lemma {:induction false} ValueAppend(a: seq<Byte>, b: seq<Byte>)
    ensures Value(a + b) == Value(a) * Pow256(|b|) + Value(b)
  {
    if b == [] {
      assert a + b == a;
    } else {
      var n := |b| - 1;
      assert (a + b)[..|a| + n] == a + b[..n];
      ValueAppend(a, b[..n]);
      Regroup(256, Value(a), Pow256(n));
    }
  }

  lemma {:induction false} ValueInjective(a: seq<Byte>, b: seq<Byte>)
    requires |a| == |b| && Value(a) == Value(b)
    ensures a == b
  {
    if a != [] {
      var n := |a| - 1;
      assert a[n] == b[n] && Value(a[..n]) == Value(b[..n]);
      ValueInjective(a[..n], b[..n]);
      assert a == a[..n] + [a[n]] && b == b[..n] + [b[n]];
    }
  }

  /** The n low bytes of a number. */
  function BytesOf(v: nat, n: nat): (b: seq<Byte>)
    ensures |b| == n
  {
    if n == 0 then [] else BytesOf(v / 256, n - 1) + [v % 256]
  }

  lemma {:induction false} BytesOfReads(v: nat, n: nat)
    ensures Value(BytesOf(v, n)) == v % Pow256(n)
  {
    if n > 0 {
      BytesOfReads(v / 256, n - 1);
      assert BytesOf(v, n)[..n - 1] == BytesOf(v / 256, n - 1);
      ModStep(v, Pow256(n - 1));
    }
  }

  lemma ModStep(v: nat, p: nat)
    requires p > 0
    ensures v % (256 * p) == 256 * (v / 256 % p) + v % 256
  {
    var k, r := v / 256 / p, v / 256 % p;
    assert v / 256 == k * p + r;
    Regroup(256, k, p);
    ModIs(v, 256 * p, k, 256 * r + v % 256);
  }

  lemma Stamp(v: nat, b: seq<Byte>)
    requires b == [v / 0x100_0000_0000 % 256, v / 0x1_0000_0000 % 256, v / 0x100_0000 % 256,
                   v / 0x1_0000 % 256, v / 0x100 % 256, v % 256]
    ensures b == BytesOf(v, 6)
  {
    var a1, a2, a3, a4, a5 := v / 256, v / 0x1_0000, v / 0x100_0000, v / 0x1_0000_0000, v / 0x100_0000_0000;
    assert a2 == a1 / 256 && a3 == a2 / 256 && a4 == a3 / 256 && a5 == a4 / 256;
    assert BytesOf(a5, 1) == [a5 % 256];
    assert BytesOf(a4, 2) == [a5 % 256, a4 % 256];
    assert BytesOf(a3, 3) == [a5 % 256, a4 % 256, a3 % 256];
    assert BytesOf(a2, 4) == [a5 % 256, a4 % 256, a3 % 256, a2 % 256];
    assert BytesOf(a1, 5) == [a5 % 256, a4 % 256, a3 % 256, a2 % 256, a1 % 256];
  }

  // ---------- base-32 text, as it is read ----------

  predicate IsDigit(c: char) {
    '0' <= c <= '9' || ('A' <= c <= 'Z' && c != 'I' && c != 'L' && c != 'O' && c != 'U')
  }

  /** Crockford's value of a character. */
  function DigitValue(c: char): (d: nat)
    requires IsDigit(c)
    ensures d < 32
  {
    if c <= '9' then c as int - 48
    else if c <= 'H' then c as int - 55
    else if c <= 'K' then c as int - 56
    else if c <= 'N' then c as int - 57
    else if c <= 'T' then c as int - 58
    else c as int - 59
  }

  predicate IsNumber(t: string) {
    forall i :: 0 <= i < |t| ==> IsDigit(t[i])
  }

  function Number(t: string): nat
    requires IsNumber(t)
  {
    if t == "" then 0 else 32 * Number(t[..|t| - 1]) + DigitValue(t[|t| - 1])
  }

  /** The order `sort` puts texts of one length in. */
  predicate TextBelow(a: string, b: string)
    requires |a| == |b|
  {
    exists k :: 0 <= k < |a| && a[..k] == b[..k] && a[k] < b[k]
  }

  lemma DigitOrder(c: char, d: char)
    requires IsDigit(c) && IsDigit(d)
    ensures c < d <==> DigitValue(c) < DigitValue(d)
    ensures c == d <==> DigitValue(c) == DigitValue(d)
  {
  }

  lemma DigitTable(d: nat)
    requires d < 32
    ensures IsDigit(DIGITS[d]) && DigitValue(DIGITS[d]) == d
  {
  }

  /** Texts of one length are equal, or in order, as the numbers they spell. */
  lemma {:induction false} TextOrder(a: string, b: string)
    requires |a| == |b| && IsNumber(a) && IsNumber(b)
    ensures a == b <==> Number(a) == Number(b)
    ensures TextBelow(a, b) <==> Number(a) < Number(b)
  {
    if a != "" {
      var n := |a| - 1;
      var x, y := a[..n], b[..n];
      TextOrder(x, y);
      DigitOrder(a[n], b[n]);
      assert a == x + [a[n]] && b == y + [b[n]];
      BelowLast(a, b);
    }
  }

  lemma BelowLast(a: string, b: string)
    requires |a| == |b| > 0
    ensures TextBelow(a, b) <==>
      var n := |a| - 1; TextBelow(a[..n], b[..n]) || (a[..n] == b[..n] && a[n] < b[n])
  {
    var n := |a| - 1;
    var x, y := a[..n], b[..n];
    if TextBelow(x, y) {
      var k :| 0 <= k < n && x[..k] == y[..k] && x[k] < y[k];
      assert a[..k] == x[..k] && b[..k] == y[..k];
    }
    if TextBelow(a, b) {
      var k :| 0 <= k <= n && a[..k] == b[..k] && a[k] < b[k];
      if k < n { assert x[..k] == a[..k] && y[..k] == b[..k] && x[k] < y[k]; }
    }
  }

  /** A text's first character says how large its number can be. */
  lemma {:induction false} LeadingDigit(t: string)
    requires t != "" && IsNumber(t)
    ensures DigitValue(t[0]) * Pow32(|t| - 1) <= Number(t) < (DigitValue(t[0]) + 1) * Pow32(|t| - 1)
  {
    var n := |t| - 1;
    if n == 0 {
      assert t[..0] == "";
    } else {
      LeadingDigit(t[..n]);
      var d, p := DigitValue(t[0]), Pow32(n - 1);
      Regroup(32, d, p);
      Regroup(32, d + 1, p);
    }
  }

  // ---------- base-32 text, as it is printed ----------

  function Base32(v: nat, n: nat): (t: string)
    ensures |t| == n
  {
    if n == 0 then "" else Base32(v / 32, n - 1) + [DIGITS[v % 32]]
  }

  lemma {:induction false} Base32Reads(v: nat, n: nat)
    requires v < Pow32(n)
    ensures IsNumber(Base32(v, n)) && Number(Base32(v, n)) == v
  {
    if n > 0 {
      Base32Reads(v / 32, n - 1);
      DigitTable(v % 32);
      assert Base32(v, n)[..n - 1] == Base32(v / 32, n - 1);
    }
  }

  lemma Shifted(x: nat, p: nat, m: nat, d: nat)
    ensures 32 * (x * p + m) + d == x * (32 * p) + (32 * m + d)
  {
    Regroup(32, x, p);
  }

  lemma {:induction false} NumberAppend(a: string, b: string)
    requires IsNumber(a) && IsNumber(b)
    ensures IsNumber(a + b) && Number(a + b) == Number(a) * Pow32(|b|) + Number(b)
  {
    if b == "" {
      assert a + b == a;
    } else {
      var n := |b| - 1;
      NumberAppend(a, b[..n]);
      assert (a + b)[..|a| + n] == a + b[..n];
      Shifted(Number(a), Pow32(n), Number(b[..n]), DigitValue(b[n]));
    }
  }

  /** The three loops of encodeULID: the low digit last. */
  method FillDigits(out: array<char>, at: nat, n: nat, v: nat)
    requires at + n <= out.Length
    modifies out
    ensures out[at..at + n] == Base32(v, n)
    ensures forall j :: 0 <= j < out.Length && !(at <= j < at + n) ==> out[j] == old(out[j])
  {
    var rest := v;
    var i := n;
    while i > 0
      invariant 0 <= i <= n
      invariant Base32(v, n) == Base32(rest, i) + out[at + i..at + n]
      invariant forall j :: 0 <= j < out.Length && !(at <= j < at + n) ==> out[j] == old(out[j])
    {
      ghost var done := out[at + i..at + n];
      i := i - 1;
      out[at + i] := DIGITS[rest % 32];
      assert out[at + i..at + n] == [DIGITS[rest % 32]] + done;
      rest := rest / 32;
    }
  }

  predicate IsUlid(t: string) {
    |t| == 26 && IsNumber(t)
  }

  /** encodeULID spells the 16 bytes as one 128-bit number. */
  method EncodeUlid(b: seq<Byte>) returns (t: string)
    requires |b| == 16
    ensures IsUlid(t) && Number(t) == Value(b)
  {
    hide Base32, Number;
    var out := new char[26];
    var ts := b[0] as int * 0x100_0000_0000 + b[1] as int * 0x1_0000_0000 + b[2] as int * 0x100_0000
              + b[3] as int * 0x1_0000 + b[4] as int * 0x100 + b[5];
    FillDigits(out, 0, 10, ts);
    var hi := b[6] as int * 0x1_0000_0000 + b[7] as int * 0x100_0000 + b[8] as int * 0x1_0000
              + b[9] as int * 0x100 + b[10];
    var lo := b[11] as int * 0x1_0000_0000 + b[12] as int * 0x100_0000 + b[13] as int * 0x1_0000
              + b[14] as int * 0x100 + b[15];
    FillDigits(out, 10, 8, hi);
    assert out[0..10] == Base32(ts, 10);
    FillDigits(out, 18, 8, lo);
    assert out[0..10] == Base32(ts, 10) && out[10..18] == Base32(hi, 8);
    t := out[..];
    assert t == Base32(ts, 10) + Base32(hi, 8) + Base32(lo, 8);
    FiveBytes(b[6..11]);
    FiveBytes(b[11..16]);
    FiveBytes(b[..5]);
    assert b[..6][..5] == b[..5];
    assert b[11..] == b[11..16];
    Joined(b, ts, hi, lo);
  }

  lemma FiveBytes(b: seq<Byte>)
    requires |b| == 5
    ensures Value(b) == b[0] as int * 0x1_0000_0000 + b[1] as int * 0x100_0000 + b[2] as int * 0x1_0000
                        + b[3] as int * 0x100 + b[4]
  {
    assert b[..4][..3] == b[..3] && b[..3][..2] == b[..2] && b[..2][..1] == b[..1] && b[..1][..0] == [];
    assert Value(b[..1]) == b[0];
    assert Value(b[..2]) == 256 * Value(b[..1]) + b[1];
    assert Value(b[..3]) == 256 * Value(b[..2]) + b[2];
    assert Value(b[..4]) == 256 * Value(b[..3]) + b[3];
  }

  lemma EightMore(a: string, b: string)
    requires IsNumber(a) && IsNumber(b) && |b| == 8
    ensures IsNumber(a + b) && Number(a + b) == Number(a) * BITS40 + Number(b)
  {
    Powers();
    NumberAppend(a, b);
  }

  lemma FiveMore(a: seq<Byte>, b: seq<Byte>)
    requires |b| == 5
    ensures Value(a + b) == Value(a) * BITS40 + Value(b)
  {
    Powers();
    ValueAppend(a, b);
  }

  lemma Joined(b: seq<Byte>, ts: nat, hi: nat, lo: nat)
    requires |b| == 16 && ts == Value(b[..6]) && hi == Value(b[6..11]) && lo == Value(b[11..])
    ensures var t := Base32(ts, 10) + Base32(hi, 8) + Base32(lo, 8); IsNumber(t) && Number(t) == Value(b)
  {
    JoinedBytes(b);
    JoinedText(b, ts, hi, lo);
  }

  lemma JoinedBytes(b: seq<Byte>)
    requires |b| == 16
    ensures Value(b) == (Value(b[..6]) * BITS40 + Value(b[6..11])) * BITS40 + Value(b[11..])
  {
    hide Value;
    FiveMore(b[..6], b[6..11]);
    FiveMore(b[..6] + b[6..11], b[11..]);
    assert b == b[..6] + b[6..11] + b[11..];
  }

  lemma JoinedText(b: seq<Byte>, ts: nat, hi: nat, lo: nat)
    requires |b| == 16 && ts == Value(b[..6]) && hi == Value(b[6..11]) && lo == Value(b[11..])
    ensures var t := Base32(ts, 10) + Base32(hi, 8) + Base32(lo, 8);
      IsNumber(t) && Number(t) == (ts * BITS40 + hi) * BITS40 + lo
  {
    Powers();
    ValueBound(b[..6]);
    ValueBound(b[6..11]);
    ValueBound(b[11..]);
    Base32Reads(ts, 10);
    Base32Reads(hi, 8);
    Base32Reads(lo, 8);
    hide Value, Number, Base32, Pow256, Pow32;
    EightMore(Base32(ts, 10), Base32(hi, 8));
    EightMore(Base32(ts, 10) + Base32(hi, 8), Base32(lo, 8));
  }

  /** Encoding keeps the order of the bytes, and two ids only agree on one value. */
  lemma EncodingIsOrdered(a: seq<Byte>, s: string, b: seq<Byte>, t: string)
    requires |a| == |b| == 16 && IsUlid(s) && IsUlid(t) && Number(s) == Value(a) && Number(t) == Value(b)
    ensures s == t <==> a == b
    ensures TextBelow(s, t) <==> Value(a) < Value(b)
  {
    TextOrder(s, t);
    if s == t { ValueInjective(a, b); }
  }

  /** Encoding can be undone: the bytes are those of the number the id spells,
      and no id starts above '7'. */
  lemma EncodingIsUndone(a: seq<Byte>, s: string)
    requires |a| == 16 && IsUlid(s) && Number(s) == Value(a)
    ensures BytesOf(Number(s), 16) == a
    ensures s[0] <= '7'
  {
    ValueBound(a);
    BytesOfReads(Value(a), 16);
    Under(Value(a), Pow256(16));
    ValueInjective(BytesOf(Value(a), 16), a);
    FirstDigit(s);
  }

  lemma Under(v: nat, p: nat)
    requires v < p
    ensures v % p == v
  {
    ModIs(v, p, 0, v);
  }

  lemma FirstDigit(s: string)
    requires IsUlid(s) && Number(s) < Pow256(16)
    ensures s[0] <= '7'
  {
    Powers();
    LeadingDigit(s);
    if DigitValue(s[0]) >= 8 { AtLeast(DigitValue(s[0]), 8, Pow32(25)); }
  }

  // ---------- the entropy counter ----------

  /** One more, when the byte at i is not full and every later one is. */
  lemma {:induction false} Carry(s: seq<Byte>, t: seq<Byte>, i: nat)
    requires |s| == |t| && i < |s| && s[i] < 255 && t[i] == s[i] + 1 && s[..i] == t[..i]
    requires forall j :: i < j < |s| ==> s[j] == 255 && t[j] == 0
    ensures Value(t) == Value(s) + 1
  {
    var n := |s| - 1;
    if i < n {
      assert s[..n][..i] == s[..i] && t[..n][..i] == t[..i];
      Carry(s[..n], t[..n], i);
    }
  }

  lemma {:induction false} Full(s: seq<Byte>, t: seq<Byte>)
    requires |s| == |t| && forall j :: 0 <= j < |s| ==> s[j] == 255 && t[j] == 0
    ensures Value(s) + 1 == Pow256(|s|) && Value(t) == 0
  {
    if s != [] { Full(s[..|s| - 1], t[..|s| - 1]); }
  }

  /** As the 80-bit counter counts. */
  lemma Carried(s: seq<Byte>, t: seq<Byte>, i: nat)
    requires |s| == |t| == 10 && i < 10 && s[i] < 255 && t[i] == s[i] + 1 && s[..i] == t[..i]
    requires forall j :: i < j < 10 ==> s[j] == 255 && t[j] == 0
    ensures Value(t) == (Value(s) + 1) % BITS80
  {
    Carry(s, t, i);
    ValueBound(t);
    Powers();
    Under(Value(t), BITS80);
  }

  lemma Wrapped(s: seq<Byte>, t: seq<Byte>)
    requires |s| == |t| == 10 && forall j :: 0 <= j < 10 ==> s[j] == 255 && t[j] == 0
    ensures Value(t) == (Value(s) + 1) % BITS80
  {
    Full(s, t);
    Powers();
  }

  method IncrementEntropy(e: array<Byte>)
    requires e.Length == 10
    modifies e
    ensures Value(e[..]) == (Value(old(e[..])) + 1) % BITS80
  {
    hide Value;
    ghost var was := e[..];
    var i := 9;
    while i >= 0
      invariant -1 <= i <= 9
      invariant forall j :: i < j < 10 ==> was[j] == 255 && e[j] == 0
      invariant forall j :: 0 <= j <= i ==> e[j] == was[j]
    {
      e[i] := if e[i] == 255 then 0 else e[i] + 1;
      if e[i] != 0 {
        Carried(was, e[..], i);
        return;
      }
      i := i - 1;
    }
    Wrapped(was, e[..]);
  }

  // ---------- the generator ----------

  /** The last millisecond used, and its entropy as a number. */
  datatype Gen = Gen(last: nat, entropy: nat)

  const NEW_GEN := Gen(0, 0)

  /** One id minted at ms; drawn is what the random source gives. */
  function Mint(g: Gen, ms: nat, drawn: nat): Gen {
    if ms == g.last then Gen(ms, (g.entropy + 1) % BITS80) else Gen(ms, drawn % BITS79)
  }

  /** The 128-bit number of the id the generator gave out last. */
  function IdNumber(g: Gen): nat {
    g.last % BITS48 * BITS80 + g.entropy
  }

  lemma {:induction false} LeadingByte(b: seq<Byte>)
    requires b != []
    ensures Value([b[0] % 128] + b[1..]) == Value(b) % (Pow256(|b| - 1) * 128)
  {
    var rest := b[1..];
    assert b == [b[0]] + rest;
    ValueAppend([b[0]], rest);
    ValueAppend([b[0] % 128], rest);
    ValueBound(rest);
    var p, x := Pow256(|rest|), b[0] as int;
    assert Value([b[0]]) == b[0] && Value([b[0] % 128]) == b[0] % 128;
    Masked(x, p, Value(rest));
  }

  lemma Masked(x: nat, p: nat, r: nat)
    requires x < 256 && r < p
    ensures (x * p + r) % (p * 128) == x % 128 * p + r
  {
    var k, y := x / 128, x % 128;
    Regroup(k, 128, p);
    assert x * p == k * (p * 128) + y * p by {
      assert x == k * 128 + y && (k * 128 + y) * p == k * 128 * p + y * p;
      Regroup(128, k, p);
    }
    AtLeast(127, y, p);
    ModIs(x * p + r, p * 128, k, y * p + r);
  }

  class IdGen {
    var last: nat
    const seed: array<Byte>

    ghost predicate Valid() reads this {
      seed.Length == 10
    }

    ghost function State(): Gen reads this, seed {
      Gen(last, Value(seed[..]))
    }

    constructor ()
      ensures Valid() && State() == NEW_GEN && fresh(seed)
    {
      last := 0;
      seed := new Byte[10](i => 0);
      new;
      Full(seq(10, i => 255), seed[..]);
    }

    /** New; the id spells the millisecond's 48 bits and the entropy. */
    method New(ms: nat, drawn: seq<Byte>) returns (id: string)
      requires Valid() && |drawn| == 10
      modifies this`last, seed
      ensures Valid()
      ensures State() == Mint(old(State()), ms, Value(drawn))
      ensures IsUlid(id) && Number(id) == IdNumber(State())
      // A new millisecond takes the drawn bytes with the top bit cleared, the same
      // one the entropy plus one; and the id spells the clock's 48 bits, then the 80.
      ensures last == ms && (ms != old(last) ==> seed[..] == [drawn[0] % 128] + drawn[1..])
      ensures ms == old(last) ==> Value(seed[..]) == (Value(old(seed[..])) + 1) % 0x1_0000_0000_0000_0000_0000
      ensures Number(id) == ms % 0x1_0000_0000_0000 * 0x1_0000_0000_0000_0000_0000 + Value(seed[..])
    {
      hide Value, Number, Base32, BytesOf;
      Powers();
      if ms == last {
        IncrementEntropy(seed);
      } else {
        forall i | 0 <= i < 10 { seed[i] := drawn[i]; }
        assert seed[..] == drawn;
        seed[0] := seed[0] % 128;
        assert seed[..] == [drawn[0] % 128] + drawn[1..];
        LeadingByte(drawn);
        assert Pow256(10) == 256 * Pow256(9);
        last := ms;
      }
      var stamp: seq<Byte> := [ms / 0x100_0000_0000 % 256, ms / 0x1_0000_0000 % 256, ms / 0x100_0000 % 256,
                               ms / 0x1_0000 % 256, ms / 0x100 % 256, ms % 256];
      Stamp(ms, stamp);
      BytesOfReads(ms, 6);
      ValueAppend(stamp, seed[..]);
      id := EncodeUlid(stamp + seed[..]);
    }
  }

  // ---------- ids in order ----------

  /** The next id sorts after this one exactly when the clock moved on, or stood
      still with the entropy not yet full. A clock that goes back breaks it. */
  lemma SortsAfter(g: Gen, ms: nat, drawn: nat, id: string, next: string)
    requires g.last < BITS48 && ms < BITS48 && g.entropy < BITS80
    requires IsUlid(id) && Number(id) == IdNumber(g)
    requires IsUlid(next) && Number(next) == IdNumber(Mint(g, ms, drawn))
    ensures TextBelow(id, next) <==> ms > g.last || (ms == g.last && g.entropy < BITS80 - 1)
  {
    TextOrder(id, next);
    Advances(g, ms, drawn);
  }

  lemma Advances(g: Gen, ms: nat, drawn: nat)
    requires g.last < BITS48 && ms < BITS48 && g.entropy < BITS80
    ensures IdNumber(g) < IdNumber(Mint(g, ms, drawn)) <==> ms > g.last || (ms == g.last && g.entropy < BITS80 - 1)
  {
  }

  /** A clock that goes back a millisecond gives an id that sorts before the last. */
  lemma ClockBack(id: string, next: string)
    requires IsUlid(id) && Number(id) == IdNumber(Gen(2, 0))
    requires IsUlid(next) && Number(next) == IdNumber(Mint(Gen(2, 0), 1, 0))
    ensures TextBelow(next, id)
  {
    TextOrder(next, id);
  }

  /** How many ids in a row, up to the k-th, share its millisecond. */
  function Streak(clock: seq<nat>, k: nat): (n: nat)
    requires k < |clock|
    ensures 1 <= n <= k + 1
  {
    if k > 0 && clock[k - 1] == clock[k] then Streak(clock, k - 1) + 1 else 1
  }

  /** A run of New: gens[k] is the state before the k-th id. */
  predicate MintRun(gens: seq<Gen>, clock: seq<nat>, draws: seq<nat>) {
    && |gens| == |clock| + 1 && |draws| == |clock| && gens[0] == NEW_GEN
    && (forall k :: 0 <= k < |clock| ==> gens[k + 1] == Mint(gens[k], clock[k], draws[k]))
    && (forall k :: 0 <= k < |clock| - 1 ==> clock[k] <= clock[k + 1])
    && forall k :: 0 <= k < |clock| ==> clock[k] < BITS48
  }

  lemma {:induction false} Headroom(gens: seq<Gen>, clock: seq<nat>, draws: seq<nat>, k: nat)
    requires MintRun(gens, clock, draws) && k < |clock|
    requires forall i :: 0 <= i <= k ==> Streak(clock, i) <= BITS79
    ensures gens[k + 1].last == clock[k] && gens[k + 1].entropy < BITS79 + Streak(clock, k) - 1
  {
    assert gens[k + 1] == Mint(gens[k], clock[k], draws[k]);
    if k > 0 {
      Headroom(gens, clock, draws, k - 1);
      assert gens[k] == gens[k - 1 + 1];
      assert Streak(clock, k) <= BITS79;
    }
  }

  /** Ids minted under a clock that does not go back, at most 2^79 in one
      millisecond, are strictly increasing as text, any two of them. */
  lemma IdsSort(gens: seq<Gen>, clock: seq<nat>, draws: seq<nat>, i: nat, j: nat, id: string, next: string)
    requires MintRun(gens, clock, draws) && i < j < |clock|
    requires forall k :: 0 <= k <= j ==> Streak(clock, k) <= BITS79
    requires IsUlid(id) && Number(id) == IdNumber(gens[i + 1])
    requires IsUlid(next) && Number(next) == IdNumber(gens[j + 1])
    ensures TextBelow(id, next)
  {
    TextOrder(id, next);
    NumbersGrow(gens, clock, draws, i, j);
  }

  lemma {:induction false} NumbersGrow(gens: seq<Gen>, clock: seq<nat>, draws: seq<nat>, i: nat, j: nat)
    requires MintRun(gens, clock, draws) && i < j < |clock|
    requires forall k :: 0 <= k <= j ==> Streak(clock, k) <= BITS79
    ensures IdNumber(gens[i + 1]) < IdNumber(gens[j + 1])
  {
    if i < j - 1 { NumbersGrow(gens, clock, draws, i, j - 1); }
    Headroom(gens, clock, draws, j - 1);
    Headroom(gens, clock, draws, j);
    assert gens[j + 1] == Mint(gens[j], clock[j], draws[j]);
    assert Streak(clock, j) <= BITS79;
    assert clock[j - 1] <= clock[j - 1 + 1] && clock[j - 1] < BITS48 && clock[j] < BITS48;
    Advances(gens[j], clock[j], draws[j]);
  }
}
