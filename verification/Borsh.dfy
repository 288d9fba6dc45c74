/** Borsh on byte sequences: little-endian integers, fixed arrays and tagged options. A writer `PutX(v, k)`
    puts the encoding of `v` in front of `k`; a reader `GetX(b)` takes a value off the front of `b` and returns
    what is left, as the `&mut &[u8]` cursor does, or fails without a value. */
module Borsh {
  import opened Prelude

  type Bytes = seq<u8>
  type Key = k: Bytes | |k| == 32 witness seq(32, _ => 0)
  type Read<T> = Option<(T, Bytes)>

  function Zeros(n: nat): (z: Bytes)
    ensures |z| == n
  {
    seq(n, _ => 0)
  }

  // ---- Little-endian integers ----------------------------------------------------------------

  function Pow256(w: nat): (p: nat)
    ensures p > 0
  {
    if w == 0 then 1 else 256 * Pow256(w - 1)
  }

  function Le(n: nat, w: nat): (b: Bytes)
    ensures |b| == w
  {
    if w == 0 then [] else [n % 256] + Le(n / 256, w - 1)
  }

  function OfLe(b: Bytes): (n: nat)
    ensures n < Pow256(|b|)
  {
    if b == [] then 0 else b[0] + 256 * OfLe(b[1..])
  }

  lemma {:induction false} OfLeLe(n: nat, w: nat)
    requires n < Pow256(w)
    ensures OfLe(Le(n, w)) == n
  {
    if w > 0 {
      OfLeLe(n / 256, w - 1);
      assert Le(n, w)[1..] == Le(n / 256, w - 1);
    }
  }

  lemma {:induction false} LeOfLe(b: Bytes)
    ensures Le(OfLe(b), |b|) == b
  {
    if b != [] {
      LeOfLe(b[1..]);
      assert OfLe(b) % 256 == b[0] && OfLe(b) / 256 == OfLe(b[1..]);
    }
  }

  lemma Widths()
    ensures Pow256(4) == U32_MAX + 1 && Pow256(8) == U64_MAX + 1
  {
    assert Pow256(2) == 65536;
    assert Pow256(4) == 65536 * 65536;
    assert Pow256(6) == 65536 * 65536 * 65536;
  }

  function PutArray(a: Bytes, k: Bytes): Bytes { a + k }

  function GetArray(n: nat, b: Bytes): (r: Read<Bytes>)
    ensures r.Some? <==> n <= |b|
    ensures r.Some? ==> |r.value.0| == n && b == PutArray(r.value.0, r.value.1)
  {
    if |b| < n then None else Some((b[..n], b[n..]))
  }

  lemma ArrayRoundTrip(a: Bytes, k: Bytes)
    ensures GetArray(|a|, PutArray(a, k)) == Some((a, k))
  {
  }

  function PutU8(v: u8, k: Bytes): Bytes { [v] + k }

  function GetU8(b: Bytes): (r: Read<u8>)
    ensures r.Some? <==> 1 <= |b|
    ensures r.Some? ==> b == PutU8(r.value.0, r.value.1)
  {
    if b == [] then None else Some((b[0], b[1..]))
  }

  lemma U8RoundTrip(v: u8, k: Bytes)
    ensures GetU8(PutU8(v, k)) == Some((v, k))
  {
    assert PutU8(v, k)[1..] == k;
  }

  function PutU32(v: u32, k: Bytes): Bytes { Le(v, 4) + k }

  function GetU32(b: Bytes): (r: Read<u32>)
    ensures r.Some? <==> 4 <= |b|
    ensures r.Some? ==> b == PutU32(r.value.0, r.value.1)
  {
    Widths();
    if |b| < 4 then None
    else
      LeOfLe(b[..4]);
      Some((OfLe(b[..4]), b[4..]))
  }

  lemma U32RoundTrip(v: u32, k: Bytes)
    ensures GetU32(PutU32(v, k)) == Some((v, k))
  {
    Widths();
    OfLeLe(v, 4);
    assert PutU32(v, k)[..4] == Le(v, 4);
  }

  function PutU64(v: u64, k: Bytes): Bytes { Le(v, 8) + k }

  function GetU64(b: Bytes): (r: Read<u64>)
    ensures r.Some? <==> 8 <= |b|
    ensures r.Some? ==> b == PutU64(r.value.0, r.value.1)
  {
    Widths();
    if |b| < 8 then None
    else
      LeOfLe(b[..8]);
      Some((OfLe(b[..8]), b[8..]))
  }

  lemma U64RoundTrip(v: u64, k: Bytes)
    ensures GetU64(PutU64(v, k)) == Some((v, k))
  {
    Widths();
    OfLeLe(v, 8);
    assert PutU64(v, k)[..8] == Le(v, 8);
  }

  /** Two's complement. */
  function Unsigned(v: i64): u64 { if v < 0 then v + (U64_MAX + 1) else v }

  function Signed(n: u64): i64 { if n > I64_MAX then n - (U64_MAX + 1) else n }

  function PutI64(v: i64, k: Bytes): Bytes { PutU64(Unsigned(v), k) }

  function GetI64(b: Bytes): (r: Read<i64>)
    ensures r.Some? <==> 8 <= |b|
    ensures r.Some? ==> b == PutI64(r.value.0, r.value.1)
  {
    match GetU64(b)
    case None => None
    case Some((n, rest)) => Some((Signed(n), rest))
  }

  lemma I64RoundTrip(v: i64, k: Bytes)
    ensures GetI64(PutI64(v, k)) == Some((v, k))
  {
    U64RoundTrip(Unsigned(v), k);
  }

  function PutKey(v: Key, k: Bytes): Bytes { PutArray(v, k) }

  function GetKey(b: Bytes): (r: Read<Key>)
    ensures r.Some? <==> 32 <= |b|
    ensures r.Some? ==> b == PutKey(r.value.0, r.value.1)
  {
    if |b| < 32 then None else Some((b[..32], b[32..]))
  }

  lemma KeyRoundTrip(v: Key, k: Bytes)
    ensures GetKey(PutKey(v, k)) == Some((v, k))
  {
  }

  // ---- Options -------------------------------------------------------------------------------

  function PutOption<T>(put: (T, Bytes) -> Bytes, o: Option<T>, k: Bytes): Bytes {
    match o
    case None => PutU8(0, k)
    case Some(v) => PutU8(1, put(v, k))
  }

  /** Any tag other than 0 and 1 is refused. */
  function GetOption<T>(get: Bytes -> Read<T>, b: Bytes): Read<Option<T>> {
    match GetU8(b)
    case None => None
    case Some((tag, rest)) =>
      if tag == 0 then Some((None, rest))
      else if tag != 1 then None
      else match get(rest)
        case None => None
        case Some((v, left)) => Some((Some(v), left))
  }

  lemma OptionRoundTrip<T>(put: (T, Bytes) -> Bytes, get: Bytes -> Read<T>, o: Option<T>, k: Bytes)
    requires o.Some? ==> get(put(o.value, k)) == Some((o.value, k))
    ensures GetOption(get, PutOption(put, o, k)) == Some((o, k))
  {
    match o
    case None => U8RoundTrip(0, k);
    case Some(v) => U8RoundTrip(1, put(v, k));
  }

  /** What was read is what would be written there. */
  lemma OptionReadBack<T>(put: (T, Bytes) -> Bytes, get: Bytes -> Read<T>, b: Bytes)
    requires forall rest :: get(rest).Some? ==> rest == put(get(rest).value.0, get(rest).value.1)
    ensures var r := GetOption(get, b); r.Some? ==> b == PutOption(put, r.value.0, r.value.1)
  {
  }
}
