/** The byte bitmaps behind every set of key codes: setting a bit is adding or removing a
    code, and the clear-lowest-bit loop lists the codes in ascending order. */
module KeyBits {
  /** One bit for every code up to KEY_MAX. */
  const BYTES := 96

  function Mask(k: nat): bv8 {
    if k == 0 then 1 else if k == 1 then 2 else if k == 2 then 4 else if k == 3 then 8
    else if k == 4 then 16 else if k == 5 then 32 else if k == 6 then 64 else 128
  }

  predicate On(b: bv8, k: nat) { b & Mask(k) != 0 }

  predicate Bit(keys: seq<bv8>, code: nat)
    requires code < 8 * |keys|
  {
    On(keys[code / 8], code % 8)
  }

  /** The codes a bitmap holds. */
  ghost function Bits(keys: seq<bv8>): set<nat> {
    set c | 0 <= c < 8 * |keys| && Bit(keys, c)
  }

  /** Tests one bit of a bitmap. */
  function TestBit(keys: seq<bv8>, code: nat): (on: bool)
    ensures on <==> code in Bits(keys)
  {
    code < 8 * |keys| && Bit(keys, code)
  }

  lemma OrMask(b: bv8, k: nat, j: nat)
    requires k < 8 && j < 8
    ensures On(b | Mask(k), j) <==> j == k || On(b, j)
  {}

  lemma ClearMask(b: bv8, k: nat, j: nat)
    requires k < 8 && j < 8
    ensures On(b & !Mask(k), j) <==> j != k && On(b, j)
  {}

  /** The number of zero bits below the lowest set one. */
  function TrailingZeros(b: bv8): (k: nat)
    requires b != 0
    ensures k < 8 && On(b, k) && forall j :: 0 <= j < k ==> !On(b, j)
  {
    if On(b, 0) then 0 else if On(b, 1) then 1 else if On(b, 2) then 2 else if On(b, 3) then 3
    else if On(b, 4) then 4 else if On(b, 5) then 5 else if On(b, 6) then 6 else 7
  }

  /** Subtracting one and masking clears exactly the lowest set bit. */
  lemma ClearLowest(b: bv8, j: nat)
    requires b != 0 && j < 8
    ensures On(b & (b - 1), j) <==> On(b, j) && j != TrailingZeros(b)
  {}

  lemma AllOff(b: bv8)
    ensures b == 0 <==> forall j :: 0 <= j < 8 ==> !On(b, j)
  {
    if forall j :: 0 <= j < 8 ==> !On(b, j) {
      assert !On(b, 0) && !On(b, 1) && !On(b, 2) && !On(b, 3) && !On(b, 4) && !On(b, 5) && !On(b, 6) && !On(b, 7);
    }
  }

  function WithMask(b: bv8, k: nat, down: bool): bv8 { if down then b | Mask(k) else b & !Mask(k) }

  lemma MaskSets(b: bv8, k: nat, down: bool, j: nat)
    requires k < 8 && j < 8
    ensures On(WithMask(b, k, down), j) <==> if j == k then down else On(b, j)
  {
    OrMask(b, k, j);
    ClearMask(b, k, j);
  }

  /** A bitmap with one bit set or cleared. */
  function WithBit(keys: seq<bv8>, code: nat, down: bool): (r: seq<bv8>)
    requires code < 8 * |keys|
    ensures |r| == |keys|
    ensures Bits(r) == if down then Bits(keys) + {code} else Bits(keys) - {code}
  {
    BitSet(keys, code, down);
    keys[code / 8 := WithMask(keys[code / 8], code % 8, down)]
  }

  lemma BitSet(keys: seq<bv8>, code: nat, down: bool)
    requires code < 8 * |keys|
    ensures Bits(keys[code / 8 := WithMask(keys[code / 8], code % 8, down)])
            == if down then Bits(keys) + {code} else Bits(keys) - {code}
  {
    hide WithMask, On;
    var i := code / 8;
    var after := keys[i := WithMask(keys[i], code % 8, down)];
    forall c | 0 <= c < 8 * |keys|
      ensures Bit(after, c) <==> if c == code then down else Bit(keys, c)
    {
      if c / 8 == i {
        MaskSets(keys[i], code % 8, down, c % 8);
      }
    }
    hide Bit;
    assert forall c :: c in Bits(after) <==> if c == code then down else c in Bits(keys);
  }

  method SetKeyBit(keys: array<bv8>, code: nat, down: bool)
    requires code < 8 * keys.Length
    modifies keys
    ensures keys[..] == WithBit(old(keys[..]), code, down)
    ensures Bits(keys[..]) == if down then old(Bits(keys[..])) + {code} else old(Bits(keys[..])) - {code}
  {
    hide Bits, WithMask;
    ghost var was := keys[..];
    var i := code / 8;
    keys[i] := WithMask(keys[i], code % 8, down);
    assert keys[..] == WithBit(was, code, down);
  }

  /** A bitmap without a bit. */
  function NoKeys(): (r: seq<bv8>)
    ensures |r| == BYTES && Bits(r) == {}
  {
    var r := seq(BYTES, _ => 0);
    NoBits(r);
    r
  }

  lemma NoBits(keys: seq<bv8>)
    requires forall j :: 0 <= j < |keys| ==> keys[j] == 0
    ensures Bits(keys) == {}
  {
    forall c | 0 <= c < 8 * |keys|
      ensures !Bit(keys, c)
    {
      AllOff(keys[c / 8]);
    }
  }

  method AnyKeyBit(keys: array<bv8>) returns (any: bool)
    ensures any <==> Bits(keys[..]) != {}
  {
    var i := 0;
    while i < keys.Length
      invariant i <= keys.Length && forall j :: 0 <= j < i ==> keys[..][j] == 0
    {
      if keys[i] != 0 {
        var k := TrailingZeros(keys[i]);
        assert (8 * i + k) / 8 == i && (8 * i + k) % 8 == k;
        assert Bit(keys[..], 8 * i + k);
        assert 8 * i + k in Bits(keys[..]);
        return true;
      }
      i := i + 1;
    }
    NoBits(keys[..]);
    any := false;
  }

  predicate Ascending(codes: seq<nat>) {
    forall i, j :: 0 <= i < j < |codes| ==> codes[i] < codes[j]
  }

  /** The set bits, in the order the loops over a bitmap visit them. */
  method ListBits(keys: array<bv8>) returns (codes: seq<nat>)
    ensures Ascending(codes) && forall c :: c in codes <==> c in Bits(keys[..])
  {
    codes := [];
    var i := 0;
    while i < keys.Length
      invariant i <= keys.Length && Ascending(codes)
      invariant forall c :: c in codes <==> c < 8 * i && c in Bits(keys[..])
    {
      codes := ListByte(keys[..], i, codes);
      i := i + 1;
    }
  }

  method ListByte(keys: seq<bv8>, i: nat, before: seq<nat>) returns (codes: seq<nat>)
    requires i < |keys| && Ascending(before) && forall c :: c in before <==> c < 8 * i && c in Bits(keys)
    ensures Ascending(codes) && forall c :: c in codes <==> c < 8 * (i + 1) && c in Bits(keys)
  {
    codes := before;
    var bits := keys[i];
    ghost var n := 0;
    while bits != 0
      invariant Ascending(codes) && n <= 8
      invariant forall c :: c in codes <==> c in before || (8 * i <= c < 8 * i + n && On(keys[i], c - 8 * i))
      invariant forall j :: 0 <= j < 8 ==> (On(bits, j) <==> n <= j && On(keys[i], j))
      decreases 8 - n
    {
      var k := TrailingZeros(bits);
      assert n <= k by { assert On(bits, k); }
      forall j | 0 <= j < 8
        ensures On(bits & (bits - 1), j) <==> On(bits, j) && j != k
      {
        ClearLowest(bits, j);
      }
      forall x | 0 <= x < |codes|
        ensures codes[x] < 8 * i + k
      {
        var c := codes[x];
        assert c in codes;
        if c in before {
          assert c < 8 * i;
        } else {
          assert c < 8 * i + n;
        }
      }
      codes := codes + [8 * i + k];
      bits := bits & (bits - 1);
      n := k + 1;
    }
    AllOff(bits);
  }
}
