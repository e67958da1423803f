/** A growing byte array that stores one boolean per non-negative flag (pkg/boolset/boolset.go).

    `Put` is what one `Set` does to the bytes.  The reference it is held against is a total map from flags
    to booleans: `LastSet`, the value most recently given to a flag by a list of updates. */
module BooleanSets {

  type Byte = bv8

  datatype Update = Update(flag: nat, enabled: bool)

  function Mask(k: nat): Byte
    requires k < 8
  {
    1 << k
  }

  predicate ReadBit(b: Byte, k: nat)
    requires k < 8
  {
    b & Mask(k) != 0
  }

  function WriteBit(b: Byte, k: nat, enabled: bool): Byte
    requires k < 8
  {
    if enabled then b | Mask(k) else b & !Mask(k)
  }

  /** Whether flag g reads as true; everything beyond the array reads as false. */
  predicate Test(bytes: seq<Byte>, g: nat) {
    g / 8 < |bytes| && ReadBit(bytes[g / 8], g % 8)
  }

  function Grow(bytes: seq<Byte>, n: nat): seq<Byte> {
    if |bytes| < n then bytes + seq(n - |bytes|, _ => 0) else bytes
  }

  function Put(bytes: seq<Byte>, flag: nat, enabled: bool): seq<Byte> {
    var grown := Grow(bytes, flag / 8 + 1);
    grown[flag / 8 := WriteBit(grown[flag / 8], flag % 8, enabled)]
  }

  function PutAll(bytes: seq<Byte>, updates: seq<Update>): seq<Byte> {
    if updates == [] then bytes
    else
      var last := updates[|updates| - 1];
      Put(PutAll(bytes, updates[..|updates| - 1]), last.flag, last.enabled)
  }

  // The reference: what a total map from flags to booleans would answer.

  function LastSet(initial: bool, updates: seq<Update>, g: nat): bool {
    if updates == [] then initial
    else
      var last := updates[|updates| - 1];
      if last.flag == g then last.enabled else LastSet(initial, updates[..|updates| - 1], g)
  }

  function Longest(initial: nat, updates: seq<Update>): nat {
    if updates == [] then initial
    else
      var rest := Longest(initial, updates[..|updates| - 1]);
      var need := updates[|updates| - 1].flag / 8 + 1;
      if rest < need then need else rest
  }

  // Bits of one byte.

  lemma MaskValues(k: nat)
    requires k < 8
    ensures Mask(k) == [1 as Byte, 2, 4, 8, 16, 32, 64, 128][k]
  {
    assert k == 0 || k == 1 || k == 2 || k == 3 || k == 4 || k == 5 || k == 6 || k == 7;
  }

  /** Flag g is bit g mod 8, the lowest being bit 0, of byte g / 8. */
  lemma TestIsBit(bytes: seq<Byte>, g: nat)
    ensures Test(bytes, g) <==> g / 8 < |bytes| && bytes[g / 8] & [1, 2, 4, 8, 16, 32, 64, 128][g % 8] != 0
    ensures Test(bytes, g) <==> g / 8 < |bytes| && bytes[g / 8] as int / [1, 2, 4, 8, 16, 32, 64, 128][g % 8] % 2 == 1
  {
    MaskValues(g % 8);
    if g / 8 < |bytes| {
      BitByDivision(bytes[g / 8], g % 8);
    }
  }

  lemma BitByDivision(b: Byte, k: nat)
    requires k < 8
    ensures b & Mask(k) != 0 <==> b as int / [1, 2, 4, 8, 16, 32, 64, 128][k] % 2 == 1
  {
    MaskValues(k);
    BitsAdd(b);
    var bits := seq(8, i requires 0 <= i < 8 => if b & Mask(i) != 0 then 1 else 0);
    MaskValues(0); MaskValues(1); MaskValues(2); MaskValues(3);
    MaskValues(4); MaskValues(5); MaskValues(6); MaskValues(7);
    if k < 4 {
      LowBitOfSum(bits, k);
    } else {
      HighBitOfSum(bits, k);
    }
  }

  lemma LowBitOfSum(bits: seq<nat>, k: nat)
    requires |bits| == 8 && 0 <= k < 4 && forall i | 0 <= i < 8 :: bits[i] <= 1
    ensures var sum := bits[0] + 2 * bits[1] + 4 * bits[2] + 8 * bits[3] + 16 * bits[4] + 32 * bits[5] + 64 * bits[6]
                       + 128 * bits[7];
            sum / [1, 2, 4, 8, 16, 32, 64, 128][k] % 2 == bits[k]
  {
    match k
    case 0 =>
      MiddleBit(0, bits[0],
                bits[1] + 2 * bits[2] + 4 * bits[3] + 8 * bits[4] + 16 * bits[5] + 32 * bits[6] + 64 * bits[7], 1);
    case 1 =>
      MiddleBit(bits[0], bits[1],
                bits[2] + 2 * bits[3] + 4 * bits[4] + 8 * bits[5] + 16 * bits[6] + 32 * bits[7], 2);
    case 2 =>
      MiddleBit(bits[0] + 2 * bits[1], bits[2],
                bits[3] + 2 * bits[4] + 4 * bits[5] + 8 * bits[6] + 16 * bits[7], 4);
    case 3 =>
      MiddleBit(bits[0] + 2 * bits[1] + 4 * bits[2], bits[3],
                bits[4] + 2 * bits[5] + 4 * bits[6] + 8 * bits[7], 8);
  }

  lemma HighBitOfSum(bits: seq<nat>, k: nat)
    requires |bits| == 8 && 4 <= k < 8 && forall i | 0 <= i < 8 :: bits[i] <= 1
    ensures var sum := bits[0] + 2 * bits[1] + 4 * bits[2] + 8 * bits[3] + 16 * bits[4] + 32 * bits[5] + 64 * bits[6]
                       + 128 * bits[7];
            sum / [1, 2, 4, 8, 16, 32, 64, 128][k] % 2 == bits[k]
  {
    match k
    case 4 =>
      MiddleBit(bits[0] + 2 * bits[1] + 4 * bits[2] + 8 * bits[3], bits[4],
                bits[5] + 2 * bits[6] + 4 * bits[7], 16);
    case 5 =>
      MiddleBit(bits[0] + 2 * bits[1] + 4 * bits[2] + 8 * bits[3] + 16 * bits[4], bits[5],
                bits[6] + 2 * bits[7], 32);
    case 6 =>
      MiddleBit(bits[0] + 2 * bits[1] + 4 * bits[2] + 8 * bits[3] + 16 * bits[4] + 32 * bits[5], bits[6],
                bits[7], 64);
    case 7 =>
      MiddleBit(bits[0] + 2 * bits[1] + 4 * bits[2] + 8 * bits[3] + 16 * bits[4] + 32 * bits[5] + 64 * bits[6], bits[7],
                0, 128);
  }

  lemma MiddleBit(low: nat, bit: nat, high: nat, p: nat)
    requires p == 1 || p == 2 || p == 4 || p == 8 || p == 16 || p == 32 || p == 64 || p == 128
    requires low < p && bit <= 1
    ensures (low + p * (bit + 2 * high)) / p % 2 == bit
  {
  }

  /** A byte is the sum of its bits. */
  lemma BitsAdd(b: Byte)
    ensures b as int == (if b & 1 != 0 then 1 else 0) + (if b & 2 != 0 then 2 else 0) + (if b & 4 != 0 then 4 else 0)
                        + (if b & 8 != 0 then 8 else 0) + (if b & 16 != 0 then 16 else 0)
                        + (if b & 32 != 0 then 32 else 0) + (if b & 64 != 0 then 64 else 0)
                        + (if b & 128 != 0 then 128 else 0)
  {
  }

  lemma WriteThenRead(b: Byte, k: nat, enabled: bool, j: nat)
    requires k < 8 && j < 8
    ensures ReadBit(WriteBit(b, k, enabled), j) == if j == k then enabled else ReadBit(b, j)
  {
    MaskValues(k);
    MaskValues(j);
  }

  lemma ZeroReadsFalse(k: nat)
    requires k < 8
    ensures !ReadBit(0, k)
  {
    MaskValues(k);
  }

  lemma SameMasksSameByte(a: Byte, b: Byte)
    requires a & 1 == b & 1 && a & 2 == b & 2 && a & 4 == b & 4 && a & 8 == b & 8
    requires a & 16 == b & 16 && a & 32 == b & 32 && a & 64 == b & 64 && a & 128 == b & 128
    ensures a == b
  {
  }

  /** Masking leaves the bit or nothing. */
  lemma MaskedByReading(b: Byte, k: nat)
    requires k < 8
    ensures b & Mask(k) == if ReadBit(b, k) then Mask(k) else 0
  {
    MaskValues(k);
  }

  lemma SameBitsSameByte(a: Byte, b: Byte)
    requires forall k: nat | k < 8 :: ReadBit(a, k) == ReadBit(b, k)
    ensures a == b
  {
    forall k: nat | k < 8
      ensures a & Mask(k) == b & Mask(k)
    {
      assert ReadBit(a, k) == ReadBit(b, k);
      MaskedByReading(a, k);
      MaskedByReading(b, k);
    }
    assert a & Mask(0) == b & Mask(0) && a & Mask(1) == b & Mask(1) && a & Mask(2) == b & Mask(2);
    assert a & Mask(3) == b & Mask(3) && a & Mask(4) == b & Mask(4) && a & Mask(5) == b & Mask(5);
    assert a & Mask(6) == b & Mask(6) && a & Mask(7) == b & Mask(7);
    SameMasksSameByte(a, b);
  }

  /** Byte arrays of one length that answer every question alike are byte for byte equal. */
  lemma SameAnswersSameBytes(a: seq<Byte>, b: seq<Byte>)
    requires |a| == |b|
    requires forall g: nat :: Test(a, g) == Test(b, g)
    ensures a == b
  {
    forall i | 0 <= i < |a|
      ensures a[i] == b[i]
    {
      forall k: nat | k < 8
        ensures ReadBit(a[i], k) == ReadBit(b[i], k)
      {
        var g := i * 8 + k;
        assert g / 8 == i && g % 8 == k;
        assert Test(a, g) == Test(b, g);
      }
      SameBitsSameByte(a[i], b[i]);
    }
  }

  /** One `Set` changes the answer for its own flag only, and grows the array no further than needed. */
  lemma PutMeaning(bytes: seq<Byte>, flag: nat, enabled: bool, g: nat)
    ensures Test(Put(bytes, flag, enabled), g) == (if g == flag then enabled else Test(bytes, g))
    ensures |Put(bytes, flag, enabled)| == if |bytes| < flag / 8 + 1 then flag / 8 + 1 else |bytes|
  {
    var grown := Grow(bytes, flag / 8 + 1);
    if g / 8 == flag / 8 {
      assert g == flag <==> g % 8 == flag % 8;
      WriteThenRead(grown[flag / 8], flag % 8, enabled, g % 8);
      ZeroReadsFalse(g % 8);
    } else if |bytes| <= g / 8 < |grown| {
      ZeroReadsFalse(g % 8);
    }
  }

  /** After any sequence of updates every flag, in or beyond the array, reads as last set. */
  lemma {:induction false} PutAllMeaning(bytes: seq<Byte>, updates: seq<Update>, g: nat)
    ensures Test(PutAll(bytes, updates), g) == LastSet(Test(bytes, g), updates, g)
    ensures |PutAll(bytes, updates)| == Longest(|bytes|, updates)
  {
    if updates != [] {
      var front, last := updates[..|updates| - 1], updates[|updates| - 1];
      PutAllMeaning(bytes, front, g);
      PutMeaning(PutAll(bytes, front), last.flag, last.enabled, g);
    }
  }

  /** Updates of two different flags commute byte for byte, growth included. */
  lemma PutCommutes(bytes: seq<Byte>, f: nat, v: bool, g: nat, w: bool)
    requires f != g
    ensures Put(Put(bytes, f, v), g, w) == Put(Put(bytes, g, w), f, v)
  {
    var fg := Put(Put(bytes, f, v), g, w);
    var gf := Put(Put(bytes, g, w), f, v);
    forall h: nat
      ensures Test(fg, h) == Test(gf, h)
      ensures |fg| == |gf|
    {
      PutMeaning(bytes, f, v, h);
      PutMeaning(Put(bytes, f, v), g, w, h);
      PutMeaning(bytes, g, w, h);
      PutMeaning(Put(bytes, g, w), f, v, h);
    }
    assert |fg| == |gf| by {
      PutMeaning(bytes, f, v, 0);
      PutMeaning(Put(bytes, f, v), g, w, 0);
      PutMeaning(bytes, g, w, 0);
      PutMeaning(Put(bytes, g, w), f, v, 0);
    }
    SameAnswersSameBytes(fg, gf);
  }

  /** `updates` visits each entry of `values` exactly once, in some order. */
  ghost predicate Enumerates(updates: seq<Update>, values: map<nat, bool>) {
    && (forall i | 0 <= i < |updates| :: updates[i].flag in values && values[updates[i].flag] == updates[i].enabled)
    && (forall i, j | 0 <= i < j < |updates| :: updates[i].flag != updates[j].flag)
    && (forall f | f in values :: exists i :: 0 <= i < |updates| && updates[i].flag == f)
  }

  /** The updates so far: one for every flag of the map that is not pending. */
  ghost predicate EnumeratesBut(updates: seq<Update>, values: map<nat, bool>, pending: set<nat>) {
    && (forall i | 0 <= i < |updates| ::
          && updates[i].flag in values && updates[i].flag !in pending
          && values[updates[i].flag] == updates[i].enabled)
    && (forall i, j | 0 <= i < j < |updates| :: updates[i].flag != updates[j].flag)
    && (forall f | f in values && f !in pending :: exists i :: 0 <= i < |updates| && updates[i].flag == f)
  }

  lemma OneMore(updates: seq<Update>, values: map<nat, bool>, pending: set<nat>, flag: nat)
    requires EnumeratesBut(updates, values, pending) && flag in pending && flag in values
    ensures EnumeratesBut(updates + [Update(flag, values[flag])], values, pending - {flag})
  {
    var more := updates + [Update(flag, values[flag])];
    assert more[|updates|].flag == flag;
    forall f | f in values && f !in pending - {flag}
      ensures exists i :: 0 <= i < |more| && more[i].flag == f
    {
      if f != flag {
        var i :| 0 <= i < |updates| && updates[i].flag == f;
        assert more[i].flag == f;
      }
    }
  }

  lemma AllOrdersAlike(bytes: seq<Byte>, done: seq<Update>, values: map<nat, bool>)
    requires EnumeratesBut(done, values, {})
    ensures forall updates | Enumerates(updates, values) :: PutAll(bytes, done) == PutAll(bytes, updates)
    ensures forall g: nat :: Test(PutAll(bytes, done), g) == if g in values then values[g] else Test(bytes, g)
  {
    assert Enumerates(done, values);
    forall updates | Enumerates(updates, values)
      ensures PutAll(bytes, done) == PutAll(bytes, updates)
    {
      OrderIrrelevant(bytes, done, updates, values);
    }
    forall g: nat
      ensures Test(PutAll(bytes, done), g) == if g in values then values[g] else Test(bytes, g)
    {
      OrderAnswer(bytes, done, values, g);
    }
  }

  lemma {:induction false} LastSetOfFlag(initial: bool, updates: seq<Update>, g: nat)
    requires forall i, j | 0 <= i < j < |updates| :: updates[i].flag != updates[j].flag
    ensures forall i | 0 <= i < |updates| && updates[i].flag == g :: LastSet(initial, updates, g) == updates[i].enabled
    ensures (forall i | 0 <= i < |updates| :: updates[i].flag != g) ==> LastSet(initial, updates, g) == initial
  {
    if updates != [] {
      LastSetOfFlag(initial, updates[..|updates| - 1], g);
    }
  }

  lemma {:induction false} LongestIsMaximum(initial: nat, updates: seq<Update>)
    ensures initial <= Longest(initial, updates)
    ensures forall i | 0 <= i < |updates| :: updates[i].flag / 8 + 1 <= Longest(initial, updates)
    ensures Longest(initial, updates) == initial
         || exists i :: 0 <= i < |updates| && Longest(initial, updates) == updates[i].flag / 8 + 1
  {
    if updates != [] {
      LongestIsMaximum(initial, updates[..|updates| - 1]);
    }
  }

  lemma OrderAnswer(bytes: seq<Byte>, updates: seq<Update>, values: map<nat, bool>, g: nat)
    requires Enumerates(updates, values)
    ensures Test(PutAll(bytes, updates), g) == if g in values then values[g] else Test(bytes, g)
  {
    PutAllMeaning(bytes, updates, g);
    LastSetOfFlag(Test(bytes, g), updates, g);
  }

  lemma OrderLength(bytes: seq<Byte>, xs: seq<Update>, ys: seq<Update>, values: map<nat, bool>)
    requires Enumerates(xs, values) && Enumerates(ys, values)
    ensures Longest(|bytes|, xs) <= Longest(|bytes|, ys)
  {
    LongestIsMaximum(|bytes|, xs);
    LongestIsMaximum(|bytes|, ys);
    if Longest(|bytes|, xs) != |bytes| {
      var i :| 0 <= i < |xs| && Longest(|bytes|, xs) == xs[i].flag / 8 + 1;
      var j :| 0 <= j < |ys| && ys[j].flag == xs[i].flag;
    }
  }

  /** The batch result does not depend on the order in which the map is iterated. */
  lemma OrderIrrelevant(bytes: seq<Byte>, xs: seq<Update>, ys: seq<Update>, values: map<nat, bool>)
    requires Enumerates(xs, values) && Enumerates(ys, values)
    ensures PutAll(bytes, xs) == PutAll(bytes, ys)
  {
    forall g: nat
      ensures Test(PutAll(bytes, xs), g) == Test(PutAll(bytes, ys), g)
    {
      OrderAnswer(bytes, xs, values, g);
      OrderAnswer(bytes, ys, values, g);
    }
    PutAllMeaning(bytes, xs, 0);
    PutAllMeaning(bytes, ys, 0);
    OrderLength(bytes, xs, ys, values);
    OrderLength(bytes, ys, xs, values);
    SameAnswersSameBytes(PutAll(bytes, xs), PutAll(bytes, ys));
  }

  class BooleanSet {
    var bytes: seq<Byte>

    constructor ()
      ensures bytes == []
    {
      bytes := [];
    }

    /** The flag must be non-negative: the source indexes and shifts by its quotient and remainder. */
    function Enabled(flag: int): (r: bool)
      requires flag >= 0
      reads this
      ensures r == Test(bytes, flag)
    {
      if flag >= |bytes| * 8 then false else ReadBit(bytes[flag / 8], flag % 8)
    }

    method Set(flag: int, enabled: bool)
      requires flag >= 0
      modifies this
      ensures bytes == Put(old(bytes), flag, enabled)
      ensures forall g: nat :: Enabled(g) == if g == flag then enabled else Test(old(bytes), g)
    {
      if |bytes| < flag / 8 + 1 {
        bytes := bytes + seq(flag / 8 + 1 - |bytes|, _ => 0);
      }
      if enabled {
        bytes := bytes[flag / 8 := WriteBit(bytes[flag / 8], flag % 8, true)];
      } else {
        bytes := bytes[flag / 8 := WriteBit(bytes[flag / 8], flag % 8, false)];
      }
      forall g: nat
        ensures Test(bytes, g) == if g == flag then enabled else Test(old(bytes), g)
      {
        PutMeaning(old(bytes), flag, enabled, g);
      }
    }

    /** Batch update.  The order in which entries are taken from the map is left open; the bytes are
        those of every enumeration of the map. */
    method Sets(values: map<nat, bool>)
      modifies this
      ensures forall g: nat :: Enabled(g) == if g in values then values[g] else Test(old(bytes), g)
      ensures forall updates | Enumerates(updates, values) :: bytes == PutAll(old(bytes), updates)
    {
      var pending := values.Keys;
      ghost var done: seq<Update> := [];
      while pending != {}
        invariant pending <= values.Keys && EnumeratesBut(done, values, pending)
        invariant bytes == PutAll(old(bytes), done)
      {
        var flag :| flag in pending;
        Set(flag, values[flag]);
        OneMore(done, values, pending, flag);
        done := done + [Update(flag, values[flag])];
        assert done[..|done| - 1] + [Update(flag, values[flag])] == done;
        pending := pending - {flag};
      }
      AllOrdersAlike(old(bytes), done, values);
    }

    method MarshalBinary() returns (data: seq<Byte>)
      ensures data == bytes && forall g: nat :: Test(data, g) == Enabled(g)
    {
      data := bytes;
    }

    /** Whatever the set held before is gone: it answers for every flag as the bytes say. */
    method UnmarshalBinary(data: seq<Byte>)
      modifies this
      ensures bytes == data && forall g: nat :: Enabled(g) == Test(data, g)
    {
      bytes := data;
    }
  }

  /** Marshalling a set and unmarshalling the bytes into another one, which may hold anything: both answer
      every flag alike, and still do after the same change of one flag in both. */
  method Transfer(source: BooleanSet, target: BooleanSet, flag: nat, enabled: bool)
    requires source != target
    modifies source, target
    ensures forall g: nat :: source.Enabled(g) == if g == flag then enabled else old(source.Enabled(g))
    ensures forall g: nat :: target.Enabled(g) == source.Enabled(g)
  {
    var data := source.MarshalBinary();
    target.UnmarshalBinary(data);
    source.Set(flag, enabled);
    target.Set(flag, enabled);
  }
}
