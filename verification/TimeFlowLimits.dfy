/** Where the time-flow codec fails (pkg/util/common.go): exactly the texts with a rune of several bytes before
    their last one, each of them within the times the code can be given.

    The units digit of a bucket has index 0 and shifts no position, so two buckets that differ only there pick
    the same slots.  If encoder and decoder leave that digit in different places, one of the two is lost. */
module TimeFlowLimits {
  import opened TimeFlow

  /** Undoing is a bijection, so a text comes back exactly when both sides shuffle it to the same list. */
  lemma RoundTripsWhenShufflesAgree(str: string, timeNow: int)
    requires str != "" && timeNow >= 1000
    ensures var ds, plain := Digits(Bucket(timeNow)), Plain(str, timeNow);
            RoundTrips(str, timeNow, timeNow) ==
            (Shuffle(plain, SlotsAt(ds, Offsets(plain))) == Shuffle(plain, SlotsAt(ds, Indices(|plain|))))
  {
    var ds, plain := Digits(Bucket(timeNow)), Plain(str, timeNow);
    var taken := SlotsAt(ds, Indices(|plain|));
    ShuffleUnshuffle(Shuffle(plain, SlotsAt(ds, Offsets(plain))), taken);
    UnshuffleShuffle(plain, taken);
    RoundTripsPlain(str, timeNow, timeNow);
  }

  // Following one rune.

  /** Where the rune that entered at step x is before step `upTo`: it enters at the slot picked then, and
      moves only when its slot is picked again, and then to the end. */
  function Where(slots: seq<nat>, x: nat, upTo: nat): (q: nat)
    requires x < upTo <= |slots| && forall k | 0 <= k < |slots| :: slots[k] <= k
    ensures q < upTo
  {
    if upTo == x + 1 then slots[x]
    else
      var q := Where(slots, x, upTo - 1);
      if slots[upTo - 1] == q then upTo - 1 else q
  }

  lemma {:induction false} WherePrefix(slots: seq<nat>, x: nat, upTo: nat)
    requires x < upTo < |slots| && forall k | 0 <= k < |slots| :: slots[k] <= k
    ensures Where(slots[..|slots| - 1], x, upTo) == Where(slots, x, upTo)
  {
    if upTo > x + 1 {
      WherePrefix(slots, x, upTo - 1);
    }
  }

  lemma {:induction false} WhereFinds<T>(s: seq<T>, slots: seq<nat>, x: nat)
    requires |slots| == |s| && x < |s| && forall k | 0 <= k < |slots| :: slots[k] <= k
    ensures Shuffle(s, slots)[Where(slots, x, |s|)] == s[x]
  {
    var n := |s| - 1;
    if x < n {
      WhereFinds(s[..n], slots[..n], x);
      WherePrefix(slots, x, n);
    }
  }

  /** Two lists that differ in one rune are still equal everywhere else after the same swaps. */
  lemma {:induction false} WhereDiffers<T>(a: seq<T>, b: seq<T>, slots: seq<nat>, x: nat, i: nat)
    requires |slots| == |a| == |b| && x < |a| && forall k | 0 <= k < |slots| :: slots[k] <= k
    requires forall k | 0 <= k < |a| && k != x :: a[k] == b[k]
    requires i < |a| && i != Where(slots, x, |a|)
    ensures Shuffle(a, slots)[i] == Shuffle(b, slots)[i]
  {
    var n := |a| - 1;
    var before := if i == slots[n] then n else if i == n then slots[n] else i;
    if x < n {
      WherePrefix(slots, x, n);
      if before < n {
        WhereDiffers(a[..n], b[..n], slots[..n], x, before);
      }
    } else {
      assert a[..n] == b[..n];
    }
  }

  lemma {:induction false} WhereSame(a: seq<nat>, b: seq<nat>, x: nat, upTo: nat)
    requires |a| == |b| && x < upTo <= |a|
    requires (forall k | 0 <= k < |a| :: a[k] <= k) && (forall k | 0 <= k < |b| :: b[k] <= k)
    requires forall k | 0 <= k < upTo :: a[k] == b[k]
    ensures Where(a, x, upTo) == Where(b, x, upTo)
  {
    if upTo > x + 1 {
      WhereSame(a, b, x, upTo - 1);
    }
  }

  lemma {:induction false} WhereStays(slots: seq<nat>, x: nat, from: nat, upTo: nat)
    requires x < from <= upTo <= |slots| && forall k | 0 <= k < |slots| :: slots[k] <= k
    requires forall k | from <= k < upTo :: slots[k] != Where(slots, x, from)
    ensures Where(slots, x, upTo) == Where(slots, x, from)
  {
    if from < upTo {
      WhereStays(slots, x, from, upTo - 1);
    }
  }

  lemma {:induction false} WhereHigher(slots: seq<nat>, x: nat, from: nat, upTo: nat)
    requires x < from < upTo <= |slots| && forall k | 0 <= k < |slots| :: slots[k] <= k
    requires slots[from] == Where(slots, x, from)
    ensures Where(slots, x, upTo) >= from
  {
    if from + 1 < upTo {
      WhereHigher(slots, x, from, upTo - 1);
    }
  }

  // The first rune that is longer than one byte.

  /** Rune j of the text is the first that is longer than one byte, and it is not the last rune. */
  predicate FirstWide(str: string, j: nat) {
    j + 1 < |str| && Width(str[j]) > 1 && forall i | 0 <= i < j :: Width(str[i]) == 1
  }

  lemma {:induction false} FindFirstWide(str: string, upTo: nat) returns (j: nat)
    requires upTo < |str| && exists k :: 0 <= k < upTo && Width(str[k]) > 1
    ensures j < upTo && FirstWide(str, j)
  {
    if exists k :: 0 <= k < upTo - 1 && Width(str[k]) > 1 {
      j := FindFirstWide(str, upTo - 1);
    } else {
      j := upTo - 1;
    }
  }

  /** Offsets are indices up to the first wide rune, and run ahead right after it. */
  lemma OffsetsAround(prefix: string, str: string, j: nat)
    requires FirstWide(str, j) && forall i | 0 <= i < |prefix| :: Width(prefix[i]) == 1
    ensures var plain, k := prefix + str, |prefix| + j + 1;
            && Offset(plain, k) == k + Width(str[j]) - 1
            && forall i | 0 <= i < k :: Offset(plain, i) == i
  {
    var plain, k := prefix + str, |prefix| + j + 1;
    forall i | 0 <= i < k - 1
      ensures Width(plain[i]) == 1
    {
      assert i >= |prefix| ==> plain[i] == str[i - |prefix|];
    }
    forall i | 0 <= i < k
      ensures Offset(plain, i) == i
    {
      OffsetIsIndex(plain, i);
    }
  }

  lemma {:induction false} SameWidthsSameOffset(a: string, b: string, k: nat)
    requires k <= |a| == |b| && forall i | 0 <= i < k :: Width(a[i]) == Width(b[i])
    ensures Offset(a, k) == Offset(b, k)
  {
    if k > 0 {
      SameWidthsSameOffset(a, b, k - 1);
    }
  }

  // The units digit of a bucket has index 0, so it shifts nothing: buckets that differ in it share their slots.

  /** The text in front of the units digit of bucket 10a + u. */
  function Head(a: nat): string {
    if a == 0 then "" else DecimalOfNat(a)
  }

  lemma {:induction false} HeadLength(a: nat)
    ensures |Head(a)| == |Digits(a)|
  {
    if a >= 10 {
      HeadLength(a / 10);
    }
  }

  function Prefix(a: nat, u: nat): string
    requires u < 10
  {
    Head(a) + [DigitChar(u), '|']
  }

  function TimeOf(a: nat, u: nat): nat {
    1000 * (10 * a + u)
  }

  lemma UnitsBucket(a: nat, u: nat, str: string)
    requires u < 10 && 10 * a + u > 0
    ensures TimeOf(a, u) >= 1000 && Digits(Bucket(TimeOf(a, u))) == [u] + Digits(a)
    ensures Plain(str, TimeOf(a, u)) == Prefix(a, u) + str
    ensures |Prefix(a, u)| == |Digits(a)| + 2 && forall i | 0 <= i < |Prefix(a, u)| :: Width(Prefix(a, u)[i]) == 1
  {
    var b := 10 * a + u;
    assert Bucket(TimeOf(a, u)) == b && b / 10 == a && b % 10 == u;
    assert DecimalOfNat(b) + "|" == Prefix(a, u);
    HeadLength(a);
    DecimalIsSingleByte(a);
  }

  lemma UnitsShiftNothing(rest: seq<nat>, u: nat, v: nat, ats: seq<nat>)
    ensures SlotsAt([u] + rest, ats) == SlotsAt([v] + rest, ats)
  {
  }

  /** What step k adds to the position, or twice of which it reflects the position in. */
  function Shift(ds: seq<nat>, k: nat): nat
    requires ds != []
  {
    k % |ds| * ds[k % |ds|]
  }

  function Abs(x: int): nat {
    if x < 0 then -x else x
  }

  /** The slot of step k without counting up to it. */
  function Pick(ds: seq<nat>, k: nat, at: nat): (p: nat)
    requires ds != []
    ensures p <= k
  {
    (if k % 2 == 1 then at + Shift(ds, k) else Abs(2 * Shift(ds, k) - at)) % (k + 1)
  }

  lemma PickIsSlot(ds: seq<nat>, k: nat, at: nat)
    requires ds != []
    ensures Slot(ds, k, at) == Pick(ds, k, at)
  {
    StartFromTheEnd(k, |ds|);
    var i := k % |ds|;
    assert ds[i] * i == Shift(ds, k) && 2 * i * ds[i] == 2 * Shift(ds, k);
  }

  /** Where the decoder's swaps have put the units digit before step `upTo`. */
  function Units(ds: seq<nat>, upTo: nat): (q: nat)
    requires 0 < |ds| <= upTo
    ensures q < upTo
  {
    if upTo == |ds| then Pick(ds, upTo - 1, upTo - 1)
    else
      var q := Units(ds, upTo - 1);
      if Pick(ds, upTo - 1, upTo - 1) == q then upTo - 1 else q
  }

  lemma {:induction false} UnitsIsWhere(ds: seq<nat>, n: nat, upTo: nat)
    requires 0 < |ds| <= upTo <= n
    ensures Where(SlotsAt(ds, Indices(n)), |ds| - 1, upTo) == Units(ds, upTo)
  {
    PickIsSlot(ds, upTo - 1, upTo - 1);
    if upTo > |ds| {
      UnitsIsWhere(ds, n, upTo - 1);
    }
  }

  /** At the first step after the wide rune the encoder, ahead by w - 1, picks the slot of the units digit,
      which the decoder leaves alone from then on. */
  ghost predicate Caught(ds: seq<nat>, w: nat, j: nat)
    requires ds != [] && w >= 1
  {
    var k := |ds| + j + 2;
    && Pick(ds, k, k + w - 1) == Units(ds, k)
    && forall i | i >= k :: Pick(ds, i, i) != Units(ds, k)
  }

  /** The encoder ends with the units digit somewhere else than the decoder assumes. */
  lemma CaughtApart(ds: seq<nat>, prefix: string, str: string, j: nat)
    requires ds != [] && |prefix| == |ds| + 1 && (forall i | 0 <= i < |prefix| :: Width(prefix[i]) == 1)
    requires FirstWide(str, j) && Caught(ds, Width(str[j]), j)
    ensures var plain, x := prefix + str, |ds| - 1;
            Where(SlotsAt(ds, Offsets(plain)), x, |plain|) != Where(SlotsAt(ds, Indices(|plain|)), x, |plain|)
  {
    var plain, k := prefix + str, |ds| + j + 2;
    var n := |plain|;
    var placed, taken := SlotsAt(ds, Offsets(plain)), SlotsAt(ds, Indices(n));
    OffsetsAround(prefix, str, j);
    UnitsIsWhere(ds, n, k);
    TakenElsewhere(ds, n, k);
    PickIsSlot(ds, k, k + Width(str[j]) - 1);
    EndApart(placed, taken, |ds| - 1, k);
  }

  lemma TakenElsewhere(ds: seq<nat>, n: nat, k: nat)
    requires 0 < |ds| <= k && forall i | i >= k :: Pick(ds, i, i) != Units(ds, k)
    ensures forall i | k <= i < n :: SlotsAt(ds, Indices(n))[i] != Units(ds, k)
  {
    forall i | k <= i < n
      ensures SlotsAt(ds, Indices(n))[i] != Units(ds, k)
    {
      PickIsSlot(ds, i, i);
    }
  }

  /** Slot lists that part ways at step k, where only one of them picks the slot followed, never to return. */
  lemma EndApart(placed: seq<nat>, taken: seq<nat>, x: nat, k: nat)
    requires |placed| == |taken| && x < k < |placed|
    requires (forall i | 0 <= i < |placed| :: placed[i] <= i) && (forall i | 0 <= i < |taken| :: taken[i] <= i)
    requires forall i | 0 <= i < k :: placed[i] == taken[i]
    requires placed[k] == Where(taken, x, k) && forall i | k <= i < |taken| :: taken[i] != Where(taken, x, k)
    ensures Where(placed, x, |placed|) != Where(taken, x, |taken|)
  {
    WhereStays(taken, x, k, |taken|);
    WhereSame(placed, taken, x, k);
    WhereHigher(placed, x, k, |placed|);
  }

  /** Two lists that differ in the units digit alone cannot both come out alike on the two sides. */
  lemma ApartTells(a: string, b: string, placed: seq<nat>, taken: seq<nat>, x: nat)
    requires |placed| == |taken| == |a| == |b| && x < |a| && a[x] != b[x]
    requires (forall k | 0 <= k < |placed| :: placed[k] <= k) && (forall k | 0 <= k < |taken| :: taken[k] <= k)
    requires forall k | 0 <= k < |a| && k != x :: a[k] == b[k]
    requires Where(placed, x, |a|) != Where(taken, x, |a|)
    ensures Shuffle(a, placed) != Shuffle(a, taken) || Shuffle(b, placed) != Shuffle(b, taken)
  {
    var at := Where(placed, x, |a|);
    WhereFinds(a, placed, x);
    WhereFinds(b, placed, x);
    WhereDiffers(a, b, taken, x, at);
  }

  lemma PrefixesDiffer(a: nat, u: nat, str: string)
    requires u < 9
    ensures var p, q, x := Prefix(a, u) + str, Prefix(a, u + 1) + str, |Head(a)|;
            && |p| == |q| && x < |p| && p[x] != q[x]
            && (forall k | 0 <= k < |p| && k != x :: p[k] == q[k])
            && Offsets(p) == Offsets(q)
  {
    var p, q := Prefix(a, u) + str, Prefix(a, u + 1) + str;
    forall i | 0 <= i < |p|
      ensures Offset(p, i) == Offset(q, i)
    {
      SameWidthsSameOffset(p, q, i);
    }
  }

  lemma TimeOfUnits(a: nat, u: nat, str: string)
    requires u < 10 && 10 * a + u > 0 && str != ""
    ensures var p, t, ds := Prefix(a, u) + str, TimeOf(a, u), [1] + Digits(a);
            && t >= 1000
            && RoundTrips(str, t, t) == (Shuffle(p, SlotsAt(ds, Offsets(p))) == Shuffle(p, SlotsAt(ds, Indices(|p|))))
  {
    var p := Prefix(a, u) + str;
    UnitsBucket(a, u, str);
    UnitsShiftNothing(Digits(a), 1, u, Offsets(p));
    UnitsShiftNothing(Digits(a), 1, u, Indices(|p|));
    RoundTripsWhenShufflesAgree(str, TimeOf(a, u));
  }

  /** One of two buckets next to each other, 1 and 2 or 10a and 10a + 1. */
  lemma OneOfTwoBreaks(str: string, j: nat, ds: seq<nat>, a: nat) returns (t: int)
    requires ds == [1] + Digits(a) && FirstWide(str, j) && Caught(ds, Width(str[j]), j)
    ensures 1000 <= t <= TimeOf(a, if a == 0 then 2 else 1) && !RoundTrips(str, t, t)
  {
    var u := if a == 0 then 1 else 0;
    var p, q := Prefix(a, u) + str, Prefix(a, u + 1) + str;
    var placed, taken := SlotsAt(ds, Offsets(p)), SlotsAt(ds, Indices(|p|));
    assert Shuffle(p, placed) != Shuffle(p, taken) || Shuffle(q, placed) != Shuffle(q, taken) by {
      UnitsBucket(a, u, str);
      CaughtApart(ds, Prefix(a, u), str, j);
      PrefixesDiffer(a, u, str);
      ApartTells(p, q, placed, taken, |Head(a)|);
    }
    TimeOfUnits(a, u, str);
    TimeOfUnits(a, u + 1, str);
    PrefixesDiffer(a, u, str);
    t := if RoundTrips(str, TimeOf(a, u), TimeOf(a, u)) then TimeOf(a, u + 1) else TimeOf(a, u);
  }

  /** Conditions on the digits under which no step from `from` on picks slot q. */
  predicate Quiet(ds: seq<nat>, q: nat, from: nat) {
    && q < from
    && forall i | 0 <= i < |ds| :: QuietDigit(i * ds[i], i, |ds|, q, from)
  }

  predicate QuietDigit(c: nat, i: nat, m: nat, q: nat, from: nat)
    requires m > 0
  {
    && c != q + 1 && Abs(c - q - 1) <= from
    && (2 * c + q < from || (2 * c + q) % 2 == 1 || (2 * c + q) % m != i)
    && (2 * c < from ||
        var d := Abs(2 * c + 1 - q);
        0 < d < 2 * (from + 1) && (d % 2 == 0 || d - 1 < from || (d - 1) % m != i))
  }

  /** A multiple of m closer to zero than 2m is zero, m or -m. */
  lemma SmallMultiple(x: int, y: int, m: nat)
    requires m > 0 && x == y * m && Abs(x) < 2 * m
    ensures x == 0 || Abs(x) == m
  {
    if y >= 2 {
      MultiplesGrow(2, y, m);
    } else if y <= -2 {
      MultiplesGrow(2, -y, m);
    }
  }

  lemma WholeMultiple(raw: nat, q: nat, m: nat) returns (n: nat)
    requires m > 0 && raw % m == q
    ensures raw == n * m + q
  {
    n := raw / m;
  }

  lemma AddingMisses(c: nat, q: nat, k: nat)
    requires c != q + 1 && Abs(c - q - 1) <= k
    ensures (k + c) % (k + 1) != q
  {
    if (k + c) % (k + 1) == q {
      var n := WholeMultiple(k + c, q, k + 1);
      Distribute(n - 1, k + 1);
      SmallMultiple(c - q - 1, n - 1, k + 1);
      assert false;
    }
  }

  lemma ReflectingMisses(c: nat, q: nat, k: nat)
    requires k <= 2 * c && 0 < Abs(2 * c + 1 - q) < 2 * (k + 1) && Abs(2 * c + 1 - q) != k + 1
    ensures (2 * c - k) % (k + 1) != q
  {
    if (2 * c - k) % (k + 1) == q {
      var n := WholeMultiple(2 * c - k, q, k + 1);
      Distribute(n, k + 1);
      SmallMultiple(2 * c + 1 - q, n + 1, k + 1);
      assert false;
    }
  }

  lemma QuietReflection(c: nat, m: nat, q: nat, from: nat, k: nat)
    requires m > 0 && q < from <= k && QuietDigit(c, k % m, m, q, from) && k % 2 == 0
    ensures k != 2 * c + q
    ensures k <= 2 * c ==> 0 < Abs(2 * c + 1 - q) < 2 * (k + 1) && Abs(2 * c + 1 - q) != k + 1
  {
  }

  lemma QuietDigitMisses(c: nat, m: nat, q: nat, from: nat, k: nat)
    requires m > 0 && q < from <= k && QuietDigit(c, k % m, m, q, from)
    ensures (if k % 2 == 1 then k + c else Abs(2 * c - k)) % (k + 1) != q
  {
    if k % 2 == 1 {
      AddingMisses(c, q, k);
    } else {
      QuietReflection(c, m, q, from, k);
      if 2 * c < k {
        RemainderIsUnique(k - 2 * c, 0, k - 2 * c, k + 1);
      } else {
        ReflectingMisses(c, q, k);
      }
    }
  }

  lemma QuietStep(ds: seq<nat>, q: nat, from: nat, k: nat)
    requires ds != [] && Quiet(ds, q, from) && k >= from
    ensures Pick(ds, k, k) != q
  {
    assert QuietDigit(Shift(ds, k), k % |ds|, |ds|, q, from);
    QuietDigitMisses(Shift(ds, k), |ds|, q, from, k);
  }

  lemma {:induction false} UnitsStays(ds: seq<nat>, from: nat, upTo: nat)
    requires 0 < |ds| <= from <= upTo
    requires forall k | from <= k < upTo :: Pick(ds, k, k) != Units(ds, from)
    ensures Units(ds, upTo) == Units(ds, from)
  {
    if from < upTo {
      UnitsStays(ds, from, upTo - 1);
    }
  }

  /** From step `from` on the decoder leaves the units digit in slot q. */
  ghost predicate Rests(ds: seq<nat>, q: nat, from: nat) {
    0 < |ds| <= from && forall k | k >= from :: Units(ds, k) == q && Pick(ds, k, k) != q
  }

  lemma QuietRests(ds: seq<nat>, q: nat, from: nat)
    requires 0 < |ds| <= from && Units(ds, from) == q && Quiet(ds, q, from)
    ensures Rests(ds, q, from)
  {
    forall i | i >= from
      ensures Pick(ds, i, i) != q
    {
      QuietStep(ds, q, from, i);
    }
    forall k | k >= from
      ensures Units(ds, k) == q
    {
      UnitsStays(ds, from, k);
    }
  }

  /** Right after a rune of w bytes the encoder picks slot w - 2, or that plus the shift at a step that adds. */
  lemma PickAfterWide(ds: seq<nat>, k: nat, w: nat, q: nat)
    requires ds != [] && 2 <= w <= 4 && q <= k
    requires q == w - 2 + Shift(ds, k) && (Shift(ds, k) == 0 || k % 2 == 1)
    ensures Pick(ds, k, k + w - 1) == q
  {
    RemainderIsUnique(k + w - 1 + Shift(ds, k), 1, q, k + 1);
  }

  /** Step k, right after the wide rune, is at digit i of the m digits. */
  lemma CaughtAt(ds: seq<nat>, q: nat, from: nat, w: nat, j: nat, m: nat, round: nat, i: nat)
    requires Rests(ds, q, from) && |ds| == m && from <= m + j + 2 && 2 <= w <= 4
    requires i < m && m + j + 2 == round * m + i
    requires q == w - 2 + i * ds[i] && (i * ds[i] == 0 || (m + j) % 2 == 1)
    ensures Caught(ds, w, j)
  {
    var k := m + j + 2;
    RemainderIsUnique(k, round, i, m);
    ShiftAt(ds, k, i);
    assert Units(ds, k) == q;
    PickAfterWide(ds, k, w, q);
  }

  lemma ShiftAt(ds: seq<nat>, k: nat, i: nat)
    requires i < |ds| && k % |ds| == i
    ensures Shift(ds, k) == i * ds[i]
  {
  }

  // The digits as a number.

  function Number(ds: seq<nat>): nat {
    if ds == [] then 0 else ds[0] + 10 * Number(ds[1..])
  }

  function TenTo(n: nat): nat {
    if n == 0 then 1 else 10 * TenTo(n - 1)
  }

  lemma {:induction false} DigitsOfNumber(ds: seq<nat>)
    requires (forall i | 0 <= i < |ds| :: ds[i] < 10) && (ds != [] ==> ds[|ds| - 1] > 0)
    ensures Digits(Number(ds)) == ds && Number(ds) < TenTo(|ds|) && (ds != [] ==> Number(ds) > 0)
  {
    if ds != [] {
      var rest := Number(ds[1..]);
      DigitsOfNumber(ds[1..]);
      assert ds == [ds[0]] + ds[1..];
      assert Number(ds) % 10 == ds[0] && Number(ds) / 10 == rest;
    }
  }

  /** The digits of a bucket with units digit 1 and at most nine digits. */
  predicate Leading(ds: seq<nat>) {
    && 1 <= |ds| <= 9 && ds[0] == 1 && ds[|ds| - 1] > 0
    && forall i | 0 <= i < |ds| :: ds[i] < 10
  }

  lemma SmallNumber(ds: seq<nat>)
    requires ds == [1] || (|ds| == 2 && ds[0] == 1 && ds[1] < 5) || ds == [1, 0, 1]
    ensures Number(ds) <= 101
  {
    if |ds| > 1 {
      assert Number(ds[1..]) == ds[1] + 10 * Number(ds[2..]);
    }
  }

  // The bucket that catches a text depends on the width and the place of its first wide rune.

  lemma UnitsHolds(ds: seq<nat>, k: nat, q: nat)
    requires 0 < |ds| <= k && Units(ds, k) == q && Pick(ds, k, k) != q
    ensures Units(ds, k + 1) == q
  {
  }

  lemma UnitsMoves(ds: seq<nat>, k: nat)
    requires 0 < |ds| <= k && Units(ds, k) == Pick(ds, k, k)
    ensures Units(ds, k + 1) == k
  {
  }

  lemma SettleTwo() returns (ds: seq<nat>)
    ensures Rests(ds, 0, 1) && |ds| == 1 && 0 * ds[0] == 0 && Leading(ds) && Number(ds) <= 101
  {
    ds := [1];
    SmallNumber(ds);
    assert Units(ds, 1) == 0;
    QuietRests(ds, 0, 1);
  }

  lemma CatchTwo(n: nat) returns (ds: seq<nat>)
    ensures Leading(ds) && Caught(ds, 2, n) && Number(ds) <= 101
  {
    ds := SettleTwo();
    CaughtAt(ds, 0, 1, 2, n, 1, n + 3, 0);
  }

  lemma SettleThreeEven() returns (ds: seq<nat>)
    ensures Rests(ds, 1, 4) && |ds| == 2 && 0 * ds[0] == 0 && Leading(ds) && Number(ds) <= 101
  {
    ds := [1, 4];
    SmallNumber(ds);
    assert Units(ds, 2) == 1;
    UnitsHolds(ds, 2, 1);
    UnitsHolds(ds, 3, 1);
    QuietRests(ds, 1, 4);
  }

  lemma CatchThreeEven(n: nat) returns (ds: seq<nat>)
    ensures Leading(ds) && Caught(ds, 3, 2 * n) && Number(ds) <= 101
  {
    ds := SettleThreeEven();
    CaughtAt(ds, 1, 4, 3, 2 * n, 2, n + 2, 0);
  }

  lemma SettleThreeOdd() returns (ds: seq<nat>)
    ensures Rests(ds, 3, 4) && |ds| == 2 && 1 * ds[1] == 2 && Leading(ds) && Number(ds) <= 101
  {
    ds := [1, 2];
    SmallNumber(ds);
    assert Units(ds, 2) == 1;
    UnitsHolds(ds, 2, 1);
    UnitsMoves(ds, 3);
    QuietRests(ds, 3, 4);
  }

  lemma CatchThreeOdd(n: nat) returns (ds: seq<nat>)
    ensures Leading(ds) && Caught(ds, 3, 2 * n + 1) && Number(ds) <= 101
  {
    ds := SettleThreeOdd();
    CaughtAt(ds, 3, 4, 3, 2 * n + 1, 2, n + 2, 1);
  }

  lemma SettleFourOdd() returns (ds: seq<nat>)
    ensures Rests(ds, 3, 4) && |ds| == 2 && 1 * ds[1] == 1 && Leading(ds) && Number(ds) <= 101
  {
    ds := [1, 1];
    SmallNumber(ds);
    assert Units(ds, 2) == 0;
    UnitsHolds(ds, 2, 0);
    UnitsMoves(ds, 3);
    QuietRests(ds, 3, 4);
  }

  lemma CatchFourOdd(n: nat) returns (ds: seq<nat>)
    ensures Leading(ds) && Caught(ds, 4, 2 * n + 1) && Number(ds) <= 101
  {
    ds := SettleFourOdd();
    CaughtAt(ds, 3, 4, 4, 2 * n + 1, 2, n + 2, 1);
  }

  lemma SettleFourEven() returns (ds: seq<nat>)
    ensures Rests(ds, 2, 3) && |ds| == 3 && 0 * ds[0] == 0 && 1 * ds[1] == 0 && Leading(ds) && Number(ds) <= 101
  {
    ds := [1, 0, 1];
    SmallNumber(ds);
    assert Units(ds, 3) == 2;
    QuietRests(ds, 2, 3);
  }

  lemma CatchFourTwo(n: nat) returns (ds: seq<nat>)
    ensures Leading(ds) && Caught(ds, 4, 6 * n + 2) && Number(ds) <= 101
  {
    ds := SettleFourEven();
    CaughtAt(ds, 2, 3, 4, 6 * n + 2, 3, 2 * n + 2, 1);
  }

  lemma CatchFourFour(n: nat) returns (ds: seq<nat>)
    ensures Leading(ds) && Caught(ds, 4, 6 * n + 4) && Number(ds) <= 101
  {
    ds := SettleFourEven();
    CaughtAt(ds, 2, 3, 4, 6 * n + 4, 3, 2 * n + 3, 0);
  }

  lemma QuietFourSix(ds: seq<nat>)
    requires ds == [1, 0, 0, 2, 1]
    ensures Quiet(ds, 8, 9)
  {
    forall i | 0 <= i < |ds|
      ensures QuietDigit(i * ds[i], i, |ds|, 8, 9)
    {
      assert i == 0 || i == 1 || i == 2 || i == 3 || i == 4;
    }
  }

  lemma UnitsFourSix(ds: seq<nat>)
    requires ds == [1, 0, 0, 2, 1]
    ensures Units(ds, 9) == 8
  {
    assert Units(ds, 5) == 4;
    UnitsHolds(ds, 5, 4);
    UnitsHolds(ds, 6, 4);
    UnitsHolds(ds, 7, 4);
    UnitsMoves(ds, 8);
  }

  lemma SettleFourSix() returns (ds: seq<nat>)
    ensures Rests(ds, 8, 9) && |ds| == 5 && 3 * ds[3] == 6 && Leading(ds)
  {
    ds := [1, 0, 0, 2, 1];
    UnitsFourSix(ds);
    QuietFourSix(ds);
    QuietRests(ds, 8, 9);
  }

  lemma CatchFourSix() returns (ds: seq<nat>)
    ensures Leading(ds) && Caught(ds, 4, 6)
  {
    ds := SettleFourSix();
    CaughtAt(ds, 8, 9, 4, 6, 5, 2, 3);
  }

  lemma QuietFourNone(ds: seq<nat>)
    requires ds == [1, 2, 4, 0, 0, 0, 0, 0, 2]
    ensures Quiet(ds, 10, 11)
  {
    forall i | 0 <= i < |ds|
      ensures QuietDigit(i * ds[i], i, |ds|, 10, 11)
    {
      assert i == 0 || i == 1 || i == 2 || i == 3 || i == 4 || i == 5 || i == 6 || i == 7 || i == 8;
    }
  }

  lemma UnitsFourNone(ds: seq<nat>)
    requires ds == [1, 2, 4, 0, 0, 0, 0, 0, 2]
    ensures Units(ds, 11) == 10
  {
    assert Units(ds, 9) == 6;
    UnitsHolds(ds, 9, 6);
    UnitsMoves(ds, 10);
  }

  lemma SettleFourNone() returns (ds: seq<nat>)
    ensures Rests(ds, 10, 11) && |ds| == 9 && 2 * ds[2] == 8 && Leading(ds)
  {
    ds := [1, 2, 4, 0, 0, 0, 0, 0, 2];
    UnitsFourNone(ds);
    QuietFourNone(ds);
    QuietRests(ds, 10, 11);
  }

  lemma CatchFourNone(n: nat) returns (ds: seq<nat>)
    ensures Leading(ds) && Caught(ds, 4, 18 * n)
  {
    ds := SettleFourNone();
    CaughtAt(ds, 10, 11, 4, 18 * n, 9, 2 * n + 1, 2);
  }

  lemma QuietFourTwelve(ds: seq<nat>)
    requires ds == [1, 1, 0, 0, 4, 4, 0, 0, 1]
    ensures Quiet(ds, 22, 23)
  {
    forall i | 0 <= i < |ds|
      ensures QuietDigit(i * ds[i], i, |ds|, 22, 23)
    {
      assert i == 0 || i == 1 || i == 2 || i == 3 || i == 4 || i == 5 || i == 6 || i == 7 || i == 8;
    }
  }

  lemma UnitsFourTwelve1(ds: seq<nat>)
    requires ds == [1, 1, 0, 0, 4, 4, 0, 0, 1]
    ensures Units(ds, 13) == 10
  {
    assert Units(ds, 9) == 8;
    UnitsHolds(ds, 9, 8);
    UnitsMoves(ds, 10);
    UnitsHolds(ds, 11, 10);
    UnitsHolds(ds, 12, 10);
  }

  lemma UnitsFourTwelve2(ds: seq<nat>)
    requires ds == [1, 1, 0, 0, 4, 4, 0, 0, 1]
    ensures Units(ds, 17) == 10
  {
    UnitsFourTwelve1(ds);
    UnitsHolds(ds, 13, 10);
    UnitsHolds(ds, 14, 10);
    UnitsHolds(ds, 15, 10);
    UnitsHolds(ds, 16, 10);
  }

  lemma UnitsFourTwelve3(ds: seq<nat>)
    requires ds == [1, 1, 0, 0, 4, 4, 0, 0, 1]
    ensures Units(ds, 21) == 10
  {
    UnitsFourTwelve2(ds);
    UnitsHolds(ds, 17, 10);
    UnitsHolds(ds, 18, 10);
    UnitsHolds(ds, 19, 10);
    UnitsHolds(ds, 20, 10);
  }

  lemma UnitsFourTwelve(ds: seq<nat>)
    requires ds == [1, 1, 0, 0, 4, 4, 0, 0, 1]
    ensures Units(ds, 23) == 22
  {
    UnitsFourTwelve3(ds);
    UnitsHolds(ds, 21, 10);
    UnitsMoves(ds, 22);
  }

  lemma SettleFourTwelve() returns (ds: seq<nat>)
    ensures Rests(ds, 22, 23) && |ds| == 9 && 5 * ds[5] == 20 && Leading(ds)
  {
    ds := [1, 1, 0, 0, 4, 4, 0, 0, 1];
    UnitsFourTwelve(ds);
    QuietFourTwelve(ds);
    QuietRests(ds, 22, 23);
  }

  lemma CatchFourTwelve(n: nat) returns (ds: seq<nat>)
    ensures Leading(ds) && Caught(ds, 4, 18 * n + 12)
  {
    ds := SettleFourTwelve();
    CaughtAt(ds, 22, 23, 4, 18 * n + 12, 9, 2 * n + 2, 5);
  }

  lemma QuietFourLast(ds: seq<nat>)
    requires ds == [1, 5, 0, 0, 8, 0, 0, 0, 3]
    ensures Quiet(ds, 26, 27)
  {
    forall i | 0 <= i < |ds|
      ensures QuietDigit(i * ds[i], i, |ds|, 26, 27)
    {
      assert i == 0 || i == 1 || i == 2 || i == 3 || i == 4 || i == 5 || i == 6 || i == 7 || i == 8;
    }
  }

  lemma UnitsFourLast1(ds: seq<nat>)
    requires ds == [1, 5, 0, 0, 8, 0, 0, 0, 3]
    ensures Units(ds, 13) == 4
  {
    assert Units(ds, 9) == 4;
    UnitsHolds(ds, 9, 4);
    UnitsHolds(ds, 10, 4);
    UnitsHolds(ds, 11, 4);
    UnitsHolds(ds, 12, 4);
  }

  lemma UnitsFourLast2(ds: seq<nat>)
    requires ds == [1, 5, 0, 0, 8, 0, 0, 0, 3]
    ensures Units(ds, 17) == 4
  {
    UnitsFourLast1(ds);
    UnitsHolds(ds, 13, 4);
    UnitsHolds(ds, 14, 4);
    UnitsHolds(ds, 15, 4);
    UnitsHolds(ds, 16, 4);
  }

  lemma UnitsFourLast3(ds: seq<nat>)
    requires ds == [1, 5, 0, 0, 8, 0, 0, 0, 3]
    ensures Units(ds, 21) == 19
  {
    UnitsFourLast2(ds);
    UnitsHolds(ds, 17, 4);
    UnitsHolds(ds, 18, 4);
    UnitsMoves(ds, 19);
    UnitsHolds(ds, 20, 19);
  }

  lemma UnitsFourLast4(ds: seq<nat>)
    requires ds == [1, 5, 0, 0, 8, 0, 0, 0, 3]
    ensures Units(ds, 25) == 22
  {
    UnitsFourLast3(ds);
    UnitsHolds(ds, 21, 19);
    UnitsMoves(ds, 22);
    UnitsHolds(ds, 23, 22);
    UnitsHolds(ds, 24, 22);
  }

  lemma UnitsFourLast(ds: seq<nat>)
    requires ds == [1, 5, 0, 0, 8, 0, 0, 0, 3]
    ensures Units(ds, 27) == 26
  {
    UnitsFourLast4(ds);
    UnitsHolds(ds, 25, 22);
    UnitsMoves(ds, 26);
  }

  lemma SettleFourLast() returns (ds: seq<nat>)
    ensures Rests(ds, 26, 27) && |ds| == 9 && 8 * ds[8] == 24 && Leading(ds)
  {
    ds := [1, 5, 0, 0, 8, 0, 0, 0, 3];
    UnitsFourLast(ds);
    QuietFourLast(ds);
    QuietRests(ds, 26, 27);
  }

  lemma CatchFourLast(n: nat) returns (ds: seq<nat>)
    ensures Leading(ds) && Caught(ds, 4, 18 * n + 24)
  {
    ds := SettleFourLast();
    CaughtAt(ds, 26, 27, 4, 18 * n + 24, 9, 2 * n + 3, 8);
  }

  lemma CatchDigits(w: nat, j: nat) returns (ds: seq<nat>)
    requires 2 <= w <= 4
    ensures Leading(ds) && Caught(ds, w, j) && (w < 4 || j % 6 != 0 ==> Number(ds) <= 101)
  {
    if w == 2 {
      ds := CatchTwo(j);
    } else if w == 3 {
      ds := CatchThree(j);
    } else {
      ds := CatchFour(j / 6, j % 6);
    }
  }

  lemma CatchThree(j: nat) returns (ds: seq<nat>)
    ensures Leading(ds) && Caught(ds, 3, j) && Number(ds) <= 101
  {
    var n := j / 2;
    if j == 2 * n {
      ds := CatchThreeEven(n);
    } else {
      ds := CatchThreeOdd(n);
    }
  }

  lemma CatchFour(n: nat, r: nat) returns (ds: seq<nat>)
    requires r < 6
    ensures Leading(ds) && Caught(ds, 4, 6 * n + r) && (r != 0 ==> Number(ds) <= 101)
  {
    if r == 0 {
      ds := CatchFourLate(n);
    } else if r == 2 {
      ds := CatchFourTwo(n);
    } else if r == 4 {
      ds := CatchFourFour(n);
    } else {
      var i := r / 2;
      assert 2 * (3 * n + i) + 1 == 6 * n + r;
      ds := CatchFourOdd(3 * n + i);
    }
  }

  lemma CatchFourLate(n: nat) returns (ds: seq<nat>)
    ensures Leading(ds) && Caught(ds, 4, 6 * n)
  {
    var i := n / 3;
    if n == 1 {
      ds := CatchFourSix();
    } else if n == 3 * i {
      ds := CatchFourNone(i);
    } else if n == 3 * i + 2 {
      ds := CatchFourTwelve(i);
    } else {
      ds := CatchFourLast(i - 1);
    }
  }

  /** As a bucket the digits are its number, and the other bucket is the next one. */
  lemma LeadingBucket(ds: seq<nat>)
    requires Leading(ds)
    ensures var a := Number(ds[1..]);
            && ds == [1] + Digits(a) && Number(ds) == 10 * a + 1 && a < 100_000_000
  {
    DigitsOfNumber(ds[1..]);
    TenToGrows(|ds| - 1, 8);
    assert TenTo(8) == 100_000_000;
  }

  lemma CatchBucket(w: nat, j: nat) returns (ds: seq<nat>, a: nat)
    requires 2 <= w <= 4
    ensures ds == [1] + Digits(a) && Caught(ds, w, j)
    ensures TimeOf(a, if a == 0 then 2 else 1) < if w < 4 || j % 6 != 0 then 102_000 else 1_000_000_000_000
  {
    ds := CatchDigits(w, j);
    LeadingBucket(ds);
    a := Number(ds[1..]);
  }

  /** Every text with a wide rune before its last one is lost at some time: before 102 seconds, or, where only
      a four-byte rune at a place divisible by six gives it away, before 10^12 milliseconds. */
  lemma WideRuneBreaks(str: string, j: nat) returns (t: int)
    requires FirstWide(str, j)
    ensures 1000 <= t < 1_000_000_000_000 && !RoundTrips(str, t, t)
    ensures Width(str[j]) < 4 || j % 6 != 0 ==> t < 102_000
  {
    var ds, a := CatchBucket(Width(str[j]), j);
    t := OneOfTwoBreaks(str, j, ds, a);
  }

  lemma {:induction false} TenToGrows(a: nat, b: nat)
    requires a <= b
    ensures 1 <= TenTo(a) <= TenTo(b)
    decreases b
  {
    if a < b {
      TenToGrows(a, b - 1);
    } else if a > 0 {
      TenToGrows(a - 1, b - 1);
    }
  }

  const LAST_TIME := 0x7FFF_FFFF_FFFF_FFFF  // times are 64-bit

  /** The guard is exact: a text round-trips at every time from 1000 on if and only if its runes before the
      last are single bytes; times below 10^12 already tell. */
  lemma RoundTripExactly(str: string)
    requires str != ""
    ensures (forall t | 1000 <= t <= LAST_TIME :: RoundTrips(str, t, t)) <==> SingleByteBeforeLast(str)
    ensures (forall t | 1000 <= t < 1_000_000_000_000 :: RoundTrips(str, t, t)) <==> SingleByteBeforeLast(str)
  {
    if SingleByteBeforeLast(str) {
      forall t | t >= 1000
        ensures RoundTrips(str, t, t)
      {
        RoundTrip(str, t, t);
      }
    } else {
      var j := FindFirstWide(str, |str| - 1);
      var t := WideRuneBreaks(str, j);
    }
  }

  // Before 102 seconds.

  lemma {:induction false} IdentityShuffle<T>(s: seq<T>, slots: seq<nat>)
    requires |slots| == |s| && forall k | 0 <= k < |slots| :: slots[k] == k
    ensures Shuffle(s, slots) == s
  {
    if s != [] {
      var n := |s| - 1;
      IdentityShuffle(s[..n], slots[..n]);
      assert s[..n] + [s[n]] == s;
    }
  }

  /** In bucket 1 the decoder moves nothing, and a four-byte rune makes the encoder move the first rune. */
  lemma FirstBucketSlots(str: string, j: nat)
    requires FirstWide(str, j) && Width(str[j]) == 4
    ensures Bucket(1000) == 1 && Digits(1) == [1] && Plain(str, 1000) == "1|" + str
    ensures var plain := "1|" + str;
            && (forall k | 0 <= k < |plain| :: SlotsAt([1], Indices(|plain|))[k] == k)
            && (forall k | 0 <= k < j + 3 :: SlotsAt([1], Offsets(plain))[k] == k)
            && SlotsAt([1], Offsets(plain))[j + 3] == 2
  {
    var plain := "1|" + str;
    assert Digits(1) == [1];
    OffsetsAround("1|", str, j);
    forall k | 0 <= k < |plain|
      ensures Slot([1], k, k) == k
    {
      PickIsSlot([1], k, k);
      RemainderIsUnique(k, 0, k, k + 1);
    }
    PickIsSlot([1], j + 3, j + 6);
    RemainderIsUnique(j + 6, 1, 2, j + 4);
  }

  /** A list that the swaps leave as it is, although they move its third rune: that rune occurs again. */
  lemma MovedAndKept(s: string, slots: seq<nat>, k: nat)
    requires 3 <= k < |slots| == |s| && (forall i | 0 <= i < |slots| :: slots[i] <= i)
    requires (forall i | 0 <= i < k :: slots[i] == i) && slots[k] == 2
    requires Shuffle(s, slots) == s
    ensures exists q :: k <= q < |s| && s[q] == s[2]
  {
    WhereStays(slots, 2, 3, k);
    WhereHigher(slots, 2, k, |slots|);
    WhereFinds(s, slots, 2);
    assert s[Where(slots, 2, |s|)] == s[2];
  }

  lemma FirstBucketReturns(str: string, j: nat)
    requires FirstWide(str, j) && Width(str[j]) == 4 && RoundTrips(str, 1000, 1000)
    ensures Shuffle("1|" + str, SlotsAt([1], Offsets("1|" + str))) == "1|" + str
  {
    FirstBucketSlots(str, j);
    RoundTripsWhenShufflesAgree(str, 1000);
    IdentityShuffle("1|" + str, SlotsAt([1], Indices(|"1|" + str|)));
  }

  lemma FirstRuneRepeats(str: string, j: nat)
    requires FirstWide(str, j) && Width(str[j]) == 4 && RoundTrips(str, 1000, 1000)
    ensures str[0] in str[1..]
  {
    var plain := "1|" + str;
    FirstBucketReturns(str, j);
    FirstBucketSlots(str, j);
    MovedAndKept(plain, SlotsAt([1], Offsets(plain)), j + 3);
    var q :| j + 3 <= q < |plain| && plain[q] == plain[2];
    assert str[1..][q - 3] == plain[q];
  }

  /** If a four-byte rune at a place divisible by six comes first among the wide ones, the first rune of the
      text does not occur again. */
  predicate TellsSoon(str: string) {
    forall j | 0 <= j < |str| && FirstWide(str, j) :: Width(str[j]) < 4 || j % 6 != 0 || str[0] !in str[1..]
  }

  lemma RoundTripSoonExactly(str: string)
    requires str != "" && TellsSoon(str)
    ensures (forall t | 1000 <= t < 102_000 :: RoundTrips(str, t, t)) <==> SingleByteBeforeLast(str)
  {
    if SingleByteBeforeLast(str) {
      forall t | 1000 <= t < 102_000
        ensures RoundTrips(str, t, t)
      {
        RoundTrip(str, t, t);
      }
    } else {
      var j := FindFirstWide(str, |str| - 1);
      if Width(str[j]) < 4 || j % 6 != 0 {
        var t := WideRuneBreaks(str, j);
      } else if RoundTrips(str, 1000, 1000) {
        FirstRuneRepeats(str, j);
      }
    }
  }

  /** A concrete text the codec does not give back: a two-byte rune followed by a letter. */
  lemma MultiByteWitness()
    ensures exists t | 1000 <= t < 102_000 :: !RoundTrips("\U{e9}a", t, t)
  {
    var str := "\U{e9}a";
    assert str[0] == '\U{e9}' && str[1] == 'a';
    var t := WideRuneBreaks(str, 0);
  }
}
