/** The time-flow string codec (pkg/util/common.go).

    Encoding prefixes the text with the time bucket and then inserts the runes one by one, swapping each new
    one with an earlier position picked from the digits of the bucket.  Decoding undoes the swaps from the
    last to the first.  The encoder computes the position from the BYTE offset of a rune, the decoder from
    its RUNE index, so the two agree only where the two numberings pick the same slot. */
module TimeFlow {

  /** Returned, or stopped by a Go run-time panic (index out of range, division by zero). */
  datatype Outcome = Returned(text: string) | Panicked

  // Numbers.

  /** Go's truncating division of a 64-bit time by 1000. */
  function Bucket(timeNow: int): int {
    if timeNow >= 0 then timeNow / 1000 else -((-timeNow) / 1000)
  }

  /** Decimal digits, least significant first; empty unless t is positive. */
  function Digits(t: int): (ds: seq<nat>)
    ensures t > 0 <==> ds != []
    ensures forall i | 0 <= i < |ds| :: ds[i] < 10
    decreases t
  {
    if t <= 0 then [] else [t % 10] + Digits(t / 10)
  }

  function DigitChar(d: nat): char
    requires d < 10
  {
    '0' + d as char
  }

  function DecimalOfNat(t: nat): string {
    if t < 10 then [DigitChar(t)] else DecimalOfNat(t / 10) + [DigitChar(t % 10)]
  }

  /** The text of a number as `%d` prints it. */
  function Decimal(t: int): string {
    if t < 0 then "-" + DecimalOfNat(-t) else DecimalOfNat(t)
  }

  // Decimal numbers, read by their character codes.

  /** The number a sequence of digits denotes. */
  function ValueOf(text: string): int {
    if text == "" then 0 else 10 * ValueOf(text[..|text| - 1]) + (text[|text| - 1] as int - 48)
  }

  /** A decimal number as it is written: digits only, and no zero in front of others. */
  predicate IsDecimalOf(text: string, n: int) {
    && text != "" && (forall i | 0 <= i < |text| :: 48 <= text[i] as int <= 57)
    && ValueOf(text) == n && (|text| > 1 ==> text[0] as int != 48)
  }

  lemma {:induction false} DecimalReads(n: nat)
    ensures IsDecimalOf(DecimalOfNat(n), n)
    ensures n > 0 ==> DecimalOfNat(n)[0] as int != 48
  {
    if n >= 10 {
      DecimalReads(n / 10);
      assert DecimalOfNat(n)[..|DecimalOfNat(n)| - 1] == DecimalOfNat(n / 10);
    }
  }

  lemma {:induction false} ValueIsPositive(text: string)
    requires text != "" && (forall i | 0 <= i < |text| :: 48 <= text[i] as int <= 57) && text[0] as int != 48
    ensures ValueOf(text) >= 1
  {
    if |text| > 1 {
      ValueIsPositive(text[..|text| - 1]);
    } else {
      assert text[..|text| - 1] == "" && ValueOf("") == 0;
    }
  }

  lemma {:induction false} DecimalIsTheOnly(text: string, n: nat)
    requires IsDecimalOf(text, n)
    ensures text == DecimalOfNat(n)
  {
    var front, last := text[..|text| - 1], text[|text| - 1];
    assert text == front + [last];
    if |text| > 1 {
      ValueIsPositive(front);
      assert n / 10 == ValueOf(front) && n % 10 == last as int - 48 && n >= 10;
      DecimalIsTheOnly(front, n / 10);
    } else {
      assert front == "" && n == last as int - 48;
    }
    assert DigitChar(n % 10) as int == last as int;
  }

  // Text.

  /** The bytes of code point n in UTF-8. */
  function Utf8(n: int): seq<int> {
    if n < 0x80 then [n]
    else if n < 0x800 then [0xC0 + n / 0x40, 0x80 + n % 0x40]
    else if n < 0x10000 then [0xE0 + n / 0x1000, 0x80 + n / 0x40 % 0x40, 0x80 + n % 0x40]
    else [0xF0 + n / 0x40000, 0x80 + n / 0x1000 % 0x40, 0x80 + n / 0x40 % 0x40, 0x80 + n % 0x40]
  }

  /** Section 3 of RFC 3629: the first byte tells the number of bytes, the others are continuation bytes, together
      they spell the code point, and no shorter sequence could. */
  predicate SpellsCodePoint(b: seq<int>, n: int) {
    && 1 <= |b| <= 4 && (forall i | 1 <= i < |b| :: 0x80 <= b[i] <= 0xBF)
    && (if |b| == 1 then 0 <= b[0] <= 0x7F && n == b[0]
        else if |b| == 2 then 0xC2 <= b[0] <= 0xDF && n == (b[0] - 0xC0) * 0x40 + (b[1] - 0x80)
        else if |b| == 3 then
          && 0xE0 <= b[0] <= 0xEF && n >= 0x800
          && n == (b[0] - 0xE0) * 0x1000 + (b[1] - 0x80) * 0x40 + (b[2] - 0x80)
        else
          && 0xF0 <= b[0] <= 0xF4 && n >= 0x10000
          && n == (b[0] - 0xF0) * 0x40000 + (b[1] - 0x80) * 0x1000 + (b[2] - 0x80) * 0x40 + (b[3] - 0x80))
  }

  lemma Utf8Spells(n: int)
    requires 0 <= n < 0x11_0000
    ensures SpellsCodePoint(Utf8(n), n)
  {
    if n >= 0x10000 {
      FourBytes(n);
    } else if n >= 0x800 {
      ThreeBytes(n);
    }
  }

  lemma ThreeBytes(n: int)
    requires 0x800 <= n < 0x10000
    ensures SpellsCodePoint([0xE0 + n / 0x1000, 0x80 + n / 0x40 % 0x40, 0x80 + n % 0x40], n)
  {
    var high := n / 0x40;
    assert n == high * 0x40 + n % 0x40 && high / 0x40 == n / 0x1000 && high == n / 0x1000 * 0x40 + high % 0x40;
  }

  lemma FourBytes(n: int)
    requires 0x10000 <= n < 0x11_0000
    ensures SpellsCodePoint([0xF0 + n / 0x40000, 0x80 + n / 0x1000 % 0x40, 0x80 + n / 0x40 % 0x40, 0x80 + n % 0x40], n)
  {
    var high := n / 0x40;
    var higher := high / 0x40;
    assert n == high * 0x40 + n % 0x40 && high == higher * 0x40 + high % 0x40;
    assert higher == n / 0x1000 && higher / 0x40 == n / 0x40000 && higher == higher / 0x40 * 0x40 + higher % 0x40;
  }

  /** The width of a rune is the number of its bytes. */
  lemma WidthIsUtf8(c: char)
    ensures SpellsCodePoint(Utf8(c as int), c as int) && |Utf8(c as int)| == Width(c)
  {
    Utf8Spells(c as int);
  }

  /** Bytes a rune takes in UTF-8. */
  function Width(c: char): (w: nat)
    ensures 1 <= w <= 4
  {
    if c as int < 0x80 then 1 else if c as int < 0x800 then 2 else if c as int < 0x10000 then 3 else 4
  }

  /** Byte offset of rune k. */
  function Offset(text: string, k: nat): nat
    requires k <= |text|
  {
    if k == 0 then 0 else Offset(text, k - 1) + Width(text[k - 1])
  }

  function Offsets(text: string): (offs: seq<nat>)
    ensures |offs| == |text|
  {
    seq(|text|, k requires 0 <= k < |text| => Offset(text, k))
  }

  function Plain(str: string, timeNow: int): string {
    Decimal(Bucket(timeNow)) + "|" + str
  }

  /** The position both loops compute: `at` shifted by, or reflected in, the index times its digit, made
      non-negative, and taken modulo the length of the list. */
  function NewIndex(add: bool, index: nat, digit: nat, at: int, size: nat): (p: nat)
    requires size > 0
    ensures p < size
  {
    var raw := if add then at + digit * index else 2 * index * digit - at;
    (if raw < 0 then raw * -1 else raw) % size
  }

  /** Whether step k adds; it alternates, starting with a step that does not. */
  predicate Adds(k: nat) {
    k > 0 && !Adds(k - 1)
  }

  /** The digit used at step k; it cycles through the m digits. */
  function DigitIndex(k: nat, m: nat): (i: nat)
    requires m > 0
    ensures i < m
  {
    if k == 0 then 0
    else
      var before := DigitIndex(k - 1, m);
      if before + 1 == m then 0 else before + 1
  }

  /** The slot picked at step k, from a number `at` that is either a byte offset or a rune index. */
  function Slot(ds: seq<nat>, k: nat, at: int): (p: nat)
    requires ds != []
    ensures p <= k
  {
    NewIndex(Adds(k), DigitIndex(k, |ds|), ds[DigitIndex(k, |ds|)], at, k + 1)
  }

  function Swap<T>(s: seq<T>, i: nat, j: nat): (r: seq<T>)
    requires i < |s| && j < |s|
    ensures |r| == |s|
  {
    s[i := s[j]][j := s[i]]
  }

  /** The encoder's list after its first |s| steps: one slot per step, `slots[k] <= k`. */
  function Shuffle<T>(s: seq<T>, slots: seq<nat>): (r: seq<T>)
    requires |slots| == |s| && forall k | 0 <= k < |slots| :: slots[k] <= k
    ensures |r| == |s|
  {
    if s == [] then []
    else
      var n := |s| - 1;
      Swap(Shuffle(s[..n], slots[..n]) + [s[n]], slots[n], n)
  }

  /** The decoder's list: the slot's content is the last rune, the old last rune takes its place. */
  function Unshuffle<T>(s: seq<T>, slots: seq<nat>): (r: seq<T>)
    requires |slots| == |s| && forall k | 0 <= k < |slots| :: slots[k] <= k
    ensures |r| == |s|
    decreases |s|
  {
    if s == [] then []
    else
      var n := |s| - 1;
      Unshuffle(Swap(s, slots[n], n)[..n], slots[..n]) + [s[slots[n]]]
  }

  function SlotsAt(ds: seq<nat>, ats: seq<nat>): (slots: seq<nat>)
    requires ds != []
    ensures |slots| == |ats| && forall k | 0 <= k < |slots| :: slots[k] <= k
  {
    seq(|ats|, k requires 0 <= k < |ats| => Slot(ds, k, ats[k]))
  }

  function Indices(n: nat): (ks: seq<nat>)
    ensures |ks| == n
  {
    seq(n, k requires 0 <= k < n => k)
  }

  function EncodeSpec(str: string, timeNow: int): Outcome {
    var ds := Digits(Bucket(timeNow));
    if str == "" then Returned("")
    else if ds == [] then Panicked
    else
      var plain := Plain(str, timeNow);
      Returned(Shuffle(plain, SlotsAt(ds, Offsets(plain))))
  }

  function DecodeSpec(str: string, timeNow: int): Outcome {
    var ds := Digits(Bucket(timeNow));
    if str == "" then Returned("")
    else if ds == [] then Panicked
    else Returned(Unshuffle(str, SlotsAt(ds, Indices(|str|))))
  }

  // The two loops of the source.

  method TimeDigits(bucket: int) returns (ds: seq<nat>)
    ensures ds == Digits(bucket)
  {
    ds := [];
    var t := bucket;
    while t > 0
      invariant ds + Digits(t) == Digits(bucket)
    {
      ghost var before := ds;
      ds := ds + [t % 10];
      assert ds + Digits(t / 10) == before + Digits(t);
      t := t / 10;
    }
  }

  method StepForward(ghost k: nat, add: bool, index: nat, digits: nat) returns (next: bool, timeDigitIndex: nat)
    requires digits > 0 && add == Adds(k) && index == DigitIndex(k, digits)
    ensures next == Adds(k + 1) && timeDigitIndex == DigitIndex(k + 1, digits) && timeDigitIndex < digits
  {
    next := !add;
    timeDigitIndex := index + 1;
    Wrap(timeDigitIndex, digits);
    timeDigitIndex := timeDigitIndex % digits;
  }

  method EncodeTimeFlowString(str: string, timeNow: int) returns (r: Outcome)
    ensures r == EncodeSpec(str, timeNow)
  {
    if str == "" {
      return Returned("");
    }
    var plain := Plain(str, timeNow);
    var timeDigits := TimeDigits(Bucket(timeNow));
    var res: string := [];
    var add := false;
    var timeDigitIndex := 0;
    var k, pos := 0, 0;
    while k < |plain|
      invariant k <= |plain| && pos == Offset(plain, k)
      invariant k > 0 ==> timeDigits != []
      invariant add == Adds(k)
      invariant timeDigitIndex == if timeDigits == [] then 0 else DigitIndex(k, |timeDigits|)
      invariant timeDigits != [] ==> res == Shuffle(plain[..k], SlotsAt(timeDigits, Offsets(plain)[..k]))
      invariant |res| == k
    {
      if timeDigitIndex >= |timeDigits| {
        return Panicked;
      }
      res := res + [plain[k]];
      var newIndex := NewIndex(add, timeDigitIndex, timeDigits[timeDigitIndex], pos, |res|);
      ShuffleStep(plain, SlotsAt(timeDigits, Offsets(plain)), timeDigits, Offsets(plain), k);
      res := res[newIndex := res[|res| - 1]][|res| - 1 := res[newIndex]];
      add, timeDigitIndex := StepForward(k, add, timeDigitIndex, |timeDigits|);
      pos := pos + Width(plain[k]);
      k := k + 1;
    }
    assert plain[..k] == plain && Offsets(plain)[..k] == Offsets(plain);
    return Returned(res);
  }

  /** The decoder starts from the remainders of the last index instead of counting up to them. */
  lemma {:induction false} StartFromTheEnd(k: nat, m: nat)
    requires m > 0
    ensures Adds(k) <==> (k + 1) % 2 == 0
    ensures DigitIndex(k, m) == k % m
  {
    if k > 0 {
      StartFromTheEnd(k - 1, m);
      NextRemainder(k - 1, m);
    } else {
      RemainderIsUnique(0, 0, 0, m);
    }
  }

  lemma NextRemainder(k: nat, m: nat)
    requires m > 0
    ensures (k + 1) % m == if k % m + 1 == m then 0 else k % m + 1
  {
    var q, r := k / m, k % m;
    assert k == q * m + r;
    Distribute(q, m);
    if r + 1 == m {
      RemainderIsUnique(k + 1, q + 1, 0, m);
    } else {
      RemainderIsUnique(k + 1, q, r + 1, m);
    }
  }

  lemma Wrap(i: nat, m: nat)
    requires 0 < m && i <= m
    ensures i % m == if i == m then 0 else i
  {
    RemainderIsUnique(i, if i == m then 1 else 0, if i == m then 0 else i, m);
  }

  lemma Distribute(q: int, m: int)
    ensures (q + 1) * m == q * m + m
  {
  }

  lemma RemainderIsUnique(k: nat, q: nat, r: nat, m: nat)
    requires 0 <= r < m && k == q * m + r
    ensures k % m == r
  {
    var q', r' := k / m, k % m;
    assert k == q' * m + r';
    if q' < q {
      MultiplesGrow(q' + 1, q, m);
      Distribute(q', m);
      assert false;
    } else if q < q' {
      MultiplesGrow(q + 1, q', m);
      Distribute(q, m);
      assert false;
    }
  }

  lemma {:induction false} MultiplesGrow(a: nat, b: nat, m: nat)
    requires a <= b
    ensures a * m <= b * m
    decreases b - a
  {
    if a < b {
      MultiplesGrow(a, b - 1, m);
      Distribute(b - 1, m);
    }
  }

  lemma ShuffleStep(plain: string, slots: seq<nat>, ds: seq<nat>, ats: seq<nat>, k: nat)
    requires ds != [] && |ats| == |plain| && slots == SlotsAt(ds, ats) && k < |plain|
    ensures Shuffle(plain[..k + 1], SlotsAt(ds, ats[..k + 1]))
         == Swap(Shuffle(plain[..k], SlotsAt(ds, ats[..k])) + [plain[k]], Slot(ds, k, ats[k]), k)
  {
    assert plain[..k + 1][..k] == plain[..k];
    assert SlotsAt(ds, ats[..k + 1])[..k] == SlotsAt(ds, ats[..k]);
  }

  /** One step of the decoder: the picked rune is the last of the result, the rest is undone next. */
  lemma UnshuffleStep(secret: string, slots: seq<nat>, last: nat, done: string, next: string)
    requires last + 1 == |secret| <= |slots| && forall k | 0 <= k < |slots| :: slots[k] <= k
    requires next == [secret[slots[last]]] + done
    ensures Unshuffle(secret, slots[..last + 1]) + done
         == Unshuffle(Swap(secret, slots[last], last)[..last], slots[..last]) + next
  {
    assert slots[..last + 1][..last] == slots[..last];
  }

  method LastStep(n: nat, digits: nat) returns (add: bool, timeDigitIndex: nat)
    requires n > 0 && digits > 0
    ensures add == Adds(n - 1) && timeDigitIndex == DigitIndex(n - 1, digits)
  {
    add := n % 2 == 0;
    timeDigitIndex := (n - 1) % digits;
    StartFromTheEnd(n - 1, digits);
  }

  method StepBack(ghost k: nat, add: bool, index: nat, digits: nat) returns (before: bool, timeDigitIndex: nat)
    requires digits > 0 && add == Adds(k) && index == DigitIndex(k, digits)
    ensures timeDigitIndex < digits
    ensures k > 0 ==> before == Adds(k - 1) && timeDigitIndex == DigitIndex(k - 1, digits)
  {
    before := !add;
    timeDigitIndex := if index == 0 then digits - 1 else index - 1;
  }

  /** The decoder's loop, once the digits are known to be there. */
  method UndoSwaps(str: string, timeDigits: seq<nat>, ghost slots: seq<nat>) returns (res: string)
    requires str != "" && timeDigits != [] && |slots| == |str|
    requires forall k | 0 <= k < |slots| :: slots[k] <= k
    requires forall k {:trigger Slot(timeDigits, k, k)} | 0 <= k < |slots| :: slots[k] == Slot(timeDigits, k, k)
    ensures res == Unshuffle(str, slots)
  {
    var n := |str|;
    res := seq(n, _ => '\0');
    var secret := str;
    var add, timeDigitIndex := LastStep(n, |timeDigits|);
    assert slots[..n] == slots;
    for pos := 0 to n
      invariant |res| == n && 0 <= timeDigitIndex < |timeDigits|
      invariant pos < n ==> add == Adds(n - 1 - pos) && timeDigitIndex == DigitIndex(n - 1 - pos, |timeDigits|)
      invariant |secret| == n - pos
      invariant Unshuffle(secret, slots[..n - pos]) + res[n - pos..] == Unshuffle(str, slots)
    {
      var last := n - 1 - pos;
      var newIndex := NewIndex(add, timeDigitIndex, timeDigits[timeDigitIndex], last, |secret|);
      assert newIndex == Slot(timeDigits, last, last) == slots[last];
      ghost var done := res[last + 1..];
      res := res[last := secret[newIndex]];
      assert res[last..] == [secret[newIndex]] + done;
      UnshuffleStep(secret, slots, last, done, res[last..]);
      secret := Swap(secret, newIndex, last)[..last];
      add, timeDigitIndex := StepBack(last, add, timeDigitIndex, |timeDigits|);
    }
  }

  method DecodeTimeFlowStringTime(str: string, timeNow: int) returns (r: Outcome)
    ensures r == DecodeSpec(str, timeNow)
  {
    if str == "" {
      return Returned("");
    }
    var timeDigits := TimeDigits(Bucket(timeNow));
    if timeDigits == [] {
      return Panicked;
    }
    var res := UndoSwaps(str, timeDigits, SlotsAt(timeDigits, Indices(|str|)));
    return Returned(res);
  }

  // Shuffling and unshuffling are inverse bijections that only move runes.

  lemma SwapTwice<T>(s: seq<T>, i: nat, j: nat)
    requires i < |s| && j < |s|
    ensures Swap(Swap(s, i, j), i, j) == s
    ensures multiset(Swap(s, i, j)) == multiset(s)
  {
  }

  lemma {:induction false} UnshuffleShuffle<T>(s: seq<T>, slots: seq<nat>)
    requires |slots| == |s| && forall k | 0 <= k < |slots| :: slots[k] <= k
    ensures Unshuffle(Shuffle(s, slots), slots) == s
  {
    if s != [] {
      var n := |s| - 1;
      var inner := Shuffle(s[..n], slots[..n]);
      SwapTwice(inner + [s[n]], slots[n], n);
      assert (inner + [s[n]])[..n] == inner;
      UnshuffleShuffle(s[..n], slots[..n]);
      assert s == s[..n] + [s[n]];
    }
  }

  lemma {:induction false} ShuffleUnshuffle<T>(s: seq<T>, slots: seq<nat>)
    requires |slots| == |s| && forall k | 0 <= k < |slots| :: slots[k] <= k
    ensures Shuffle(Unshuffle(s, slots), slots) == s
    decreases |s|
  {
    if s != [] {
      var n := |s| - 1;
      var swapped := Swap(s, slots[n], n);
      var inner := Unshuffle(swapped[..n], slots[..n]);
      ShuffleUnshuffle(swapped[..n], slots[..n]);
      assert (inner + [s[slots[n]]])[..n] == inner;
      assert swapped == swapped[..n] + [s[slots[n]]];
      SwapTwice(s, slots[n], n);
    }
  }

  lemma {:induction false} ShufflePermutes<T>(s: seq<T>, slots: seq<nat>)
    requires |slots| == |s| && forall k | 0 <= k < |slots| :: slots[k] <= k
    ensures multiset(Shuffle(s, slots)) == multiset(s)
  {
    if s != [] {
      var n := |s| - 1;
      ShufflePermutes(s[..n], slots[..n]);
      SwapTwice(Shuffle(s[..n], slots[..n]) + [s[n]], slots[n], n);
      assert s == s[..n] + [s[n]];
    }
  }

  lemma UnshufflePermutes<T>(s: seq<T>, slots: seq<nat>)
    requires |slots| == |s| && forall k | 0 <= k < |slots| :: slots[k] <= k
    ensures multiset(Unshuffle(s, slots)) == multiset(s)
  {
    ShuffleUnshuffle(s, slots);
    ShufflePermutes(Unshuffle(s, slots), slots);
  }

  // The round trip.

  /** Decoding the encoding gives the decimal number of the bucket, a bar and the text. */
  ghost predicate RoundTrips(str: string, encodedAt: int, decodedAt: int) {
    var code := EncodeSpec(str, encodedAt);
    && code.Returned?
    && exists head ::
         IsDecimalOf(head, encodedAt / 1000) && DecodeSpec(code.text, decodedAt) == Returned(head + "|" + str)
  }

  lemma RoundTripsPlain(str: string, encodedAt: int, decodedAt: int)
    requires encodedAt >= 0
    ensures var code := EncodeSpec(str, encodedAt);
            RoundTrips(str, encodedAt, decodedAt) ==
            (code.Returned? && DecodeSpec(code.text, decodedAt) == Returned(Plain(str, encodedAt)))
  {
    var n := encodedAt / 1000;
    DecimalReads(n);
    var code := EncodeSpec(str, encodedAt);
    assert Plain(str, encodedAt) == DecimalOfNat(n) + "|" + str;
    if RoundTrips(str, encodedAt, decodedAt) {
      var head :| IsDecimalOf(head, n) && DecodeSpec(code.text, decodedAt) == Returned(head + "|" + str);
      DecimalIsTheOnly(head, n);
    }
  }

  /** Byte offsets and rune indices pick the same slot at every step. */
  predicate SlotsAgree(str: string, timeNow: int) {
    var ds, plain := Digits(Bucket(timeNow)), Plain(str, timeNow);
    ds != [] && SlotsAt(ds, Offsets(plain)) == SlotsAt(ds, Indices(|plain|))
  }

  /** The guard a caller can test: every rune of the text but the last is one byte long. */
  predicate SingleByteBeforeLast(str: string) {
    forall k | 0 <= k < |str| - 1 :: Width(str[k]) == 1
  }

  lemma EncodePanicsExactly(str: string, timeNow: int)
    ensures EncodeSpec(str, timeNow).Panicked? <==> str != "" && timeNow < 1000
    ensures DecodeSpec(str, timeNow).Panicked? <==> str != "" && timeNow < 1000
    ensures str == "" ==> EncodeSpec(str, timeNow) == DecodeSpec(str, timeNow) == Returned("")
  {
  }

  lemma AgreementRoundTrips(str: string, encodedAt: int, decodedAt: int)
    requires str != "" && SlotsAgree(str, encodedAt)
    requires Bucket(decodedAt) == Bucket(encodedAt)
    ensures RoundTrips(str, encodedAt, decodedAt)
  {
    var plain := Plain(str, encodedAt);
    UnshuffleShuffle(plain, SlotsAt(Digits(Bucket(encodedAt)), Offsets(plain)));
    RoundTripsPlain(str, encodedAt, decodedAt);
  }

  lemma {:induction false} DecimalIsSingleByte(t: nat)
    ensures |DecimalOfNat(t)| >= 1
    ensures forall k | 0 <= k < |DecimalOfNat(t)| :: Width(DecimalOfNat(t)[k]) == 1
  {
    if t >= 10 {
      DecimalIsSingleByte(t / 10);
    }
  }

  lemma {:induction false} OffsetIsIndex(text: string, k: nat)
    requires k <= |text| && forall j | 0 <= j < k :: Width(text[j]) == 1
    ensures Offset(text, k) == k
  {
    if k > 0 {
      OffsetIsIndex(text, k - 1);
    }
  }

  lemma SingleByteAgrees(str: string, timeNow: int)
    requires str != "" && timeNow >= 1000 && SingleByteBeforeLast(str)
    ensures SlotsAgree(str, timeNow)
  {
    var plain := Plain(str, timeNow);
    DecimalIsSingleByte(Bucket(timeNow));
    forall k | 0 <= k < |plain|
      ensures Offsets(plain)[k] == k
    {
      OffsetIsIndex(plain, k);
    }
    assert Offsets(plain) == Indices(|plain|);
  }

  /** For every time from 1000 on and every non-empty text whose runes before the last are single bytes,
      decoding at any time of the same bucket gives back the bucket, a bar and the text. */
  lemma RoundTrip(str: string, encodedAt: int, decodedAt: int)
    requires str != "" && encodedAt >= 1000 && SingleByteBeforeLast(str)
    requires Bucket(decodedAt) == Bucket(encodedAt)
    ensures RoundTrips(str, encodedAt, decodedAt)
  {
    SingleByteAgrees(str, encodedAt);
    AgreementRoundTrips(str, encodedAt, decodedAt);
  }
}
