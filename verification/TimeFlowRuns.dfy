/** What encoding and decoding compute, told without their specification functions (pkg/util/common.go): the runs of
    swaps, with the arithmetic written out. */
module TimeFlowRuns {
  import opened TimeFlow


  /** Digit i of b, the units digit being digit 0. */
  function DigitOf(b: nat, i: nat): nat {
    if i == 0 then b % 10 else DigitOf(b / 10, i - 1)
  }

  lemma {:induction false} DigitsAre(b: nat, i: nat)
    requires i < |Digits(b)|
    ensures Digits(b)[i] == DigitOf(b, i)
  {
    if i > 0 {
      DigitsAre(b / 10, i - 1);
    }
  }

  lemma {:induction false} AsManyDigits(b: nat)
    requires b > 0
    ensures |Digits(b)| == |DecimalOfNat(b)|
  {
    if b >= 10 {
      AsManyDigits(b / 10);
    } else {
      assert Digits(b / 10) == [];
    }
  }

  function ByteLength(text: string): nat {
    if text == "" then 0 else ByteLength(text[..|text| - 1]) + |Utf8(text[|text| - 1] as int)|
  }

  lemma {:induction false} OffsetIsByteLength(text: string, k: nat)
    requires k <= |text|
    ensures Offset(text, k) == ByteLength(text[..k])
  {
    if k > 0 {
      OffsetIsByteLength(text, k - 1);
      assert text[..k][..k - 1] == text[..k - 1];
      WidthIsUtf8(text[k - 1]);
    }
  }

  /** For every rune of the text the bytes in front of it. */
  function BytesBefore(text: string): seq<nat> {
    seq(|text|, k requires 0 <= k < |text| => ByteLength(text[..k]))
  }

  /** For every rune of the text the runes in front of it. */
  function RunesBefore(text: string): seq<nat> {
    seq(|text|, k requires 0 <= k < |text| => k)
  }

  /** The position step k exchanges with the last one, for a rune whose number is `at`: with i = k mod m and d digit
      i of the bucket, |at + d * i| at odd steps and |2 * i * d - at| at even ones, modulo k + 1. */
  function Position(b: nat, m: nat, k: nat, at: nat): nat
    requires m > 0
  {
    var i := k % m;
    var raw := if k % 2 == 1 then at + DigitOf(b, i) * i else 2 * i * DigitOf(b, i) - at;
    (if raw < 0 then -raw else raw) % (k + 1)
  }

  lemma SlotIsPosition(b: nat, k: nat, at: nat)
    requires b > 0
    ensures Slot(Digits(b), k, at) == Position(b, |Digits(b)|, k, at)
  {
    StartFromTheEnd(k, |Digits(b)|);
    DigitsAre(b, k % |Digits(b)|);
  }

  /** The list after the first k runes of the text were appended, each exchanged with the rune at its position. */
  predicate SwapRun(text: string, b: nat, m: nat, ats: seq<nat>, lists: seq<string>)
    requires m > 0
  {
    && |ats| == |text| && |lists| == |text| + 1 && lists[0] == ""
    && forall k | 0 <= k < |text| :: Exchanged(lists[k], text[k], Position(b, m, k, ats[k]), lists[k + 1])
  }

  /** The rune is appended and exchanged with position q. */
  predicate Exchanged(before: string, c: char, q: nat, after: string) {
    && q <= |before| && |after| == |before| + 1 && after[q] == c
    && (q < |before| ==> after[|before|] == before[q])
    && forall j | 0 <= j < |before| && j != q :: after[j] == before[j]
  }

  lemma {:induction false} ShuffleRuns(text: string, b: nat, ats: seq<nat>) returns (lists: seq<string>)
    requires b > 0 && |ats| == |text|
    ensures SwapRun(text, b, |Digits(b)|, ats, lists) && lists[|text|] == Shuffle(text, SlotsAt(Digits(b), ats))
  {
    if text == "" {
      lists := [""];
    } else {
      var n := |text| - 1;
      var earlier := ShuffleRuns(text[..n], b, ats[..n]);
      lists := earlier + [Shuffle(text, SlotsAt(Digits(b), ats))];
      LastExchange(text, b, ats, earlier[n]);
      RunGrows(text, b, ats, earlier, lists);
    }
  }

  lemma LastExchange(text: string, b: nat, ats: seq<nat>, before: string)
    requires b > 0 && |ats| == |text| > 0
    requires before == Shuffle(text[..|text| - 1], SlotsAt(Digits(b), ats[..|text| - 1]))
    ensures var n := |text| - 1;
            Exchanged(before, text[n], Position(b, |Digits(b)|, n, ats[n]), Shuffle(text, SlotsAt(Digits(b), ats)))
  {
    var n := |text| - 1;
    assert ats[..n + 1] == ats && text[..n + 1] == text;
    ShuffleStep(text, SlotsAt(Digits(b), ats), Digits(b), ats, n);
    SlotIsPosition(b, n, ats[n]);
    SwapExchanges(before, text[n], Slot(Digits(b), n, ats[n]));
  }

  lemma SwapExchanges(before: string, c: char, q: nat)
    requires q <= |before|
    ensures Exchanged(before, c, q, Swap(before + [c], q, |before|))
  {
  }

  lemma RunGrows(text: string, b: nat, ats: seq<nat>, earlier: seq<string>, lists: seq<string>)
    requires b > 0 && |ats| == |text| > 0 && |lists| == |text| + 1
    requires var n := |text| - 1;
             && SwapRun(text[..n], b, |Digits(b)|, ats[..n], earlier) && lists[..n + 1] == earlier
             && Exchanged(earlier[n], text[n], Position(b, |Digits(b)|, n, ats[n]), lists[n + 1])
    ensures SwapRun(text, b, |Digits(b)|, ats, lists)
  {
    var n := |text| - 1;
    assert lists[0] == lists[..n + 1][0];
    forall k | 0 <= k < |text|
      ensures Exchanged(lists[k], text[k], Position(b, |Digits(b)|, k, ats[k]), lists[k + 1])
    {
      assert lists[k] == lists[..n + 1][k];
      if k < n {
        assert lists[k + 1] == lists[..n + 1][k + 1] && text[..n][k] == text[k] && ats[..n][k] == ats[k];
      }
    }
  }

  /** Encoding, at any time from 1000 on: the decimal number of the bucket, a bar and the text are put together and
      run through the swaps, each rune numbered by the bytes in front of it. */
  lemma EncodeRuns(str: string, timeNow: int) returns (head: string, lists: seq<string>)
    requires str != "" && timeNow >= 1000
    ensures IsDecimalOf(head, timeNow / 1000)
    ensures var plain := head + "|" + str;
            && SwapRun(plain, timeNow / 1000, |head|, BytesBefore(plain), lists)
            && EncodeSpec(str, timeNow) == Returned(lists[|plain|])
  {
    var b := timeNow / 1000;
    head := DecimalOfNat(b);
    var plain := head + "|" + str;
    DecimalReads(b);
    AsManyDigits(b);
    assert Offsets(plain) == BytesBefore(plain) by {
      forall k | 0 <= k < |plain|
        ensures Offsets(plain)[k] == BytesBefore(plain)[k]
      {
        OffsetIsByteLength(plain, k);
      }
    }
    lists := ShuffleRuns(plain, b, BytesBefore(plain));
    assert Plain(str, timeNow) == plain;
  }

  /** Decoding, at any time from 1000 on: the text that the same swaps, each rune numbered by the runes in front of it,
      take to the code. */
  lemma DecodeRuns(code: string, timeNow: int) returns (text: string, lists: seq<string>)
    requires code != "" && timeNow >= 1000
    ensures DecodeSpec(code, timeNow) == Returned(text) && |text| == |code|
    ensures exists head :: IsDecimalOf(head, timeNow / 1000)
                           && SwapRun(text, timeNow / 1000, |head|, RunesBefore(text), lists) && lists[|text|] == code
  {
    var b := timeNow / 1000;
    var ds := Digits(b);
    text := Unshuffle(code, SlotsAt(ds, Indices(|code|)));
    ShuffleUnshuffle(code, SlotsAt(ds, Indices(|code|)));
    AsManyDigits(b);
    lists := ShuffleRuns(text, b, Indices(|text|));
    assert Indices(|text|) == RunesBefore(text);
    DecimalReads(b);
  }
}
