/**
 * The wallet's fee arithmetic: the platform-fee bracket table applied to a
 * spend amount, and the segwit size and miner-fee estimate derived from a
 * node fee-rate quote in SCASH per kilobyte.
 */
module Fees {
  import opened Amounts

  /** One row of the platform-fee table: amounts in [min, max) pay `fee` SCASH. */
  datatype Bracket = Bracket(min: real, max: real, fee: real)

  /** JavaScript `Number.MAX_SAFE_INTEGER`, the upper end of the last bracket. */
  const MaxSafeInteger: real := 9007199254740991.0

  const AppFeeTable: seq<Bracket> := [
    Bracket(0.0, 1.0, 0.0001),
    Bracket(1.0, 10.0, 0.01),
    Bracket(10.0, 50.0, 0.05),
    Bracket(50.0, 100.0, 0.1),
    Bracket(100.0, 500.0, 0.2),
    Bracket(500.0, 1000.0, 0.4),
    Bracket(1000.0, 5000.0, 0.8),
    Bracket(5000.0, 10000.0, 1.0),
    Bracket(10000.0, MaxSafeInteger, 1.3)
  ]

  predicate InBracket(b: Bracket, amount: real) {
    b.min <= amount < b.max
  }

  /**
   * The platform fee as the fee schedule states it, threshold by threshold:
   * nothing below 0 and nothing from MAX_SAFE_INTEGER on.
   */
  function AppFeeSchedule(amount: real): real {
    if amount < 0.0 then 0.0
    else if amount < 1.0 then 0.0001
    else if amount < 10.0 then 0.01
    else if amount < 50.0 then 0.05
    else if amount < 100.0 then 0.1
    else if amount < 500.0 then 0.2
    else if amount < 1000.0 then 0.4
    else if amount < 5000.0 then 0.8
    else if amount < 10000.0 then 1.0
    else if amount < MaxSafeInteger then 1.3
    else 0.0
  }

  /** `calcAppFee`: the fee of the first bracket holding the amount, else 0. */
  method CalcAppFee(amount: real) returns (fee: real)
    ensures fee == AppFeeSchedule(amount)
    ensures (exists i :: 0 <= i < |AppFeeTable| && InBracket(AppFeeTable[i], amount) && fee == AppFeeTable[i].fee)
            || ((forall i :: 0 <= i < |AppFeeTable| ==> !InBracket(AppFeeTable[i], amount)) && fee == 0.0)
  {
    var i := 0;
    while i < |AppFeeTable|
      invariant 0 <= i <= |AppFeeTable|
      invariant forall j :: 0 <= j < i ==> !InBracket(AppFeeTable[j], amount)
      invariant i > 0 ==> amount < 0.0 || amount >= AppFeeTable[i - 1].max
    {
      var item := AppFeeTable[i];
      if item.min <= amount && amount < item.max {
        BracketFeeAgrees(amount, i);
        return item.fee;
      }
      i := i + 1;
    }
    return 0.0;
  }

  /** The brackets start at 0, follow one another without gap or overlap and end at MAX_SAFE_INTEGER. */
  lemma BracketsContiguous()
    ensures AppFeeTable[0].min == 0.0
    ensures AppFeeTable[|AppFeeTable| - 1].max == MaxSafeInteger
    ensures forall i :: 0 <= i < |AppFeeTable| ==> AppFeeTable[i].min < AppFeeTable[i].max
    ensures forall i :: 0 <= i < |AppFeeTable| - 1 ==> AppFeeTable[i].max == AppFeeTable[i + 1].min
  {
  }

  /** The bracket holding an amount, if any, is unique and the schedule charges its fee. */
  lemma BracketFeeAgrees(amount: real, i: int)
    requires 0 <= i < |AppFeeTable| && InBracket(AppFeeTable[i], amount)
    ensures AppFeeSchedule(amount) == AppFeeTable[i].fee
    ensures forall j :: 0 <= j < |AppFeeTable| && InBracket(AppFeeTable[j], amount) ==> j == i
  {
    BracketsContiguous();
    forall j | 0 <= j < |AppFeeTable| && InBracket(AppFeeTable[j], amount)
      ensures j == i
    {
      if j < i {
        BracketsIncreasing(j + 1, i);
      } else if i < j {
        BracketsIncreasing(i + 1, j);
      }
    }
  }

  lemma BracketsIncreasing(i: int, j: int)
    requires 0 < i <= j < |AppFeeTable|
    ensures AppFeeTable[i - 1].max <= AppFeeTable[j].min
  {
    BracketsContiguous();
  }

  /** Negative amounts, and amounts from MAX_SAFE_INTEGER on, lie in no bracket and pay nothing. */
  lemma OutsideBracketsNoFee(amount: real)
    requires amount < 0.0 || amount >= MaxSafeInteger
    ensures forall i :: 0 <= i < |AppFeeTable| ==> !InBracket(AppFeeTable[i], amount)
    ensures AppFeeSchedule(amount) == 0.0
  {
    BracketsContiguous();
  }

  /** Below MAX_SAFE_INTEGER the platform fee never decreases as the amount grows. */
  lemma AppFeeMonotone(a: real, b: real)
    requires a <= b < MaxSafeInteger
    ensures AppFeeSchedule(a) <= AppFeeSchedule(b)
  {
  }

  /** As written, the fee falls from 1.3 to 0 at MAX_SAFE_INTEGER. */
  lemma AppFeeDropsAtMaxSafeInteger()
    ensures AppFeeSchedule(MaxSafeInteger - 1.0) == 1.3
    ensures AppFeeSchedule(MaxSafeInteger) == 0.0
  {
  }

  /** The schedule with the last bracket open-ended, as the fee table is meant: [10000, ∞) pays 1.3. */
  function AppFeeOpenEnded(amount: real): (fee: real)
    ensures amount < MaxSafeInteger ==> fee == AppFeeSchedule(amount)
    ensures amount >= 10000.0 ==> fee == 1.3
  {
    if amount >= MaxSafeInteger then 1.3 else AppFeeSchedule(amount)
  }

  /** With the last bracket open-ended the fee is monotone over all amounts. */
  lemma AppFeeOpenEndedMonotone(a: real, b: real)
    requires a <= b
    ensures AppFeeOpenEnded(a) <= AppFeeOpenEnded(b)
  {
    if b < MaxSafeInteger {
      AppFeeMonotone(a, b);
    }
  }

  /** The size, satoshi fee and SCASH fee of a transaction (`calcFee`). */
  datatype FeeResult = FeeResult(size: int, feeSat: int, feeScash: real)

  /** Fee rate per virtual byte in satoshis, from a rate in SCASH per kilobyte. */
  function SatPerByte(feeratePerKb: real): real {
    feeratePerKb * SatPerScash / 1000.0
  }

  /** Estimated virtual size: 10 bytes of overhead, 68 per P2WPKH input, 31 per output. */
  function VSize(inputCount: nat, outputCount: nat): nat {
    10 + 68 * inputCount + 31 * outputCount
  }

  /** `calcFee`: the fee is the least whole number of satoshis covering size times rate. */
  function CalcFee(inputCount: nat, outputCount: nat, feeratePerKb: real): (r: FeeResult)
    ensures r.size == VSize(inputCount, outputCount)
    ensures r.feeSat as real >= r.size as real * SatPerByte(feeratePerKb)
    ensures (r.feeSat - 1) as real < r.size as real * SatPerByte(feeratePerKb)
    ensures r.feeScash * SatPerScash == r.feeSat as real
  {
    var size := VSize(inputCount, outputCount);
    var feeSat := Ceil(size as real * SatPerByte(feeratePerKb));
    FeeResult(size, feeSat, feeSat as real / SatPerScash)
  }

  /** One input, two outputs at 1 SCASH/kB: 140 vbytes, 14 000 000 satoshis, 0.14 SCASH. */
  lemma CalcFeeExample()
    ensures CalcFee(1, 2, 1.0) == FeeResult(140, 14000000, 0.14)
  {
    assert SatPerByte(1.0) == 100000.0;
    assert 140.0 * SatPerByte(1.0) == 14000000.0;
  }

  /** With a non-negative rate, more inputs or outputs never lower the fee. */
  lemma CalcFeeMonotone(i1: nat, o1: nat, i2: nat, o2: nat, rate: real)
    requires i1 <= i2 && o1 <= o2 && rate >= 0.0
    ensures CalcFee(i1, o1, rate).feeSat <= CalcFee(i2, o2, rate).feeSat
  {
    var s1, s2 := VSize(i1, o1) as real, VSize(i2, o2) as real;
    var spb := SatPerByte(rate);
    assert s1 <= s2;
    assert s1 * spb <= s2 * spb by {
      assert (s2 - s1) * spb >= 0.0;
    }
  }
}
