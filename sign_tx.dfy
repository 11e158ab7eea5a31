/**
 * Transaction assembly and signing (`signTransaction`): one input per
 * selected unspent output, the caller's outputs, an optional platform-fee
 * output and an optional change output, then every input signed and the
 * transaction finalised and serialised.  The PSBT is an object the
 * assembler updates in place; key derivation, signature creation,
 * finalisation and serialisation are the `SigningBackend` oracle.
 */
module SignTx {
  import opened Wrappers
  import opened Amounts
  import opened WalletTypes
  import Const

  datatype PsbtInput = PsbtInput(hash: string, index: nat, script: string, value: int)

  datatype PsbtOutput = PsbtOutput(address: string, value: int)

  /**
   * The signing key and PSBT library as seen by the assembler: whether the
   * library accepts an input or an output (it throws otherwise, for instance
   * on an invalid address), whether signing input `i` succeeds (or throws),
   * whether finalising succeeds, whether the signed transaction can be
   * extracted (extraction throws, for instance, when the outputs exceed the
   * inputs or the fee rate is implausibly high), and the hex serialisation of
   * the finished transaction.
   */
  datatype SigningBackend = SigningBackend(
    acceptsInput: PsbtInput -> bool,
    acceptsOutput: PsbtOutput -> bool,
    signInput: nat -> bool,
    finalizes: bool,
    extracts: (seq<PsbtInput>, seq<PsbtOutput>) -> bool,
    toHex: (seq<PsbtInput>, seq<PsbtOutput>) -> string)

  /** Whether `accepts` holds of every element of `xs`. */
  predicate AllAccepted<T>(accepts: T -> bool, xs: seq<T>) {
    forall i :: 0 <= i < |xs| ==> accepts(xs[i])
  }

  /** The length of the longest prefix of `xs` whose every element `accepts` holds of. */
  function AcceptedPrefix<T>(accepts: T -> bool, xs: seq<T>): (k: nat)
    ensures k <= |xs|
    ensures AllAccepted(accepts, xs[..k])
    ensures k < |xs| ==> !accepts(xs[k])
    ensures k == |xs| <==> AllAccepted(accepts, xs)
  {
    if xs == [] || !accepts(xs[0]) then 0
    else
      var k := AcceptedPrefix(accepts, xs[1..]);
      assert forall i :: 0 < i <= k ==> xs[1..][i - 1] == xs[i];
      assert xs[..1 + k] == [xs[0]] + xs[1..][..k];
      1 + k
  }

  /** The accepted prefix is pinned down by an accepted prefix followed by a rejected element (or the end). */
  lemma {:induction false} AcceptedPrefixAt<T>(accepts: T -> bool, xs: seq<T>, i: nat)
    requires i <= |xs| && AllAccepted(accepts, xs[..i])
    requires i < |xs| ==> !accepts(xs[i])
    ensures AcceptedPrefix(accepts, xs) == i
  {
    if i > 0 {
      assert accepts(xs[..i][0]);
      assert xs[1..][..i - 1] == xs[..i][1..];
      AcceptedPrefixAt(accepts, xs[1..], i - 1);
    } else if xs != [] {
      assert !accepts(xs[0]);
    }
  }

  lemma AllAcceptedAppend<T>(accepts: T -> bool, a: seq<T>, b: seq<T>)
    ensures AllAccepted(accepts, a + b) <==> AllAccepted(accepts, a) && AllAccepted(accepts, b)
  {
    if AllAccepted(accepts, a) && AllAccepted(accepts, b) {
      forall i | 0 <= i < |a + b| ensures accepts((a + b)[i]) {
        if i >= |a| { assert (a + b)[i] == b[i - |a|]; }
      }
    }
    if AllAccepted(accepts, a + b) {
      forall i | 0 <= i < |b| ensures accepts(b[i]) { assert (a + b)[|a| + i] == b[i]; }
      forall i | 0 <= i < |a| ensures accepts(a[i]) { assert (a + b)[i] == a[i]; }
    }
  }

  /** A partially signed transaction under construction. */
  class Psbt {
    var inputs: seq<PsbtInput>
    var outputs: seq<PsbtOutput>
    var signedInputs: seq<nat>
    var finalized: bool

    constructor ()
      ensures inputs == [] && outputs == [] && signedInputs == [] && !finalized
    {
      inputs, outputs, signedInputs, finalized := [], [], [], false;
    }

    /** Adds `input`; `ok` is false when the library throws, and then nothing is added. */
    method AddInput(input: PsbtInput, backend: SigningBackend) returns (ok: bool)
      modifies this
      ensures ok == backend.acceptsInput(input)
      ensures inputs == if ok then old(inputs) + [input] else old(inputs)
      ensures outputs == old(outputs) && signedInputs == old(signedInputs) && finalized == old(finalized)
    {
      ok := backend.acceptsInput(input);
      if ok {
        inputs := inputs + [input];
      }
    }

    /** Adds `output`; `ok` is false when the library throws, and then nothing is added. */
    method AddOutput(output: PsbtOutput, backend: SigningBackend) returns (ok: bool)
      modifies this
      ensures ok == backend.acceptsOutput(output)
      ensures outputs == if ok then old(outputs) + [output] else old(outputs)
      ensures inputs == old(inputs) && signedInputs == old(signedInputs) && finalized == old(finalized)
    {
      ok := backend.acceptsOutput(output);
      if ok {
        outputs := outputs + [output];
      }
    }

    /** Signs input `idx`; `ok` is false when the signer throws. */
    method SignInput(idx: nat, backend: SigningBackend) returns (ok: bool)
      modifies this
      ensures ok == backend.signInput(idx)
      ensures signedInputs == if ok then old(signedInputs) + [idx] else old(signedInputs)
      ensures inputs == old(inputs) && outputs == old(outputs) && finalized == old(finalized)
    {
      ok := backend.signInput(idx);
      if ok {
        signedInputs := signedInputs + [idx];
      }
    }

    /** Finalises every input; `ok` is false when finalising throws. */
    method FinalizeAllInputs(backend: SigningBackend) returns (ok: bool)
      modifies this
      ensures ok == backend.finalizes && finalized == ok
      ensures inputs == old(inputs) && outputs == old(outputs) && signedInputs == old(signedInputs)
    {
      ok := backend.finalizes;
      finalized := ok;
    }
  }

  /** What `signTransaction` returns; amounts are in whole SCASH. */
  datatype SignResult = SignResult(
    isSuccess: bool,
    rawtx: string,
    totalInput: real,
    totalOutput: real,
    change: real,
    feeRate: real,
    appFee: real)

  function SumUnspent(utxos: seq<Unspent>): real {
    if utxos == [] then 0.0 else utxos[0].amount + SumUnspent(utxos[1..])
  }

  function SumSend(items: seq<SendItem>): real {
    if items == [] then 0.0 else items[0].amount + SumSend(items[1..])
  }

  function SumInputValues(ins: seq<PsbtInput>): int {
    if ins == [] then 0 else ins[0].value + SumInputValues(ins[1..])
  }

  function SumOutputValues(outs: seq<PsbtOutput>): int {
    if outs == [] then 0 else outs[0].value + SumOutputValues(outs[1..])
  }

  function InputFor(u: Unspent): PsbtInput {
    PsbtInput(u.txid, u.vout, u.scriptPubKey, ScashToSat(u.amount))
  }

  function OutputFor(item: SendItem): PsbtOutput {
    PsbtOutput(item.address, ScashToSat(item.amount))
  }

  /** The inputs the assembler adds: one per unspent output, in the given order. */
  function TxInputs(utxos: seq<Unspent>): (ins: seq<PsbtInput>)
    ensures |ins| == |utxos|
  {
    seq(|utxos|, i requires 0 <= i < |utxos| => InputFor(utxos[i]))
  }

  function PaymentOutputs(items: seq<SendItem>): (outs: seq<PsbtOutput>)
    ensures |outs| == |items|
  {
    seq(|items|, i requires 0 <= i < |items| => OutputFor(items[i]))
  }

  /** Input i spends unspent output i at its satoshi value; payment output i pays line i. */
  lemma OnePerItem(utxos: seq<Unspent>, items: seq<SendItem>)
    ensures forall i :: 0 <= i < |utxos| ==>
      TxInputs(utxos)[i] == PsbtInput(utxos[i].txid, utxos[i].vout, utxos[i].scriptPubKey, ScashToSat(utxos[i].amount))
    ensures forall i :: 0 <= i < |items| ==>
      PaymentOutputs(items)[i] == PsbtOutput(items[i].address, ScashToSat(items[i].amount))
  {
  }

  /** The change left for the wallet: inputs minus the caller's outputs minus the fee passed in. */
  function Change(utxos: seq<Unspent>, items: seq<SendItem>, feeRate: real): (c: real)
    ensures SumUnspent(utxos) == SumSend(items) + feeRate + c
    ensures c > 0.0 <==> SumUnspent(utxos) > SumSend(items) + feeRate
  {
    SumUnspent(utxos) - SumSend(items) - feeRate
  }

  /** The outputs in the order they are added: payments, platform fee if charged, change if positive. */
  function TxOutputs(items: seq<SendItem>, appFee: real, feeAddress: string, myAddress: string, change: real)
    : (outs: seq<PsbtOutput>)
    ensures |outs| == |items| + (if appFee != 0.0 then 1 else 0) + (if change > 0.0 then 1 else 0)
    ensures forall i :: 0 <= i < |items| ==> outs[i] == PsbtOutput(items[i].address, ScashToSat(items[i].amount))
    ensures appFee != 0.0 ==> outs[|items|] == PsbtOutput(feeAddress, ScashToSat(appFee))
    ensures change > 0.0 ==> outs[|outs| - 1] == PsbtOutput(myAddress, ScashToSat(change))
  {
    PaymentOutputs(items) + ExtraOutputs(appFee, feeAddress, myAddress, change)
  }

  /** The platform-fee output, when a fee is charged, then the change output, when there is change. */
  function ExtraOutputs(appFee: real, feeAddress: string, myAddress: string, change: real): seq<PsbtOutput> {
    (if appFee != 0.0 then [PsbtOutput(feeAddress, ScashToSat(appFee))] else [])
    + (if change > 0.0 then [PsbtOutput(myAddress, ScashToSat(change))] else [])
  }

  /** The miner's share the source computes (`networkFee`): the fee passed in less the platform fee. */
  function NetworkFee(feeRate: real, appFee: real): (fee: real)
    ensures fee == feeRate - appFee
  {
    if appFee != 0.0 then feeRate - appFee else feeRate
  }

  /** Every input signs and finalising succeeds. */
  predicate SigningSucceeds(backend: SigningBackend, inputCount: nat) {
    (forall i | 0 <= i < inputCount :: backend.signInput(i)) && backend.finalizes
  }

  /** The result `signTransaction` returns, as a function of its arguments. */
  function SignOutcome(utxos: seq<Unspent>, items: seq<SendItem>, feeRate: real, myAddress: string,
                       backend: SigningBackend, appFee: real, network: Option<string>): (res: SignResult)
    ensures res.totalInput == SumUnspent(utxos) && res.totalOutput == SumSend(items)
    ensures res.totalInput == res.totalOutput + res.change + res.feeRate
    ensures res.feeRate == feeRate && res.appFee == appFee
    ensures res.isSuccess <==> SigningSucceeds(backend, |utxos|)
    ensures !res.isSuccess ==> res.rawtx == ""
    ensures res.isSuccess ==> res.rawtx == backend.toHex(TxInputs(utxos),
              TxOutputs(items, appFee, Const.GetArrFeeAddress(network), myAddress, res.change))
  {
    var change := Change(utxos, items, feeRate);
    if SigningSucceeds(backend, |utxos|) then
      var outputs := TxOutputs(items, appFee, Const.GetArrFeeAddress(network), myAddress, change);
      SignResult(true, backend.toHex(TxInputs(utxos), outputs), SumUnspent(utxos), SumSend(items), change, feeRate, appFee)
    else
      SignResult(false, "", SumUnspent(utxos), SumSend(items), change, feeRate, appFee)
  }

  /** Whether the library accepts every input and every output while the transaction is assembled. */
  predicate Assembles(backend: SigningBackend, ins: seq<PsbtInput>, outs: seq<PsbtOutput>) {
    AllAccepted(backend.acceptsInput, ins) && AllAccepted(backend.acceptsOutput, outs)
  }

  /** A call of `signTransaction` either returns its result or throws. */
  datatype SignCall = Returned(result: SignResult) | Threw

  /**
   * What a call of `signTransaction` does: the assembly and the extraction of
   * the signed transaction are outside its `try`, so a rejected input or
   * output, or a failed extraction after successful signing, makes the call
   * throw; otherwise it returns `SignOutcome`.
   */
  function SignCallOf(utxos: seq<Unspent>, items: seq<SendItem>, feeRate: real, myAddress: string,
                      backend: SigningBackend, appFee: real, network: Option<string>): (c: SignCall)
    ensures var outs := TxOutputs(items, appFee, Const.GetArrFeeAddress(network), myAddress,
                                  Change(utxos, items, feeRate));
      c.Threw? <==> !Assembles(backend, TxInputs(utxos), outs)
                    || (SigningSucceeds(backend, |utxos|) && !backend.extracts(TxInputs(utxos), outs))
    ensures c.Returned? ==> c.result == SignOutcome(utxos, items, feeRate, myAddress, backend, appFee, network)
  {
    var outs := TxOutputs(items, appFee, Const.GetArrFeeAddress(network), myAddress, Change(utxos, items, feeRate));
    if !Assembles(backend, TxInputs(utxos), outs) then Threw
    else if SigningSucceeds(backend, |utxos|) && !backend.extracts(TxInputs(utxos), outs) then Threw
    else Returned(SignOutcome(utxos, items, feeRate, myAddress, backend, appFee, network))
  }

  /**
   * The input loop of `signTransaction`: one input per unspent output, in
   * order, stopping at the first input the library rejects.
   */
  method AddInputs(psbt: Psbt, utxos: seq<Unspent>, backend: SigningBackend) returns (ok: bool)
    modifies psbt
    ensures ok <==> AllAccepted(backend.acceptsInput, TxInputs(utxos))
    ensures psbt.inputs == old(psbt.inputs) + TxInputs(utxos)[..AcceptedPrefix(backend.acceptsInput, TxInputs(utxos))]
    ensures psbt.outputs == old(psbt.outputs) && psbt.signedInputs == old(psbt.signedInputs)
    ensures psbt.finalized == old(psbt.finalized)
  {
    var ins := TxInputs(utxos);
    for i := 0 to |utxos|
      invariant AllAccepted(backend.acceptsInput, ins[..i])
      invariant psbt.inputs == old(psbt.inputs) + ins[..i]
      invariant psbt.outputs == old(psbt.outputs) && psbt.signedInputs == old(psbt.signedInputs)
      invariant psbt.finalized == old(psbt.finalized)
    {
      ok := psbt.AddInput(InputFor(utxos[i]), backend);
      if !ok {
        AcceptedPrefixAt(backend.acceptsInput, ins, i);
        return;
      }
      assert ins[..i + 1] == ins[..i] + [ins[i]];
    }
    assert ins[..|utxos|] == ins;
    ok := true;
  }

  /**
   * The payment loop of `signTransaction`: one output per payment line, in
   * order, stopping at the first output the library rejects.
   */
  method AddPayments(psbt: Psbt, items: seq<SendItem>, backend: SigningBackend) returns (ok: bool)
    modifies psbt
    ensures ok <==> AllAccepted(backend.acceptsOutput, PaymentOutputs(items))
    ensures psbt.outputs
      == old(psbt.outputs) + PaymentOutputs(items)[..AcceptedPrefix(backend.acceptsOutput, PaymentOutputs(items))]
    ensures psbt.inputs == old(psbt.inputs) && psbt.signedInputs == old(psbt.signedInputs)
    ensures psbt.finalized == old(psbt.finalized)
  {
    var outs := PaymentOutputs(items);
    for j := 0 to |items|
      invariant AllAccepted(backend.acceptsOutput, outs[..j])
      invariant psbt.outputs == old(psbt.outputs) + outs[..j]
      invariant psbt.inputs == old(psbt.inputs) && psbt.signedInputs == old(psbt.signedInputs)
      invariant psbt.finalized == old(psbt.finalized)
    {
      ok := psbt.AddOutput(OutputFor(items[j]), backend);
      if !ok {
        AcceptedPrefixAt(backend.acceptsOutput, outs, j);
        return;
      }
      assert outs[..j + 1] == outs[..j] + [outs[j]];
    }
    assert outs[..|items|] == outs;
    ok := true;
  }

  /**
   * The outputs `signTransaction` adds after the payments, stopping at the
   * first the library rejects.
   */
  method AddExtras(psbt: Psbt, backend: SigningBackend, appFee: real, feeAddress: string, myAddress: string,
                   change: real) returns (ok: bool)
    modifies psbt
    ensures ok <==> AllAccepted(backend.acceptsOutput, ExtraOutputs(appFee, feeAddress, myAddress, change))
    ensures old(psbt.outputs) <= psbt.outputs <= old(psbt.outputs) + ExtraOutputs(appFee, feeAddress, myAddress, change)
    ensures ok ==> psbt.outputs == old(psbt.outputs) + ExtraOutputs(appFee, feeAddress, myAddress, change)
    ensures psbt.inputs == old(psbt.inputs) && psbt.signedInputs == old(psbt.signedInputs)
    ensures psbt.finalized == old(psbt.finalized)
  {
    var extras := ExtraOutputs(appFee, feeAddress, myAddress, change);
    ok := true;
    if appFee != 0.0 {
      ok := psbt.AddOutput(extras[0], backend);
      if !ok {
        return;
      }
      assert psbt.outputs == old(psbt.outputs) + extras[..1];
    }
    if change > 0.0 {
      var last := PsbtOutput(myAddress, ScashToSat(change));
      assert extras[|extras| - 1] == last;
      ok := psbt.AddOutput(last, backend);
      if !ok {
        assert psbt.outputs == old(psbt.outputs) + extras[..|extras| - 1];
        return;
      }
    }
    assert psbt.outputs == old(psbt.outputs) + extras;
  }

  /**
   * The assembly part of `signTransaction`: the inputs, the payments, the
   * platform-fee output and the change output; `ok` is false when the library
   * throws, and then the PSBT holds a prefix of each.
   */
  method Assemble(psbt: Psbt, utxos: seq<Unspent>, items: seq<SendItem>, backend: SigningBackend, appFee: real,
                  feeAddress: string, myAddress: string, change: real) returns (ok: bool)
    modifies psbt
    requires psbt.inputs == [] && psbt.outputs == []
    ensures ok <==> Assembles(backend, TxInputs(utxos), TxOutputs(items, appFee, feeAddress, myAddress, change))
    ensures psbt.inputs <= TxInputs(utxos) && psbt.outputs <= TxOutputs(items, appFee, feeAddress, myAddress, change)
    ensures ok ==> psbt.inputs == TxInputs(utxos)
                   && psbt.outputs == TxOutputs(items, appFee, feeAddress, myAddress, change)
    ensures psbt.signedInputs == old(psbt.signedInputs) && psbt.finalized == old(psbt.finalized)
  {
    var payments := PaymentOutputs(items);
    var extras := ExtraOutputs(appFee, feeAddress, myAddress, change);
    AllAcceptedAppend(backend.acceptsOutput, payments, extras);
    ok := AddInputs(psbt, utxos, backend);
    if !ok {
      return;
    }
    assert TxInputs(utxos)[..|utxos|] == TxInputs(utxos);
    ok := AddPayments(psbt, items, backend);
    if !ok {
      return;
    }
    assert payments[..|items|] == payments;
    ok := AddExtras(psbt, backend, appFee, feeAddress, myAddress, change);
  }

  /** The signing loop of `signTransaction`: inputs 0, 1, ... signed in order, stopping at the first failure. */
  method SignAll(psbt: Psbt, backend: SigningBackend, count: nat) returns (ok: bool)
    modifies psbt
    requires psbt.signedInputs == []
    ensures ok <==> forall k | 0 <= k < count :: backend.signInput(k)
    ensures ok ==> psbt.signedInputs == seq(count, k => k)
    ensures psbt.inputs == old(psbt.inputs) && psbt.outputs == old(psbt.outputs)
    ensures psbt.finalized == old(psbt.finalized)
  {
    for idx := 0 to count
      invariant forall k :: 0 <= k < idx ==> backend.signInput(k)
      invariant psbt.signedInputs == seq(idx, k => k)
      invariant psbt.inputs == old(psbt.inputs) && psbt.outputs == old(psbt.outputs)
      invariant psbt.finalized == old(psbt.finalized)
    {
      ok := psbt.SignInput(idx, backend);
      if !ok {
        return;
      }
    }
    ok := true;
  }

  /**
   * `signTransaction`: builds the PSBT input by input and output by output,
   * then signs each input, finalises and extracts the transaction.
   */
  method SignTransaction(utxos: seq<Unspent>, items: seq<SendItem>, feeRate: real, myAddress: string,
                         backend: SigningBackend, appFee: real, network: Option<string>)
    returns (call: SignCall, psbt: Psbt)
    ensures call == SignCallOf(utxos, items, feeRate, myAddress, backend, appFee, network)
    ensures call.Returned? ==>
      && psbt.inputs == TxInputs(utxos)
      && psbt.outputs == TxOutputs(items, appFee, Const.GetArrFeeAddress(network), myAddress,
                                   Change(utxos, items, feeRate))
    ensures call.Returned? && call.result.isSuccess ==> psbt.finalized && psbt.signedInputs == seq(|utxos|, i => i)
  {
    var networkFee := NetworkFee(feeRate, appFee);
    var totalInput := SumUnspent(utxos);
    var totalOutput := SumSend(items);
    var feeAddress := Const.GetArrFeeAddress(network);
    var change := totalInput - totalOutput - feeRate;

    psbt := new Psbt();
    var assembled := Assemble(psbt, utxos, items, backend, appFee, feeAddress, myAddress, change);
    if !assembled {
      call := Threw;
      return;
    }

    var signed := SignAll(psbt, backend, |utxos|);
    if !signed {
      call := Returned(SignResult(false, "", totalInput, totalOutput, change, feeRate, appFee));
      return;
    }
    var finalized := psbt.FinalizeAllInputs(backend);
    if !finalized {
      call := Returned(SignResult(false, "", totalInput, totalOutput, change, feeRate, appFee));
      return;
    }

    if !backend.extracts(psbt.inputs, psbt.outputs) {
      call := Threw;
      return;
    }
    var rawtx := backend.toHex(psbt.inputs, psbt.outputs);
    call := Returned(SignResult(true, rawtx, totalInput, totalOutput, change, feeRate, appFee));
  }

  /**
   * The layout of the outputs: the payments in order, then the platform-fee
   * output exactly when a fee is charged, then the change output exactly when
   * change is positive, and nothing else.
   */
  predicate WholeSatoshis(utxos: seq<Unspent>, items: seq<SendItem>) {
    && (forall i :: 0 <= i < |utxos| ==> HasAtMost8Decimals(utxos[i].amount))
    && (forall i :: 0 <= i < |items| ==> HasAtMost8Decimals(items[i].amount))
  }

  /** The satoshi values of the inputs add up to the SCASH total converted once. */
  lemma {:induction false} InputValuesSum(utxos: seq<Unspent>)
    requires forall i :: 0 <= i < |utxos| ==> HasAtMost8Decimals(utxos[i].amount)
    ensures HasAtMost8Decimals(SumUnspent(utxos))
    ensures SumInputValues(TxInputs(utxos)) == ScashToSat(SumUnspent(utxos))
  {
    if utxos != [] {
      InputValuesSum(utxos[1..]);
      assert TxInputs(utxos)[1..] == TxInputs(utxos[1..]);
      ScashToSatAdditive(utxos[0].amount, SumUnspent(utxos[1..]));
      assert HasAtMost8Decimals(0.0) by { assert 0.0 * SatPerScash == 0.0; }
    } else {
      assert 0.0 * SatPerScash == 0.0;
    }
  }

  /** The satoshi values of the payment outputs add up to the SCASH total converted once. */
  lemma {:induction false} PaymentValuesSum(items: seq<SendItem>)
    requires forall i :: 0 <= i < |items| ==> HasAtMost8Decimals(items[i].amount)
    ensures HasAtMost8Decimals(SumSend(items))
    ensures SumOutputValues(PaymentOutputs(items)) == ScashToSat(SumSend(items))
  {
    if items != [] {
      PaymentValuesSum(items[1..]);
      assert PaymentOutputs(items)[1..] == PaymentOutputs(items[1..]);
      ScashToSatAdditive(items[0].amount, SumSend(items[1..]));
    } else {
      assert 0.0 * SatPerScash == 0.0;
    }
  }

  lemma {:induction false} SumOutputValuesAppend(a: seq<PsbtOutput>, b: seq<PsbtOutput>)
    ensures SumOutputValues(a + b) == SumOutputValues(a) + SumOutputValues(b)
  {
    if a != [] {
      assert (a + b)[1..] == a[1..] + b;
      SumOutputValuesAppend(a[1..], b);
    } else {
      assert a + b == b;
    }
  }

  /**
   * The fee the miner collects (inputs minus all outputs, in satoshis) is the
   * network fee `feeRate - appFee` when there is change, and falls short of it
   * by the missing change otherwise.
   */
  lemma MinerFee(utxos: seq<Unspent>, items: seq<SendItem>, feeRate: real, appFee: real,
                 feeAddress: string, myAddress: string)
    requires WholeSatoshis(utxos, items) && HasAtMost8Decimals(feeRate) && HasAtMost8Decimals(appFee)
    ensures var change := Change(utxos, items, feeRate);
      SumInputValues(TxInputs(utxos))
        - SumOutputValues(TxOutputs(items, appFee, feeAddress, myAddress, change))
      == ScashToSat(NetworkFee(feeRate, appFee)) + (if change > 0.0 then 0 else ScashToSat(change))
  {
    var change := Change(utxos, items, feeRate);
    var feeOut := if appFee != 0.0 then [PsbtOutput(feeAddress, ScashToSat(appFee))] else [];
    var changeOut := if change > 0.0 then [PsbtOutput(myAddress, ScashToSat(change))] else [];
    InputValuesSum(utxos);
    PaymentValuesSum(items);
    assert ExtraOutputs(appFee, feeAddress, myAddress, change) == feeOut + changeOut;
    SumOutputValuesAppend(PaymentOutputs(items), feeOut + changeOut);
    SumOutputValuesAppend(feeOut, changeOut);
    var ti, to := SumUnspent(utxos), SumSend(items);
    ScashToSatAdditive(ti, to);
    ScashToSatAdditive(ti - to, feeRate);
    ScashToSatAdditive(feeRate, appFee);
    assert SumOutputValues(feeOut) == (if appFee != 0.0 then ScashToSat(appFee) else 0);
    assert SumOutputValues(changeOut) == (if change > 0.0 then ScashToSat(change) else 0);
    assert ScashToSat(change) == ScashToSat(ti) - ScashToSat(to) - ScashToSat(feeRate);
    if appFee == 0.0 {
      assert ScashToSat(appFee) == 0 by { assert appFee * SatPerScash == 0.0; }
    }
  }
}
