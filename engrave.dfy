/**
 * The engrave screen: a text is turned into DAP outputs by the codec, the
 * fees are totalled, unspent outputs are picked to cover them, and on
 * confirmation the wallet is opened, the transaction signed and broadcast,
 * and a pending entry recorded.  React state becomes the fields of
 * `EngraveScreen`; each effect and handler is a method.
 */
module Engrave {
  import opened Wrappers
  import opened JsString
  import opened Amounts
  import opened WalletTypes
  import Fees
  import Vault
  import SignTx

  datatype EngraveStep = Form | Confirm | Success

  /** An output the DAP codec produces: an address and a value in satoshis. */
  datatype DapOutput = DapOutput(address: string, value: int)

  /** The encoded message: the outputs with amounts in SCASH, their total, and their count. */
  datatype DapInfo = DapInfo(outputs: seq<SendItem>, dapAmount: real, chunkCount: nat)

  /** What broadcasting yields: a thrown request, an RPC error, or the node's answer (`txid` may be empty). */
  datatype BroadcastOutcome = BroadcastThrows | BroadcastError(code: int, message: string) | BroadcastOk(txid: string)

  /** The platform fee charged for engraving, in SCASH. */
  const EngraveAppFee: real := 0.05

  function SumValues(outputs: seq<DapOutput>): int {
    if outputs == [] then 0 else SumValues(outputs[..|outputs| - 1]) + outputs[|outputs| - 1].value
  }

  function SumAmounts(items: seq<SendItem>): real {
    if items == [] then 0.0 else SumAmounts(items[..|items| - 1]) + items[|items| - 1].amount
  }

  function ToSendItem(o: DapOutput): SendItem {
    SendItem(o.address, o.value as real / SatPerScash)
  }

  /** The DAP summary built from the codec's outputs. */
  function MakeDapInfo(outputs: seq<DapOutput>): (d: DapInfo)
    ensures d.chunkCount == |outputs| == |d.outputs|
    ensures forall i :: 0 <= i < |outputs| ==>
      d.outputs[i].address == outputs[i].address && d.outputs[i].amount * SatPerScash == outputs[i].value as real
    ensures d.dapAmount * SatPerScash == SumValues(outputs) as real
  {
    DapInfo(seq(|outputs|, i requires 0 <= i < |outputs| => ToSendItem(outputs[i])),
            SumValues(outputs) as real / SatPerScash, |outputs|)
  }

  /** The total of the displayed output amounts is the DAP amount. */
  lemma {:induction false} DapAmountIsSumOfOutputs(outputs: seq<DapOutput>)
    ensures SumAmounts(MakeDapInfo(outputs).outputs) == MakeDapInfo(outputs).dapAmount
  {
    if outputs != [] {
      var init := outputs[..|outputs| - 1];
      DapAmountIsSumOfOutputs(init);
      assert MakeDapInfo(outputs).outputs[..|outputs| - 1] == MakeDapInfo(init).outputs;
    }
  }

  /** The network fee for `inputCount` inputs and the DAP outputs plus platform-fee and change outputs. */
  function EngraveNetworkFee(dap: DapInfo, inputCount: nat, baseFee: real): (fee: real)
    ensures fee * SatPerScash == Fees.CalcFee(inputCount, |dap.outputs| + 2, baseFee).feeSat as real
  {
    Fees.CalcFee(inputCount, |dap.outputs| + 2, baseFee).feeScash
  }

  function Eligible(u: Unspent): bool {
    !u.isHasMemPool && u.isUsable
  }

  /** The unspent outputs the selection may use, in the given order. */
  function EligibleOf(us: seq<Unspent>): (e: seq<Unspent>)
    ensures |e| <= |us|
    ensures forall i :: 0 <= i < |e| ==> Eligible(e[i])
  {
    if us == [] then []
    else EligibleOf(us[..|us| - 1]) + (if Eligible(us[|us| - 1]) then [us[|us| - 1]] else [])
  }

  lemma {:induction false} EligibleOfPrefix(us: seq<Unspent>, i: nat)
    requires i <= |us|
    ensures |EligibleOf(us[..i])| <= |EligibleOf(us)|
    ensures EligibleOf(us[..i]) == EligibleOf(us)[..|EligibleOf(us[..i])|]
    decreases |us| - i
  {
    if i < |us| {
      EligibleOfPrefix(us, i + 1);
      assert us[..i + 1][..i] == us[..i];
      var a, b := EligibleOf(us[..i]), EligibleOf(us[..i + 1]);
      assert b[..|a|] == a;
    } else {
      assert us[..i] == us;
    }
  }

  function Total(us: seq<Unspent>): real {
    if us == [] then 0.0 else Total(us[..|us| - 1]) + us[|us| - 1].amount
  }

  /**
   * What the selection picks from the eligible outputs `e`: the shortest
   * non-empty prefix whose total reaches `required`, or nothing when no
   * non-empty prefix does.
   */
  predicate IsSelection(e: seq<Unspent>, required: real, picked: seq<Unspent>) {
    if picked == [] then forall k :: 1 <= k <= |e| ==> Total(e[..k]) < required
    else
      && |picked| <= |e| && picked == e[..|picked|]
      && Total(picked) >= required
      && forall k :: 1 <= k < |picked| ==> Total(e[..k]) < required
  }

  /** At most one sequence is a selection. */
  lemma SelectionUnique(e: seq<Unspent>, required: real, p: seq<Unspent>, q: seq<Unspent>)
    requires IsSelection(e, required, p) && IsSelection(e, required, q)
    ensures p == q
  {
  }

  /** Every non-empty prefix of `e` up to length `n` totals less than `required`. */
  predicate PrefixesBelow(e: seq<Unspent>, n: nat, required: real)
    requires n <= |e|
  {
    forall k :: 1 <= k <= n ==> Total(e[..k]) < required
  }

  lemma TotalAppend(arr: seq<Unspent>, u: Unspent)
    ensures Total(arr + [u]) == Total(arr) + u.amount
  {
    assert (arr + [u])[..|arr|] == arr;
  }

  lemma PrefixesBelowExtend(arr: seq<Unspent>, u: Unspent, required: real)
    requires PrefixesBelow(arr, |arr|, required)
    ensures PrefixesBelow(arr + [u], |arr|, required)
  {
    forall k | 1 <= k <= |arr| ensures Total((arr + [u])[..k]) < required {
      assert (arr + [u])[..k] == arr[..k];
    }
  }

  lemma EligibleStep(us: seq<Unspent>, i: nat)
    requires i < |us|
    ensures EligibleOf(us[..i + 1]) == EligibleOf(us[..i]) + (if Eligible(us[i]) then [us[i]] else [])
  {
    assert us[..i + 1][..i] == us[..i];
  }

  lemma WholeBelow(arr: seq<Unspent>, required: real)
    requires PrefixesBelow(arr, |arr|, required)
    ensures arr != [] ==> Total(arr) < required
  {
    assert arr[..|arr|] == arr;
  }

  /** Prefixes below in `arr` are prefixes below in any `e` that `arr` begins. */
  lemma PrefixesBelowTransfer(arr: seq<Unspent>, e: seq<Unspent>, n: nat, required: real)
    requires n <= |arr| <= |e| && arr == e[..|arr|]
    requires PrefixesBelow(arr, n, required)
    ensures PrefixesBelow(e, n, required)
  {
    forall k | 1 <= k <= n ensures Total(e[..k]) < required {
      assert e[..k] == arr[..k];
    }
  }

  /** A prefix `arr` of `e` that first reaches `required` at its last element is the selection. */
  lemma SelectionFound(arr: seq<Unspent>, e: seq<Unspent>, required: real)
    requires 0 < |arr| <= |e| && arr == e[..|arr|]
    requires PrefixesBelow(arr, |arr| - 1, required) && Total(arr) >= required
    ensures IsSelection(e, required, arr)
  {
    PrefixesBelowTransfer(arr, e, |arr| - 1, required);
  }

  /** A prefix condition up to the second-last element extends to the whole of `arr` when its total stays below. */
  lemma PrefixesBelowClose(arr: seq<Unspent>, required: real)
    requires arr != [] && PrefixesBelow(arr, |arr| - 1, required) && Total(arr) < required
    ensures PrefixesBelow(arr, |arr|, required)
  {
    assert arr[..|arr|] == arr;
  }

  /** The selection loop: skips outputs in the mempool or not usable and stops once the total reaches `required`. */
  method SelectUnspents(unspent: seq<Unspent>, required: real) returns (picked: seq<Unspent>)
    ensures IsSelection(EligibleOf(unspent), required, picked)
    ensures forall i :: 0 <= i < |picked| ==> Eligible(picked[i])
  {
    var pickAmount := 0.0;
    var arr: seq<Unspent> := [];
    for i := 0 to |unspent|
      invariant arr == EligibleOf(unspent[..i]) && pickAmount == Total(arr)
      invariant PrefixesBelow(arr, |arr|, required)
    {
      var u := unspent[i];
      EligibleStep(unspent, i);
      if u.isHasMemPool || !u.isUsable {
        continue;
      }
      TotalAppend(arr, u);
      PrefixesBelowExtend(arr, u, required);
      pickAmount := pickAmount + u.amount;
      arr := arr + [u];
      if pickAmount >= required {
        EligibleOfPrefix(unspent, i + 1);
        SelectionFound(arr, EligibleOf(unspent), required);
        return arr;
      }
      PrefixesBelowClose(arr, required);
    }
    assert unspent[..|unspent|] == unspent;
    WholeBelow(arr, required);
    if pickAmount < required {
      return [];
    }
    picked := arr;
  }

  /** The translation keys of the two password messages. */
  const PasswordMissingKey := "wallet.lock.input"
  const PasswordWrongKey := "wallet.lock.error"

  /** Every field of the screen at one moment. */
  datatype ScreenState = ScreenState(
    step: EngraveStep,
    engraveText: string,
    dapInfo: Option<DapInfo>,
    appFee: real,
    networkFee: real,
    totalFee: real,
    baseFee: real,
    pickUnspents: seq<Unspent>,
    password: string,
    passwordError: string,
    showConfirmDialog: bool,
    isConfirmLoading: bool,
    currentPending: Option<PendingTransaction>,
    walletAddress: string,
    encryptedWallet: string,
    unspent: seq<Unspent>,
    pendingAdded: seq<PendingTransaction>)

  /** The amount the selection must cover. */
  function RequiredAmount(dap: DapInfo, networkFee: real, appFee: real): real {
    dap.dapAmount + networkFee + appFee
  }

  /** How a confirmation ended. */
  datatype ConfirmOutcome =
    | NoDapInfo
    | WrongPassword
    | DecryptThrew
    | NoWallet
    | SignThrew
    | SignFailed
    | BroadcastRejected(code: int, message: string)
    | MissingTxid
    | BroadcastFailed
    | Broadcast(pending: PendingTransaction)

  /** The screen's fields once a confirmation has ended with `outcome`. */
  function AfterConfirm(s: ScreenState, outcome: ConfirmOutcome): ScreenState {
    match outcome
    case NoDapInfo => s.(isConfirmLoading := false)
    case NoWallet => s.(isConfirmLoading := false)
    case SignFailed => s.(isConfirmLoading := false)
    case WrongPassword => s.(passwordError := PasswordWrongKey, showConfirmDialog := false, isConfirmLoading := false)
    case DecryptThrew => s.(isConfirmLoading := true)
    case SignThrew => s.(isConfirmLoading := true)
    case Broadcast(pending) =>
      s.(pendingAdded := s.pendingAdded + [pending], currentPending := Some(pending), step := EngraveStep.Success,
         password := "", isConfirmLoading := false, showConfirmDialog := false)
    case _ => s.(isConfirmLoading := false, showConfirmDialog := false)
  }

  /** Every outcome sets the loading flag, so its value beforehand does not matter. */
  lemma AfterConfirmSetsLoading(s: ScreenState, outcome: ConfirmOutcome, loading: bool)
    ensures AfterConfirm(s.(isConfirmLoading := loading), outcome) == AfterConfirm(s, outcome)
  {
  }

  /**
   * How the signing and broadcast part ends from screen state `s` (whose order
   * information is present) with signing key `child`: a throwing
   * `signTransaction`, a failed signing, or the broadcast of the signed
   * transaction recorded as a pending transaction.
   */
  predicate SignDecided(s: ScreenState, child: SignTx.SigningBackend,
                        broadcast: SignTx.SignResult -> BroadcastOutcome, now: int, network: Option<string>,
                        outcome: ConfirmOutcome)
    requires s.dapInfo.Some?
  {
    CallDecided(SignTx.SignCallOf(s.pickUnspents, s.dapInfo.value.outputs, s.networkFee + s.appFee,
                                  s.walletAddress, child, s.appFee, network),
                s.pickUnspents, s.dapInfo.value.outputs, broadcast, now, outcome)
  }

  /**
   * How the confirmation ends once `signTransaction` has been called with the
   * consumed outputs `picked` and the order's outputs `outputs`: a throw, a
   * failed signing, or the broadcast's own outcome.
   */
  predicate CallDecided(call: SignTx.SignCall, picked: seq<Unspent>, outputs: seq<SendItem>,
                        broadcast: SignTx.SignResult -> BroadcastOutcome, now: int, outcome: ConfirmOutcome)
  {
    && (outcome == SignThrew <==> call.Threw?)
    && (call.Returned? ==>
          var res := call.result;
          && (outcome == SignFailed <==> !res.isSuccess)
          && (outcome.Broadcast? <==> res.isSuccess && broadcast(res).BroadcastOk? && broadcast(res).txid != [])
          && (outcome.Broadcast? ==>
                outcome.pending == PendingTransaction(broadcast(res).txid, res.rawtx, res.totalInput,
                                                      res.totalOutput, res.change, res.feeRate, picked,
                                                      outputs, now, Pending))
          && (res.isSuccess && broadcast(res).BroadcastError? ==>
                outcome == BroadcastRejected(broadcast(res).code, broadcast(res).message)))
  }

  /**
   * How `handleConfirmTransaction` ends from screen state `s`: no order
   * information, a wrong password, a throwing decryption or a missing wallet
   * record each give their own outcome; otherwise the outcome is the signing
   * result's failure or the broadcast of its transaction.
   */
  predicate ConfirmDecided(s: ScreenState, p: Vault.Primitives, keyFor: string -> SignTx.SigningBackend,
                           broadcast: SignTx.SignResult -> BroadcastOutcome, now: int, network: Option<string>,
                           outcome: ConfirmOutcome)
  {
    var d := Vault.DecryptWallet(p, s.encryptedWallet, s.password);
    && (outcome == NoDapInfo <==> s.dapInfo.None?)
    && (outcome == WrongPassword <==> s.dapInfo.Some? && d.DecryptFailed?)
    && (outcome == DecryptThrew <==> s.dapInfo.Some? && d.DecryptThrows?)
    && (outcome == NoWallet <==> s.dapInfo.Some? && d == Vault.Decrypted(None))
    && (s.dapInfo.Some? && d.Decrypted? && d.wallet.Some? ==>
          SignDecided(s, keyFor(d.wallet.value.mnemonic), broadcast, now, network, outcome))
  }

  class EngraveScreen {
    var step: EngraveStep
    var engraveText: string
    var dapInfo: Option<DapInfo>
    var appFee: real
    var networkFee: real
    var totalFee: real
    var baseFee: real
    var pickUnspents: seq<Unspent>
    var password: string
    var passwordError: string
    var showConfirmDialog: bool
    var isConfirmLoading: bool
    var currentPending: Option<PendingTransaction>
    /** The wallet store's address, encrypted blob and unspent outputs, as read by the screen. */
    var walletAddress: string
    var encryptedWallet: string
    var unspent: seq<Unspent>
    /** The entries handed to the store's `addPendingTransaction`, in order. */
    var pendingAdded: seq<PendingTransaction>

    function State(): ScreenState
      reads this
    {
      ScreenState(step, engraveText, dapInfo, appFee, networkFee, totalFee, baseFee, pickUnspents, password,
                  passwordError, showConfirmDialog, isConfirmLoading, currentPending, walletAddress,
                  encryptedWallet, unspent, pendingAdded)
    }

    constructor (address: string, blob: string, utxos: seq<Unspent>)
      ensures State() == ScreenState(Form, "", None, EngraveAppFee, 0.0, 0.0, 0.0, [], "", "", false, false, None,
                                     address, blob, utxos, [])
    {
      step, engraveText, dapInfo, appFee := Form, "", None, EngraveAppFee;
      networkFee, totalFee, baseFee, pickUnspents := 0.0, 0.0, 0.0, [];
      password, passwordError, showConfirmDialog, isConfirmLoading := "", "", false, false;
      currentPending, walletAddress, encryptedWallet, unspent, pendingAdded := None, address, blob, utxos, [];
    }

    /** The text box's change handler. */
    method SetEngraveText(text: string)
      modifies this
      ensures State() == old(State()).(engraveText := text)
    {
      engraveText := text;
    }

    /** The password box's change handler: stores the text and clears any password error. */
    method SetPassword(text: string)
      modifies this
      ensures State() == old(State()).(password := text, passwordError := "")
    {
      password := text;
      if passwordError != "" {
        passwordError := "";
      }
    }

    /** `getInitData`: the node's base fee rate, left as it was when the request fails (`None`). */
    method LoadBaseFee(fetched: Option<real>)
      modifies this
      ensures State() == old(State()).(baseFee := fetched.GetOr(old(baseFee)))
    {
      if fetched.Some? {
        baseFee := fetched.value;
      }
    }

    /**
     * The effect on the text: `codec` is absent when the codec could not be
     * loaded, and `codec.value(text)` is `None` when encoding throws.
     */
    method UpdateDapInfo(codec: Option<string -> Option<seq<DapOutput>>>)
      modifies this
      ensures engraveText == [] || Trim(engraveText) == [] ==>
        State() == old(State()).(dapInfo := None, totalFee := 0.0)
      ensures engraveText != [] && Trim(engraveText) != [] ==>
        State() == old(State()).(dapInfo :=
          if codec.None? || codec.value(engraveText).None? then None
          else Some(MakeDapInfo(codec.value(engraveText).value)))
    {
      if engraveText == [] || Trim(engraveText) == [] {
        dapInfo := None;
        totalFee := 0.0;
        return;
      }
      if codec.None? {
        dapInfo := None;
        return;
      }
      match codec.value(engraveText)
      case None =>
        dapInfo := None;
      case Some(outputs) =>
        dapInfo := Some(MakeDapInfo(outputs));
    }

    /** The effect on the fees: the network fee for the current selection and the total shown. */
    method UpdateFees()
      modifies this
      ensures dapInfo.None? || baseFee == 0.0 ==> State() == old(State()).(networkFee := 0.0, totalFee := 0.0)
      ensures dapInfo.Some? && baseFee != 0.0 ==>
        && State() == old(State()).(networkFee := networkFee, totalFee := totalFee)
        && networkFee == EngraveNetworkFee(dapInfo.value, |pickUnspents|, baseFee)
        && totalFee == RequiredAmount(dapInfo.value, networkFee, appFee)
    {
      if dapInfo.None? || baseFee == 0.0 {
        networkFee := 0.0;
        totalFee := 0.0;
        return;
      }
      var fee := Fees.CalcFee(|pickUnspents|, |dapInfo.value.outputs| + 1 + 1, baseFee);
      networkFee := fee.feeScash;
      totalFee := dapInfo.value.dapAmount + fee.feeScash + appFee;
    }

    /** The effect that picks the unspent outputs, run only on the form with fees and a message in place. */
    method UpdateSelection()
      modifies this
      ensures step != Form || baseFee == 0.0 || totalFee == 0.0 || dapInfo.None? ==> State() == old(State())
      ensures step == Form && baseFee != 0.0 && totalFee != 0.0 && dapInfo.Some? ==>
        && State() == old(State()).(pickUnspents := pickUnspents)
        && IsSelection(EligibleOf(unspent), RequiredAmount(dapInfo.value, networkFee, appFee), pickUnspents)
    {
      if step != Form || baseFee == 0.0 || totalFee == 0.0 || dapInfo.None? {
        return;
      }
      var requiredAmount := dapInfo.value.dapAmount + networkFee + appFee;
      var picked := SelectUnspents(unspent, requiredAmount);
      pickUnspents := picked;
    }

    /** `handleSendToConfirm`: moves to confirmation only with a selection and a message. */
    method HandleSendToConfirm()
      modifies this
      ensures State() == if |pickUnspents| == 0 || dapInfo.None? then old(State()) else old(State()).(step := Confirm)
    {
      if |pickUnspents| == 0 || dapInfo.None? {
        return;
      }
      step := Confirm;
    }

    /** `handlePasswordSubmit`: an empty password is refused; otherwise the confirmation dialog opens. */
    method HandlePasswordSubmit()
      modifies this
      ensures password == [] ==> State() == old(State()).(passwordError := PasswordMissingKey)
      ensures password != [] ==> State() == old(State()).(passwordError := "", showConfirmDialog := true)
    {
      if password == [] {
        passwordError := PasswordMissingKey;
        return;
      }
      passwordError := "";
      showConfirmDialog := true;
    }

    /**
     * `handleConfirmTransaction`.  `keyFor(mnemonic)` is the signing key derived
     * from the mnemonic along the path `Vault.AddressPath` (which this screen
     * spells out as a literal); `broadcast(res)` is what the broadcast request
     * returns for the signed result; `now` is the clock.
     */
    method HandleConfirmTransaction(p: Vault.Primitives, keyFor: string -> SignTx.SigningBackend,
                                    broadcast: SignTx.SignResult -> BroadcastOutcome, now: int,
                                    network: Option<string>)
      returns (outcome: ConfirmOutcome)
      modifies this
      ensures State() == AfterConfirm(old(State()), outcome)
      ensures ConfirmDecided(old(State()), p, keyFor, broadcast, now, network, outcome)
    {
      outcome := DecideConfirm(p, keyFor, broadcast, now, network);
      isConfirmLoading := true;
      AfterConfirmSetsLoading(old(State()), outcome, true);
      Conclude(outcome);
    }

    /**
     * The decision part of `handleConfirmTransaction`: which way the
     * confirmation ends, from the fields as they stand; it changes no field.
     */
    method DecideConfirm(p: Vault.Primitives, keyFor: string -> SignTx.SigningBackend,
                         broadcast: SignTx.SignResult -> BroadcastOutcome, now: int,
                         network: Option<string>)
      returns (outcome: ConfirmOutcome)
      ensures ConfirmDecided(State(), p, keyFor, broadcast, now, network, outcome)
    {
      if dapInfo.None? {
        outcome := NoDapInfo;
      } else {
        var walletObj := Vault.DecryptWallet(p, encryptedWallet, password);
        if walletObj.DecryptFailed? {
          outcome := WrongPassword;
        } else if walletObj.DecryptThrows? {
          outcome := DecryptThrew;
        } else if walletObj.wallet.None? {
          outcome := NoWallet;
        } else {
          outcome := SignAndBroadcast(walletObj.wallet.value, keyFor, broadcast, now, network);
        }
      }
    }

    /**
     * The signing and broadcast part of `handleConfirmTransaction`, for the
     * decrypted wallet record; it changes no field.
     */
    method SignAndBroadcast(wallet: WalletFile, keyFor: string -> SignTx.SigningBackend,
                            broadcast: SignTx.SignResult -> BroadcastOutcome, now: int, network: Option<string>)
      returns (outcome: ConfirmOutcome)
      requires dapInfo.Some?
      ensures SignDecided(State(), keyFor(wallet.mnemonic), broadcast, now, network, outcome)
      ensures outcome in {SignThrew, SignFailed, MissingTxid, BroadcastFailed}
              || outcome.BroadcastRejected? || outcome.Broadcast?
    {
      var child := keyFor(wallet.mnemonic);
      var outputs := dapInfo.value.outputs;
      var totalFeeRate := networkFee + appFee;
      var call := Sign(pickUnspents, outputs, totalFeeRate, walletAddress, child, appFee, network);
      outcome := DecideBroadcast(call, pickUnspents, outputs, broadcast, now);
    }

    /** The call of `signTransaction`; the screen keeps only its result, not the PSBT. */
    static method Sign(picked: seq<Unspent>, outputs: seq<SendItem>, feeRate: real, address: string,
                       child: SignTx.SigningBackend, appFee: real, network: Option<string>)
      returns (call: SignTx.SignCall)
      ensures call == SignTx.SignCallOf(picked, outputs, feeRate, address, child, appFee, network)
    {
      var psbt;
      call, psbt := SignTx.SignTransaction(picked, outputs, feeRate, address, child, appFee, network);
    }

    /** The part of `handleConfirmTransaction` after `signTransaction` has been called; it changes no field. */
    static method DecideBroadcast(call: SignTx.SignCall, picked: seq<Unspent>, outputs: seq<SendItem>,
                                  broadcast: SignTx.SignResult -> BroadcastOutcome, now: int)
      returns (outcome: ConfirmOutcome)
      ensures CallDecided(call, picked, outputs, broadcast, now, outcome)
      ensures outcome in {SignThrew, SignFailed, MissingTxid, BroadcastFailed}
              || outcome.BroadcastRejected? || outcome.Broadcast?
    {
      if call.Threw? {
        return SignThrew;
      }
      var signed := call.result;
      if !signed.isSuccess {
        return SignFailed;
      }
      match broadcast(signed) {
        case BroadcastThrows =>
          outcome := BroadcastFailed;
        case BroadcastError(code, message) =>
          outcome := BroadcastRejected(code, message);
        case BroadcastOk(txid) =>
          outcome := if txid == [] then MissingTxid
                     else Broadcast(PendingTransaction(txid, signed.rawtx, signed.totalInput, signed.totalOutput,
                                                       signed.change, signed.feeRate, picked, outputs,
                                                       now, Pending));
      }
    }

    /** The state updates `handleConfirmTransaction` makes on leaving with `outcome`. */
    method Conclude(outcome: ConfirmOutcome)
      modifies this
      ensures State() == AfterConfirm(old(State()), outcome)
    {
      match outcome {
        case NoDapInfo =>
          SetFlags(showConfirmDialog, false);
        case NoWallet =>
          SetFlags(showConfirmDialog, false);
        case SignFailed =>
          SetFlags(showConfirmDialog, false);
        case WrongPassword =>
          passwordError := PasswordWrongKey;
          SetFlags(false, false);
        case DecryptThrew =>
          SetFlags(showConfirmDialog, true);
        case SignThrew =>
          SetFlags(showConfirmDialog, true);
        case Broadcast(pending) =>
          RecordPending(pending);
          SetFlags(false, false);
        case _ =>
          SetFlags(false, false);
      }
    }

    /** `setShowConfirmDialog` and `setIsConfirmLoading`. */
    method SetFlags(dialog: bool, loading: bool)
      modifies this
      ensures State() == old(State()).(showConfirmDialog := dialog, isConfirmLoading := loading)
    {
      showConfirmDialog, isConfirmLoading := dialog, loading;
    }

    /** After a broadcast: the entry handed to the store and shown, the success step, the password cleared. */
    method RecordPending(pending: PendingTransaction)
      modifies this
      ensures State() == old(State()).(pendingAdded := old(pendingAdded) + [pending], currentPending := Some(pending),
                                       step := EngraveStep.Success, password := "")
    {
      pendingAdded := pendingAdded + [pending];
      currentPending := Some(pending);
      step := EngraveStep.Success;
      password := "";
    }
  }
}
