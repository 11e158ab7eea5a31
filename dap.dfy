/**
 * Recognition of on-chain DAP messages (`parseDapMessage`) and their preview
 * (`formatDapPreview`).  The codec (address recognition and payload decoding)
 * is the `DapCodec` oracle; it is absent outside a browser window or when it
 * failed to load.
 */
module Dap {
  import opened Wrappers
  import opened JsString
  import Const

  /** An explorer output: the address may sit under `scriptPubKey` or at the top level. */
  datatype TxOutput = TxOutput(scriptPubKeyAddress: Option<string>, address: Option<string>, value: real)

  datatype DecodeOutcome = Decoded(content: string) | NoMessage | DecodeThrows

  datatype DapCodec = DapCodec(isDapAddress: string -> bool, parse: seq<TxOutput> -> DecodeOutcome)

  datatype DapMessage = DapMessage(content: string, isDap: bool, isPureMessage: bool, isFromSelf: bool)

  /** The address an output pays to: `scriptPubKey.address`, else `address`, an empty string counting as none. */
  function OutputAddress(o: TxOutput): (a: Option<string>)
    ensures a.Some? ==> a.value != ""
    ensures a.None? <==> (o.scriptPubKeyAddress.None? || o.scriptPubKeyAddress.value == "")
                          && (o.address.None? || o.address.value == "")
    ensures o.scriptPubKeyAddress.Some? && o.scriptPubKeyAddress.value != "" ==> a == o.scriptPubKeyAddress
  {
    if o.scriptPubKeyAddress.Some? && o.scriptPubKeyAddress.value != "" then o.scriptPubKeyAddress
    else if o.address.Some? && o.address.value != "" then o.address
    else None
  }

  predicate PaysDap(codec: DapCodec, o: TxOutput) {
    OutputAddress(o).Some? && codec.isDapAddress(OutputAddress(o).value)
  }

  predicate PaysNormal(codec: DapCodec, o: TxOutput) {
    OutputAddress(o).Some? && !codec.isDapAddress(OutputAddress(o).value)
  }

  /** The outputs kept by a filter over `PaysDap`. */
  function DapOutputs(codec: DapCodec, outputs: seq<TxOutput>): (r: seq<TxOutput>)
    ensures |r| == 0 <==> forall i :: 0 <= i < |outputs| ==> !PaysDap(codec, outputs[i])
  {
    if outputs == [] then []
    else (if PaysDap(codec, outputs[0]) then [outputs[0]] else []) + DapOutputs(codec, outputs[1..])
  }

  /** The outputs kept by a filter over `PaysNormal`. */
  function NormalOutputs(codec: DapCodec, outputs: seq<TxOutput>): (r: seq<TxOutput>)
    ensures |r| == 0 <==> forall i :: 0 <= i < |outputs| ==> !PaysNormal(codec, outputs[i])
  {
    if outputs == [] then []
    else (if PaysNormal(codec, outputs[0]) then [outputs[0]] else []) + NormalOutputs(codec, outputs[1..])
  }

  function ParseDapMessage(outputs: seq<TxOutput>, senderAddress: string, currentUserAddress: string,
                           codec: Option<DapCodec>): (r: Option<DapMessage>)
    ensures r.Some? <==>
      && codec.Some?
      && (exists i :: 0 <= i < |outputs| && PaysDap(codec.value, outputs[i]))
      && codec.value.parse(outputs).Decoded? && codec.value.parse(outputs).content != ""
    ensures r.Some? ==>
      && r.value.content == codec.value.parse(outputs).content
      && r.value.isDap
      && (r.value.isPureMessage <==> forall i :: 0 <= i < |outputs| ==> !PaysNormal(codec.value, outputs[i]))
      && (r.value.isFromSelf <==> Lower(senderAddress) == Lower(currentUserAddress))
  {
    if codec.None? || |outputs| == 0 then None
    else
      var dap := codec.value;
      if |DapOutputs(dap, outputs)| == 0 then None
      else
        match dap.parse(outputs)
        case DecodeThrows => None
        case NoMessage => None
        case Decoded(message) =>
          if message == "" then None
          else
            var isPureMessage := |NormalOutputs(dap, outputs)| == 0;
            var isFromSelf := Lower(senderAddress) == Lower(currentUserAddress);
            Some(DapMessage(message, true, isPureMessage, isFromSelf))
  }

  /** An output without an address is neither a message output nor a payment. */
  lemma AddresslessOutputIgnored(codec: DapCodec, o: TxOutput)
    requires (o.scriptPubKeyAddress.None? || o.scriptPubKeyAddress.value == "") && o.address.None?
    ensures !PaysDap(codec, o) && !PaysNormal(codec, o)
  {
  }

  /** Outputs that carry no address do not change the verdict. */
  lemma {:induction false} AddresslessOutputsIrrelevant(codec: DapCodec, outputs: seq<TxOutput>, o: TxOutput)
    requires OutputAddress(o).None?
    ensures DapOutputs(codec, outputs + [o]) == DapOutputs(codec, outputs)
    ensures NormalOutputs(codec, outputs + [o]) == NormalOutputs(codec, outputs)
  {
    if outputs != [] {
      assert (outputs + [o])[1..] == outputs[1..] + [o];
      AddresslessOutputsIrrelevant(codec, outputs[1..], o);
    } else {
      assert DapOutputs(codec, [o]) == [] + DapOutputs(codec, []);
      assert NormalOutputs(codec, [o]) == [] + NormalOutputs(codec, []);
    }
  }

  /** The preview length used when the caller gives none. */
  const DefaultPreviewLength := 50

  /** The preview: empty stays empty, short text is kept, long text is cut to `maxLength` and marked "...". */
  function FormatDapPreview(message: string, maxLength: int := DefaultPreviewLength): (r: string)
    ensures message == "" ==> r == ""
    ensures message != "" && |message| <= maxLength ==> r == message
    ensures |message| > maxLength && message != "" ==>
      var keep := if maxLength < 0 then 0 else maxLength;
      r == message[..keep] + "..."
  {
    if message == "" then ""
    else if |message| <= maxLength then message
    else message[..if maxLength < 0 then 0 else maxLength] + "..."
  }

  /** The preview is never longer than `maxLength` plus the three-dot marker, and it starts like the message. */
  lemma PreviewBounded(message: string, maxLength: int)
    requires maxLength >= 0
    ensures |FormatDapPreview(message, maxLength)| <= maxLength + 3
    ensures var r := FormatDapPreview(message, maxLength);
      r == message || (|r| == maxLength + 3 && maxLength < |message| && r[..maxLength] == message[..maxLength])
  {
  }

  /** Without a limit the preview keeps at most 50 characters before the marker. */
  lemma DefaultPreviewLimit(message: string)
    ensures |message| <= 50 ==> FormatDapPreview(message) == message
    ensures |message| > 50 ==> FormatDapPreview(message) == message[..50] + "..."
  {
  }

  /** The parameters the codec is built with: the main-network record, whatever the testnet flag says. */
  function DapCodecParams(testnetFlag: Option<string>): (p: Const.NetworkParams)
    ensures p.bech32 == "scash"
  {
    Const.Mainnet
  }

  /** On testnet the codec's parameters are not the wallet's own network. */
  lemma DapParamsIgnoreTestnet(flag: Option<string>)
    ensures DapCodecParams(flag) == Const.GetScashNetwork(flag) <==> flag != Some("true")
  {
    Const.NetworksDifferOnlyInPrefix();
  }
}
