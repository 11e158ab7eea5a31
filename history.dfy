/**
 * Classification of a fetched transaction relative to the wallet's own
 * address (`analyzeTransaction`).  Explorer amounts are in satoshis; the
 * classified amounts are converted to SCASH for display.
 */
module History {
  import opened Amounts

  /** A sender, receiver or change entry of an explorer transaction record. */
  datatype Party = Party(address: string, amount: real)

  datatype ExplorerTx = ExplorerTx(
    txid: string,
    senders: seq<Party>,
    receivers: seq<Party>,
    changeOutputs: seq<Party>,
    timestamp: string,
    confirmations: int)

  datatype TxKind = Income | Expense | Self | Mining

  datatype Analysis = Analysis(
    kind: TxKind,
    amount: real,
    netAmount: real,
    isPositive: bool,
    txid: string,
    timestamp: string,
    confirmations: int)

  /** The total of the entries that belong to `address`. */
  function TotalFor(parties: seq<Party>, address: string): real {
    if parties == [] then 0.0
    else (if parties[0].address == address then parties[0].amount else 0.0) + TotalFor(parties[1..], address)
  }

  /** The kind, gross amount and signed net amount, by the rules in their order. */
  function Classify(tx: ExplorerTx, address: string): (r: (TxKind, real, real))
    ensures r.0 != Expense ==> r.1 == (if r.2 < 0.0 then -r.2 else r.2)
    ensures r.0 == Expense ==> r.1 == -r.2 && r.2 == TotalFor(tx.changeOutputs, address) - TotalFor(tx.senders, address)
    ensures r.0 == Self && r.2 != 0.0 ==> r.2 == TotalFor(tx.receivers, address) - TotalFor(tx.senders, address)
  {
    var sent := TotalFor(tx.senders, address);
    var received := TotalFor(tx.receivers, address);
    var change := TotalFor(tx.changeOutputs, address);
    if tx.senders == [] && received > 0.0 then (Mining, received, received)
    else if sent > 0.0 && received > 0.0 then
      (Self, if received - sent < 0.0 then sent - received else received - sent, received - sent)
    else if sent > 0.0 then (Expense, sent - change, -(sent - change))
    else if received > 0.0 then (Income, received, received)
    else (Self, 0.0, 0.0)
  }

  /** The signed change of the wallet's balance, in satoshis, that `Classify` assigns. */
  function SignedNet(tx: ExplorerTx, address: string): real {
    Classify(tx, address).2
  }

  function AnalyzeTransaction(tx: ExplorerTx, address: string): (a: Analysis)
    ensures a.isPositive <==> SignedNet(tx, address) >= 0.0
    ensures a.netAmount >= 0.0
    ensures a.netAmount * SatPerScash - 0.5 <= (if a.isPositive then SignedNet(tx, address) else -SignedNet(tx, address))
    ensures (if a.isPositive then SignedNet(tx, address) else -SignedNet(tx, address)) <= a.netAmount * SatPerScash + 0.5
    ensures a.netAmount == SatToScash(if SignedNet(tx, address) < 0.0 then -SignedNet(tx, address)
                                      else SignedNet(tx, address))
    ensures a.amount == SatToScash(if a.kind == Expense then -SignedNet(tx, address)
                                   else if SignedNet(tx, address) < 0.0 then -SignedNet(tx, address)
                                   else SignedNet(tx, address))
    ensures a.txid == tx.txid && a.timestamp == tx.timestamp && a.confirmations == tx.confirmations
  {
    var (kind, gross, net) := Classify(tx, address);
    Analysis(kind, SatToScash(gross), SatToScash(if net < 0.0 then -net else net), net >= 0.0,
             tx.txid, tx.timestamp, tx.confirmations)
  }

  /**
   * Each kind characterised on its own, independent of the order of the
   * rules: the change entries play no part in choosing the kind.
   */
  lemma KindCharacterised(tx: ExplorerTx, address: string)
    ensures var sent, received := TotalFor(tx.senders, address), TotalFor(tx.receivers, address);
      var kind := AnalyzeTransaction(tx, address).kind;
      && (kind == Mining <==> tx.senders == [] && received > 0.0)
      && (kind == Self <==> (sent > 0.0 <==> received > 0.0))
      && (kind == Expense <==> sent > 0.0 && received <= 0.0)
      && (kind == Income <==> tx.senders != [] && sent <= 0.0 && received > 0.0)
  {
    assert tx.senders == [] ==> TotalFor(tx.senders, address) == 0.0;
  }

  /** The signed net amount of each kind. */
  lemma NetByKind(tx: ExplorerTx, address: string)
    ensures var sent, received, change :=
        TotalFor(tx.senders, address), TotalFor(tx.receivers, address), TotalFor(tx.changeOutputs, address);
      var kind := AnalyzeTransaction(tx, address).kind;
      && (kind == Mining || kind == Income ==> SignedNet(tx, address) == received)
      && (kind == Expense ==> SignedNet(tx, address) == change - sent)
      && (kind == Self ==> SignedNet(tx, address) == if sent > 0.0 then received - sent else 0.0)
  {
    assert tx.senders == [] ==> TotalFor(tx.senders, address) == 0.0;
  }

  /**
   * With whole-satoshi entries, the displayed pair (netAmount, isPositive)
   * determines the signed net exactly.
   */
  lemma DisplayedNetIsExact(tx: ExplorerTx, address: string)
    requires IsInteger(SignedNet(tx, address))
    ensures var a := AnalyzeTransaction(tx, address);
      (if a.isPositive then a.netAmount else -a.netAmount) * SatPerScash == SignedNet(tx, address)
  {
    var a := AnalyzeTransaction(tx, address);
    var net := SignedNet(tx, address);
    var size := if net < 0.0 then -net else net;
    var whole := if net < 0.0 then -(net.Floor) else net.Floor;
    assert size == whole as real;
    WholeIsInteger(whole);
    assert a.netAmount * SatPerScash == size;
  }

  /** Mining reward: no senders, one output to the wallet. */
  lemma MiningExample(address: string)
    ensures var tx := ExplorerTx("t", [], [Party(address, 5000000000.0)], [], "0", 1);
      var a := AnalyzeTransaction(tx, address);
      a.kind == Mining && a.amount == 50.0 && a.netAmount == 50.0 && a.isPositive
  {
    var tx := ExplorerTx("t", [], [Party(address, 5000000000.0)], [], "0", 1);
    assert TotalFor(tx.receivers, address) == 5000000000.0;
    assert SatToScash(5000000000.0) * SatPerScash == 5000000000.0;
  }
}
