/**
 * The wallet's home screen: the connection-signal indicators, the mapping
 * of analysed explorer transactions to the store's display records, the
 * polling of pending transactions and the two-hour session expiry.
 *
 * The explorer request, the node query, the clock and `Date` parsing are
 * parameters; the store actions `addTransaction`, `addPendingTransaction`
 * and `lockWallet` are recorded as the calls made.
 */
module Home {
  import opened Wrappers
  import opened JsString
  import opened WalletTypes
  import History
  import Dap

  // ---------------------------------------------------------------------
  // Signal strength
  // ---------------------------------------------------------------------

  datatype ConnectionStatus = Connected | Disconnected | Checking

  /** A translated label: its key, and the response time appended in parentheses when present. */
  datatype SignalLabel = SignalLabel(key: string, responseTime: Option<int>)

  datatype Signal = Signal(strength: nat, color: string, bars: nat, caption: SignalLabel)

  /** The label key shown while the explorer is being checked. */
  const ExplorerCheckingKey := "explorer.status.checking"
  /** The label key shown while the node is being checked. */
  const NodeCheckingKey := "node.status.checking"

  /**
   * `getSignalStrength` (with `ExplorerCheckingKey`) and
   * `getNodeSignalStrength` (with `NodeCheckingKey`): the two differ only
   * in the label shown while checking.
   */
  function SignalFor(status: ConnectionStatus, responseTime: int, checkingKey: string): (s: Signal)
    ensures s.strength == s.bars <= 3
    ensures s.bars == 0 <==> status != Connected
    ensures status == Connected ==>
      && (s.bars == 3 <==> responseTime < 500)
      && (s.bars == 2 <==> 500 <= responseTime < 1500)
      && (s.bars == 1 <==> 1500 <= responseTime)
      && s.caption.responseTime == Some(responseTime)
    ensures status == Checking ==> s.caption == SignalLabel(checkingKey, None)
    ensures status == Disconnected ==> s.caption == SignalLabel("node.signal.disconnected", None)
  {
    match status
    case Disconnected => Signal(0, "text-red-500", 0, SignalLabel("node.signal.disconnected", None))
    case Checking => Signal(0, "text-yellow-500", 0, SignalLabel(checkingKey, None))
    case Connected =>
      if responseTime < 500 then
        Signal(3, "text-green-500", 3, SignalLabel("node.signal.excellent", Some(responseTime)))
      else if responseTime < 1500 then
        Signal(2, "text-green-400", 2, SignalLabel("node.signal.good", Some(responseTime)))
      else if responseTime < 3000 then
        Signal(1, "text-yellow-500", 1, SignalLabel("node.signal.fair", Some(responseTime)))
      else
        Signal(1, "text-orange-500", 1, SignalLabel("node.signal.slow", Some(responseTime)))
  }

  /** A slower response never shows more bars. */
  lemma BarsNeverIncrease(status: ConnectionStatus, fast: int, slow: int, key: string)
    requires fast <= slow
    ensures SignalFor(status, slow, key).bars <= SignalFor(status, fast, key).bars
  {
  }

  /** The explorer and the node indicators agree on everything but the checking label. */
  lemma ExplorerAndNodeAgree(status: ConnectionStatus, responseTime: int)
    ensures SignalFor(status, responseTime, ExplorerCheckingKey).bars == SignalFor(status, responseTime, NodeCheckingKey).bars
    ensures SignalFor(status, responseTime, ExplorerCheckingKey).color == SignalFor(status, responseTime, NodeCheckingKey).color
    ensures status != Checking ==>
      SignalFor(status, responseTime, ExplorerCheckingKey) == SignalFor(status, responseTime, NodeCheckingKey)
  {
  }

  // ---------------------------------------------------------------------
  // Explorer transactions as display records
  // ---------------------------------------------------------------------

  datatype TxType = Receive | Send
  datatype TxStatus = TxConfirmed | TxPending

  /** The store's display record of a transaction (`Transaction`). */
  datatype Transaction = Transaction(
    id: string,
    txType: TxType,
    amount: real,
    address: string,
    timestamp: int,
    status: TxStatus,
    height: int)

  /** `unspent.find(item => item.txid === txid)`: the first unspent output of the transaction. */
  function FindUnspent(unspent: seq<Unspent>, txid: string): (r: Option<Unspent>)
    ensures r.None? <==> forall i :: 0 <= i < |unspent| ==> unspent[i].txid != txid
    ensures r.Some? ==> exists i :: 0 <= i < |unspent| && unspent[i] == r.value && r.value.txid == txid
                                    && forall j :: 0 <= j < i ==> unspent[j].txid != txid
  {
    if unspent == [] then None
    else if unspent[0].txid == txid then Some(unspent[0])
    else
      var r := FindUnspent(unspent[1..], txid);
      if r.Some? then
        ghost var i :| 0 <= i < |unspent[1..]| && unspent[1..][i] == r.value && r.value.txid == txid
                       && forall j :: 0 <= j < i ==> unspent[1..][j].txid != txid;
        assert unspent[i + 1] == r.value;
        assert forall j :: 0 <= j < i + 1 ==> unspent[j].txid != txid by {
          forall j | 0 <= j < i + 1 ensures unspent[j].txid != txid {
            if j > 0 { assert unspent[j] == unspent[1..][j - 1]; }
          }
        }
        r
      else
        assert forall i :: 0 <= i < |unspent| ==> unspent[i].txid != txid by {
          forall i | 0 <= i < |unspent| ensures unspent[i].txid != txid {
            if i > 0 { assert unspent[i] == unspent[1..][i - 1]; }
          }
        }
        r
  }

  /** Income and mining show as received, every other kind as sent. */
  function DisplayType(kind: History.TxKind): (t: TxType)
    ensures t == Receive <==> kind == History.Income || kind == History.Mining
  {
    if kind == History.Income || kind == History.Mining then Receive else Send
  }

  /**
   * One analysed explorer transaction as a display record; `parseTime`
   * stands for `new Date(timestamp).getTime()`.
   */
  function ToTransaction(a: History.Analysis, unspent: seq<Unspent>, parseTime: string -> int): (t: Transaction)
    ensures t.id == a.txid && t.address == "" && t.timestamp == parseTime(a.timestamp)
    ensures t.txType == DisplayType(a.kind)
    ensures t.amount == (if t.txType == Send then -a.netAmount else a.netAmount)
    ensures t.status == TxPending ==>
      exists i :: 0 <= i < |unspent| && unspent[i].txid == a.txid && !unspent[i].isUsable
    ensures (exists i :: 0 <= i < |unspent| && unspent[i].txid == a.txid) &&
            (forall i :: 0 <= i < |unspent| && unspent[i].txid == a.txid ==> !unspent[i].isUsable)
            ==> t.status == TxPending
    ensures t.height != 0 ==>
      exists i :: 0 <= i < |unspent| && unspent[i].txid == a.txid && unspent[i].height == t.height
    ensures (forall i :: 0 <= i < |unspent| ==> unspent[i].txid != a.txid) ==>
      t.status == TxConfirmed && t.height == 0
  {
    var txType := DisplayType(a.kind);
    var amount := if txType == Send then -a.netAmount else a.netAmount;
    match FindUnspent(unspent, a.txid)
    case Some(u) =>
      Transaction(a.txid, txType, amount, "", parseTime(a.timestamp), if u.isUsable then TxConfirmed else TxPending, u.height)
    case None =>
      Transaction(a.txid, txType, amount, "", parseTime(a.timestamp), TxConfirmed, 0)
  }

  /**
   * A transaction shown as received increases the balance, and its amount
   * is the (non-negative) net amount; one shown as sent carries a
   * non-positive amount.
   */
  lemma DisplayedSign(tx: History.ExplorerTx, address: string, unspent: seq<Unspent>, parseTime: string -> int)
    ensures var t := ToTransaction(History.AnalyzeTransaction(tx, address), unspent, parseTime);
      && (t.txType == Receive ==> History.SignedNet(tx, address) > 0.0 && t.amount >= 0.0)
      && (t.txType == Send ==> t.amount <= 0.0)
  {
    History.NetByKind(tx, address);
  }

  // ---------------------------------------------------------------------
  // Pending transactions
  // ---------------------------------------------------------------------

  /** What `getRawTransactionApi` gives: a throw, an unsuccessful reply, or the node's `blockhash` field. */
  datatype RawTxReply = RawTxThrew | RawTxUnsuccessful | RawTxFound(blockhash: string)

  predicate InBlock(reply: RawTxReply) {
    reply.RawTxFound? && reply.blockhash != ""
  }

  /** The re-added entries of one polling pass: confirmed copies of the pending entries the node reports in a block. */
  function ConfirmedNow(pending: seq<PendingTransaction>, query: string -> RawTxReply): seq<PendingTransaction> {
    if pending == [] then []
    else
      (if pending[0].status == Pending && InBlock(query(pending[0].id)) then [pending[0].(status := Confirmed)] else [])
      + ConfirmedNow(pending[1..], query)
  }

  /** The ids of the pending entries, in order: the transactions one pass asks the node about. */
  function PendingIds(pending: seq<PendingTransaction>): seq<string> {
    if pending == [] then []
    else (if pending[0].status == Pending then [pending[0].id] else []) + PendingIds(pending[1..])
  }

  /**
   * An entry is re-added exactly when it was pending and the node reports a
   * block hash for it, and it is re-added with status confirmed and nothing
   * else changed.
   */
  lemma {:induction false} ConfirmedNowExactly(pending: seq<PendingTransaction>, query: string -> RawTxReply, t: PendingTransaction)
    ensures t in ConfirmedNow(pending, query) <==>
      exists p :: p in pending && p.status == Pending && InBlock(query(p.id)) && t == p.(status := Confirmed)
  {
    if pending != [] {
      ConfirmedNowExactly(pending[1..], query, t);
      assert forall p :: p in pending <==> p == pending[0] || p in pending[1..];
    }
  }

  /** Only pending entries are polled. */
  lemma {:induction false} OnlyPendingPolled(pending: seq<PendingTransaction>, id: string)
    ensures id in PendingIds(pending) <==> exists p :: p in pending && p.status == Pending && p.id == id
  {
    if pending != [] {
      OnlyPendingPolled(pending[1..], id);
      assert forall p :: p in pending <==> p == pending[0] || p in pending[1..];
    }
  }

  // ---------------------------------------------------------------------
  // Session expiry
  // ---------------------------------------------------------------------

  /** Two hours in milliseconds. */
  const SessionLength := 1000 * 60 * 60 * 2

  /** The value of a decimal digit string. */
  function DigitsValue(s: string): nat
    requires forall i :: 0 <= i < |s| ==> '0' <= s[i] <= '9'
  {
    if s == [] then 0 else DigitsValue(s[..|s| - 1]) * 10 + (s[|s| - 1] as int - '0' as int)
  }

  /**
   * `Number(s)` for a stored login time: a non-empty digit string is its
   * value; anything else reads as NaN (`None`).
   */
  function NumberOf(s: string): (r: Option<nat>)
    ensures r.Some? <==> s != "" && forall i :: 0 <= i < |s| ==> '0' <= s[i] <= '9'
  {
    if s != "" && forall i :: 0 <= i < |s| ==> '0' <= s[i] <= '9' then Some(DigitsValue(s)) else None
  }

  /** Reading back a stored time gives the time that was stored. */
  lemma {:induction false} NumberOfStoredTime(n: nat)
    ensures NumberOf(NatToString(n)) == Some(n)
  {
    var s := NatToString(n);
    if n < 10 {
      assert s[..|s| - 1] == [];
    } else {
      NumberOfStoredTime(n / 10);
      assert s == NatToString(n / 10) + [Digit(n % 10)];
      assert s[..|s| - 1] == NatToString(n / 10);
      assert DigitsValue(s) == (n / 10) * 10 + n % 10;
    }
  }

  /** What one expiry check decides from the stored login time. */
  datatype ExpiryDecision = StartSession | Expire | Refresh

  function ExpiryCheck(loginTime: Option<string>, now: nat): (d: ExpiryDecision)
    ensures d == StartSession <==> loginTime.None? || loginTime.value == ""
    ensures d == Expire <==> loginTime.Some? && loginTime.value != "" && NumberOf(loginTime.value).Some?
                             && now - NumberOf(loginTime.value).value > SessionLength
  {
    if loginTime.None? || loginTime.value == "" then StartSession
    else match NumberOf(loginTime.value)
      case Some(t) => if now - t > SessionLength then Expire else Refresh
      case None => Refresh
  }

  /** A session checked within two hours of the time it stored is never locked. */
  lemma FreshSessionStaysOpen(start: nat, now: nat)
    requires now <= start + SessionLength
    ensures ExpiryCheck(Some(NatToString(start)), now) == Refresh
  {
    NumberOfStoredTime(start);
  }

  /** A session checked more than two hours after the time it stored is locked. */
  lemma StaleSessionExpires(start: nat, now: nat)
    requires now > start + SessionLength
    ensures ExpiryCheck(Some(NatToString(start)), now) == Expire
  {
    NumberOfStoredTime(start);
  }

  // ---------------------------------------------------------------------
  // The screen
  // ---------------------------------------------------------------------

  /** What `getAddressTxsExtApi` gives: the analysed transactions and the time taken, or a throw. */
  datatype FetchOutcome = Fetched(txs: seq<History.Analysis>, elapsed: int) | FetchFailed

  datatype HomeState = HomeState(
    walletAddress: string,
    unspent: seq<Unspent>,
    pendingTransactions: seq<PendingTransaction>,
    isLocked: bool,
    txsLoading: bool,
    explorerStatus: ConnectionStatus,
    explorerResponseTime: int,
    dapMessages: map<string, Dap.DapMessage>,
    added: seq<Transaction>,
    pendingAdded: seq<PendingTransaction>,
    loginTime: Option<string>,
    lockCalls: nat)

  /** Splitting the pending list splits both the polled ids and the confirmed copies. */
  lemma {:induction false} PollAppend(a: seq<PendingTransaction>, b: seq<PendingTransaction>, query: string -> RawTxReply)
    ensures PendingIds(a + b) == PendingIds(a) + PendingIds(b)
    ensures ConfirmedNow(a + b, query) == ConfirmedNow(a, query) + ConfirmedNow(b, query)
  {
    if a != [] {
      assert (a + b)[1..] == a[1..] + b;
      PollAppend(a[1..], b, query);
    } else {
      assert a + b == b;
    }
  }

  /**
   * The loop of `getPendingTxs`: asks the node about each pending entry in
   * order and collects a confirmed copy of those it reports in a block.
   */
  method PollPending(txs: seq<PendingTransaction>, query: string -> RawTxReply)
    returns (polled: seq<string>, added: seq<PendingTransaction>)
    ensures polled == PendingIds(txs)
    ensures added == ConfirmedNow(txs, query)
  {
    polled, added := [], [];
    var i := 0;
    while i < |txs|
      invariant 0 <= i <= |txs|
      invariant polled == PendingIds(txs[..i])
      invariant added == ConfirmedNow(txs[..i], query)
    {
      var tx := txs[i];
      assert txs[..i + 1] == txs[..i] + [tx];
      PollAppend(txs[..i], [tx], query);
      if tx.status == Pending {
        polled := polled + [tx.id];
        var reply := query(tx.id);
        if reply.RawTxFound? && reply.blockhash != "" {
          added := added + [tx.(status := Confirmed)];
        }
      }
      i := i + 1;
    }
    assert txs[..|txs|] == txs;
  }

  class WalletHome {
    var walletAddress: string
    var unspent: seq<Unspent>
    var pendingTransactions: seq<PendingTransaction>
    var isLocked: bool
    var txsLoading: bool
    var explorerStatus: ConnectionStatus
    var explorerResponseTime: int
    var dapMessages: map<string, Dap.DapMessage>
    /** The records passed to `addTransaction`, in order. */
    var added: seq<Transaction>
    /** The records passed to `addPendingTransaction`, in order. */
    var pendingAdded: seq<PendingTransaction>
    /** `localStorage['loginTime']`. */
    var loginTime: Option<string>
    /** The number of `lockWallet` calls. */
    var lockCalls: nat

    function State(): HomeState
      reads this
    {
      HomeState(walletAddress, unspent, pendingTransactions, isLocked, txsLoading, explorerStatus,
                explorerResponseTime, dapMessages, added, pendingAdded, loginTime, lockCalls)
    }

    constructor(address: string, utxos: seq<Unspent>, pending: seq<PendingTransaction>, locked: bool, stored: Option<string>)
      ensures State() == HomeState(address, utxos, pending, locked, false, Checking, 0, map[], [], [], stored, 0)
    {
      walletAddress := address;
      unspent := utxos;
      pendingTransactions := pending;
      isLocked := locked;
      txsLoading := false;
      explorerStatus := Checking;
      explorerResponseTime := 0;
      dapMessages := map[];
      added := [];
      pendingAdded := [];
      loginTime := stored;
      lockCalls := 0;
    }

    /**
     * `getTxs`.  The analysed records carry no raw transaction, so the DAP
     * pass finds nothing and the message map is reset to empty; the records
     * are added in the reverse of the explorer's order.
     */
    method GetTxs(outcome: FetchOutcome, parseTime: string -> int)
      modifies this
      ensures old(walletAddress) == "" || old(txsLoading) ==> State() == old(State())
      ensures old(walletAddress) != "" && !old(txsLoading) && outcome.FetchFailed? ==>
        State() == old(State()).(explorerStatus := Disconnected)
      ensures old(walletAddress) != "" && !old(txsLoading) && outcome.Fetched? && outcome.txs == [] ==>
        State() == old(State()).(explorerStatus := Connected, explorerResponseTime := outcome.elapsed)
      ensures old(walletAddress) != "" && !old(txsLoading) && outcome.Fetched? && outcome.txs != [] ==>
        && State() == old(State()).(explorerStatus := Connected, explorerResponseTime := outcome.elapsed,
                                   dapMessages := map[], added := added)
        && |added| == |old(added)| + |outcome.txs|
        && added[..|old(added)|] == old(added)
        && forall j :: 0 <= j < |outcome.txs| ==>
             added[|added| - 1 - j] == ToTransaction(outcome.txs[j], old(unspent), parseTime)
    {
      if walletAddress == "" || txsLoading {
        return;
      }
      txsLoading := true;
      explorerStatus := Checking;
      match outcome {
        case FetchFailed =>
          explorerStatus := Disconnected;
        case Fetched(txs, elapsed) =>
          explorerResponseTime := elapsed;
          explorerStatus := Connected;
          if txs != [] {
            dapMessages := map[];
            AddReversed(txs, parseTime);
          }
      }
      txsLoading := false;
    }

    /** The loop of `getTxs`: one `addTransaction` call per record, last record first. */
    method AddReversed(txs: seq<History.Analysis>, parseTime: string -> int)
      modifies this
      ensures State() == old(State()).(added := added)
      ensures |added| == |old(added)| + |txs|
      ensures added[..|old(added)|] == old(added)
      ensures forall j :: 0 <= j < |txs| ==> added[|added| - 1 - j] == ToTransaction(txs[j], unspent, parseTime)
    {
      var i := |txs|;
      while i > 0
        invariant 0 <= i <= |txs|
        invariant |added| == |old(added)| + (|txs| - i)
        invariant added[..|old(added)|] == old(added)
        invariant forall j :: i <= j < |txs| ==>
          added[|old(added)| + |txs| - 1 - j] == ToTransaction(txs[j], unspent, parseTime)
        invariant State() == old(State()).(added := added)
      {
        i := i - 1;
        added := added + [ToTransaction(txs[i], unspent, parseTime)];
      }
    }

    /**
     * `getPendingTxs`: asks the node about each pending entry in order and
     * re-adds, as confirmed, those it reports in a block.  Returns the ids asked about.
     */
    method GetPendingTxs(query: string -> RawTxReply) returns (polled: seq<string>)
      modifies this
      ensures polled == PendingIds(old(pendingTransactions))
      ensures State() == old(State()).(pendingAdded := old(pendingAdded) + ConfirmedNow(old(pendingTransactions), query))
    {
      var added;
      polled, added := PollPending(pendingTransactions, query);
      pendingAdded := pendingAdded + added;
    }

    /** `onLoginExpired`, run at time `now` (milliseconds). */
    method OnLoginExpired(now: nat)
      modifies this
      ensures old(isLocked) ==> State() == old(State())
      ensures !old(isLocked) ==> match ExpiryCheck(old(loginTime), now) {
        case StartSession => State() == old(State()).(loginTime := Some(NatToString(now)))
        case Expire => State() == old(State()).(loginTime := Some(""), lockCalls := old(lockCalls) + 1)
        case Refresh => State() == old(State()).(loginTime := Some(NatToString(now)))
      }
    {
      if !isLocked {
        match ExpiryCheck(loginTime, now) {
          case StartSession =>
            loginTime := Some(NatToString(now));
          case Expire =>
            loginTime := Some("");
            lockCalls := lockCalls + 1;
          case Refresh =>
            loginTime := Some(NatToString(now));
        }
      }
    }
  }
}
