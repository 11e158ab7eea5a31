/**
 * Records the wallet passes between its parts: unspent outputs, payment
 * lines, the wallet record kept inside the encrypted blob, the portable
 * wallet file, and JSON values with JavaScript truthiness.
 */
module WalletTypes {

  /** A spendable output of the wallet's address; `amount` is in whole SCASH. */
  datatype Unspent = Unspent(
    txid: string,
    vout: nat,
    amount: real,
    scriptPubKey: string,
    height: int,
    isUsable: bool,
    isHasMemPool: bool)

  /** One payment line: destination address and amount in whole SCASH. */
  datatype SendItem = SendItem(address: string, amount: real)

  /** The wallet record that is serialised and encrypted (`WalletFile`). */
  datatype WalletFile = WalletFile(
    mnemonic: string,
    path: string,
    address: string,
    privateKey: string,
    passwordHash: string)

  /** A JSON value; a key that is absent reads as JavaScript `undefined`. */
  datatype JsValue = JNull | JBool(b: bool) | JNum(n: real) | JStr(s: string) | JObject

  /** JavaScript truthiness of a JSON value (NaN does not arise from JSON). */
  predicate Truthy(v: JsValue) {
    match v
    case JNull => false
    case JBool(b) => b
    case JNum(n) => n != 0.0
    case JStr(s) => s != ""
    case JObject => true
  }

  /** The wallet summary the store keeps once a wallet exists. */
  datatype WalletInfo = WalletInfo(
    isHasWallet: bool,
    address: string,
    balance: real,
    lockBalance: real,
    memPoolLockBalance: real,
    usableBalance: real,
    encryptedWallet: JsValue)

  datatype PendingStatus = Pending | Confirmed

  /** A broadcast transaction awaiting confirmation. */
  datatype PendingTransaction = PendingTransaction(
    id: string,
    rawtx: string,
    totalInput: real,
    totalOutput: real,
    change: real,
    feeRate: real,
    pickUnspents: seq<Unspent>,
    sendListConfirm: seq<SendItem>,
    timestamp: int,
    status: PendingStatus)
}
