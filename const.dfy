/**
 * Chain parameters of the SCASH network and of its test network, and the
 * address that receives the platform fee, both chosen by the build-time
 * flag NEXT_PUBLIC_BITCOIN_RPC_IS_TESTNET (`None` when the variable is unset).
 */
module Const {
  import opened Wrappers
  import JsString

  datatype Bip32Versions = Bip32Versions(publicVersion: int, privateVersion: int)

  datatype NetworkParams = NetworkParams(
    messagePrefix: string,
    bech32: string,
    bip32: Bip32Versions,
    pubKeyHash: int,
    scriptHash: int,
    wif: int)

  const Mainnet := NetworkParams("\U{18}Scash Signed Message:\n", "scash",
    Bip32Versions(0x0488b21e, 0x0488ade4), 0x3c, 0x7d, 0x80)

  const Testnet := NetworkParams("\U{18}Scash Signed Message:\n", "bcrt",
    Bip32Versions(0x0488b21e, 0x0488ade4), 0x3c, 0x7d, 0x80)

  // The fee addresses, written as bech32 human-readable part + separator '1' + data part.
  const FeeAddressMainnet := "scash" + "1" + "qdq0sa4wxav36k7a4gwxq3k6dk0ahpqfsz8xpvg"
  const FeeAddressTestnet := "bcrt" + "1" + "q8zlevurcf7ht49v7m83jz9v8uvqyturrg2w96t"

  /** The flag selects the test network only when it is exactly the string "true". */
  predicate IsTestnet(flag: Option<string>) {
    flag == Some("true")
  }

  function GetScashNetwork(flag: Option<string>): (p: NetworkParams)
    ensures p == Mainnet || p == Testnet
    ensures p == Testnet <==> flag == Some("true")
  {
    if IsTestnet(flag) then Testnet else Mainnet
  }

  function GetArrFeeAddress(flag: Option<string>): (a: string)
    ensures a == FeeAddressMainnet || a == FeeAddressTestnet
    ensures a == FeeAddressTestnet <==> flag == Some("true")
  {
    if IsTestnet(flag) then FeeAddressTestnet else FeeAddressMainnet
  }

  /** The two parameter records agree on every field except the bech32 prefix. */
  lemma NetworksDifferOnlyInPrefix()
    ensures Mainnet.bech32 != Testnet.bech32
    ensures Mainnet.(bech32 := Testnet.bech32) == Testnet
  {
  }

  /** The fee address of each network carries that network's bech32 prefix and separator. */
  lemma FeeAddressMatchesNetwork(flag: Option<string>)
    ensures JsString.StartsWith(GetArrFeeAddress(flag), GetScashNetwork(flag).bech32 + "1")
  {
    var a := GetArrFeeAddress(flag);
    if IsTestnet(flag) {
      assert a[..5] == "bcrt" + "1";
    } else {
      assert a[..6] == "scash" + "1";
    }
  }
}
