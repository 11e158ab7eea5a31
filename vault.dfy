/**
 * The encrypted wallet blob: the wallet record is serialised to JSON,
 * AES-encrypted under the MD5 hash of the password and hex-encoded.  The
 * cipher, the hash, the hex codec and JSON are the parameters `Primitives`;
 * `Lawful` states the laws the wrapper relies on.
 */
module Vault {
  import opened Wrappers
  import opened WalletTypes

  /** What `JSON.parse` gives for a decrypted wallet string. */
  datatype ParseOutcome = ParsedWallet(wallet: WalletFile) | ParsedNull | ParseError

  datatype Primitives = Primitives(
    md5: (string, string) -> string,
    encryptAes: (string, string, string) -> string,
    decryptAes: (string, string, string) -> string,
    stringToHex: string -> string,
    hexToString: string -> string,
    stringify: WalletFile -> string,
    parse: string -> ParseOutcome)

  /** decrypt undoes encrypt under the same salt and key, hex decoding undoes encoding, JSON round-trips. */
  ghost predicate Lawful(p: Primitives) {
    && (forall s, salt, key :: p.decryptAes(p.encryptAes(s, salt, key), salt, key) == s)
    && (forall s :: p.hexToString(p.stringToHex(s)) == s)
    && (forall w :: p.parse(p.stringify(w)) == ParsedWallet(w))
    && (forall w :: p.stringify(w) != "")
  }

  /** The cipher yields the empty string when the key is wrong, and distinct passwords hash apart. */
  ghost predicate RejectsWrongKey(p: Primitives) {
    && (forall s, salt, key, key' :: key != key' ==> p.decryptAes(p.encryptAes(s, salt, key), salt, key') == "")
    && (forall pw, pw' :: pw != pw' ==> p.md5(pw, "password") != p.md5(pw', "password"))
  }

  /** `ADDRESS_PATH`: the BIP-84 derivation path of the wallet's single key. */
  const AddressPath := "m/84'/0'/0'/0/0"

  /** `passwordMD5`. */
  function PasswordMd5(p: Primitives, password: string): (h: string)
    ensures RejectsWrongKey(p) ==> forall other :: p.md5(other, "password") == h ==> other == password
  {
    p.md5(password, "password")
  }

  /** `encryptWallet`: the key is the password hash the caller passes in, not the password. */
  function EncryptWallet(p: Primitives, wallet: WalletFile, passwordHash: string): (blob: string)
    ensures Lawful(p) ==> p.decryptAes(p.hexToString(blob), "walletFile", passwordHash) == p.stringify(wallet)
    ensures Lawful(p) ==> p.decryptAes(p.hexToString(blob), "walletFile", passwordHash) != ""
  {
    p.stringToHex(p.encryptAes(p.stringify(wallet), "walletFile", passwordHash))
  }

  /**
   * `decryptWallet`: an empty plaintext is a failure; a plaintext that is
   * not JSON makes the call throw; JSON `null` is a success without a wallet.
   */
  datatype DecryptResult = Decrypted(wallet: Option<WalletFile>) | DecryptFailed | DecryptThrows

  function DecryptWallet(p: Primitives, walletHex: string, password: string): (r: DecryptResult)
    ensures var plain := p.decryptAes(p.hexToString(walletHex), "walletFile", PasswordMd5(p, password));
      && (r.DecryptFailed? <==> plain == "")
      && (r.Decrypted? && r.wallet.Some? <==> plain != "" && p.parse(plain).ParsedWallet?)
      && (r.Decrypted? && r.wallet.Some? ==> p.parse(plain) == ParsedWallet(r.wallet.value))
      && (r == Decrypted(None) <==> plain != "" && p.parse(plain) == ParsedNull)
      && (r.DecryptThrows? <==> plain != "" && p.parse(plain) == ParseError)
  {
    var plain := p.decryptAes(p.hexToString(walletHex), "walletFile", PasswordMd5(p, password));
    if plain == "" then DecryptFailed
    else
      match p.parse(plain)
      case ParsedWallet(w) => Decrypted(Some(w))
      case ParsedNull => Decrypted(None)
      case ParseError => DecryptThrows
  }

  /** A blob made with the hash of a password opens with that password and yields the record. */
  lemma WalletRoundTrip(p: Primitives, wallet: WalletFile, password: string)
    requires Lawful(p)
    ensures DecryptWallet(p, EncryptWallet(p, wallet, PasswordMd5(p, password)), password)
            == Decrypted(Some(wallet))
  {
    var plain := p.stringify(wallet);
    var sealed := p.encryptAes(plain, "walletFile", PasswordMd5(p, password));
    assert p.hexToString(p.stringToHex(sealed)) == sealed;
    assert p.decryptAes(sealed, "walletFile", PasswordMd5(p, password)) == plain;
  }

  /** With a cipher that rejects wrong keys, a different password fails to open the blob. */
  lemma WrongPasswordFails(p: Primitives, wallet: WalletFile, password: string, other: string)
    requires Lawful(p) && RejectsWrongKey(p)
    requires other != password
    ensures DecryptWallet(p, EncryptWallet(p, wallet, PasswordMd5(p, password)), other) == DecryptFailed
  {
    var sealed := p.encryptAes(p.stringify(wallet), "walletFile", PasswordMd5(p, password));
    assert p.hexToString(p.stringToHex(sealed)) == sealed;
    assert PasswordMd5(p, password) != PasswordMd5(p, other);
  }
}
