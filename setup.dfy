/**
 * The wallet-setup screen: creating a wallet from a fresh mnemonic (shown,
 * spot-checked on three words, protected by a password, downloaded) and
 * restoring one from a typed mnemonic or from an uploaded wallet file.
 * The mnemonic generator, key derivation, `Math.random` and the file reader
 * are parameters; the store's `setWallet`, the `onWalletCreated` callback,
 * downloads and toasts are recorded as fields.
 */
module Setup {
  import opened Wrappers
  import opened JsString
  import opened WalletTypes
  import Vault

  datatype SetupStep =
    | Welcome
    | CreateMnemonic
    | VerifyMnemonic
    | SetPassword
    | DownloadWallet
    | RestoreMethod
    | RestoreMnemonic
    | RestoreFile
    | RestorePassword

  /** A word the user must type again, with its 1-based position in the mnemonic. */
  datatype VerificationWord = VerificationWord(word: string, index: int)

  /** The notices the screen raises. */
  datatype Toast =
    | VerificationFailed
    | PasswordTooShort
    | PasswordsDontMatch
    | AddressGenerationFailed
    | NotEncrypted
    | WalletCreated
    | InvalidWalletFile
    | EnterPassword
    | InvalidPassword
    | InvalidMnemonic

  /** The key derived from a mnemonic along `Vault.AddressPath`: its P2WPKH address, if any, and its WIF. */
  datatype DerivedKey = DerivedKey(address: Option<string>, wif: string)

  /** What `JSON.parse` gives for the text of an uploaded file. */
  datatype FileParse = FileNotJson | FileNull | FileObject(data: JsValue, encrypted: JsValue, timestamp: JsValue)

  // ---------------------------------------------------------------------
  // Restoring from a typed mnemonic
  // ---------------------------------------------------------------------

  /** A character that may appear inside a normalised mnemonic word. */
  predicate WordChar(c: char) {
    !IsWhitespace(c) && !('A' <= c <= 'Z')
  }

  predicate SpaceOrWordChar(c: char) {
    c == ' ' || WordChar(c)
  }

  predicate WordOf(w: string) {
    w != [] && forall j :: 0 <= j < |w| ==> WordChar(w[j])
  }

  predicate EmptyOrWord(w: string) {
    w == [] || WordOf(w)
  }

  /** The phrase trimmed, whitespace runs collapsed to one space, and lower-cased. */
  function Cleaned(text: string): (r: string)
    ensures forall i :: 0 <= i < |r| ==> SpaceOrWordChar(r[i])
  {
    var collapsed := CollapseWhitespace(Trim(text));
    LowerCollapsed(collapsed);
    Lower(collapsed)
  }

  /** Lower-casing a string of spaces and non-whitespace leaves only spaces and word characters. */
  lemma LowerCollapsed(s: string)
    requires forall i :: 0 <= i < |s| ==> s[i] == ' ' || !IsWhitespace(s[i])
    ensures forall i :: 0 <= i < |Lower(s)| ==> SpaceOrWordChar(Lower(s)[i])
  {
    var r := Lower(s);
    forall i | 0 <= i < |r|
      ensures SpaceOrWordChar(r[i])
    {
      assert r[i] == LowerChar(s[i]);
    }
  }

  /** The space-separated pieces of a cleaned phrase are words or empty. */
  lemma PiecesAreWords(s: string)
    requires forall i :: 0 <= i < |s| ==> SpaceOrWordChar(s[i])
    ensures forall k :: 0 <= k < |Split(s, ' ')| ==> EmptyOrWord(Split(s, ' ')[k])
  {
    var pieces := Split(s, ' ');
    SplitAll(s, ' ', SpaceOrWordChar);
    forall k | 0 <= k < |pieces|
      ensures EmptyOrWord(pieces[k])
    {
      forall j | 0 <= j < |pieces[k]|
        ensures WordChar(pieces[k][j])
      {
        assert SpaceOrWordChar(pieces[k][j]);
        assert pieces[k][j] in pieces[k];
      }
    }
  }

  /** The words of a typed phrase: cleaned, split on spaces, empty pieces dropped. */
  function MnemonicWords(text: string): (words: seq<string>)
    ensures forall i :: 0 <= i < |words| ==> WordOf(words[i])
  {
    var pieces := Split(Cleaned(text), ' ');
    PiecesAreWords(Cleaned(text));
    NonEmptyAll(pieces, EmptyOrWord);
    NonEmpty(pieces)
  }

  /** `handleRestoreFromMnemonic`'s verdict: the normalised phrase when it has exactly twelve words. */
  function RestoredMnemonic(text: string): (r: Option<string>)
    ensures r.Some? <==> |MnemonicWords(text)| == 12
    ensures r.Some? ==> r.value == Join(MnemonicWords(text), " ")
  {
    var words := MnemonicWords(text);
    if |words| != 12 then None else Some(Join(words, " "))
  }

  /** Words joined by single spaces contain no other whitespace and no two spaces in a row. */
  lemma {:induction false} JoinedWordsSingleSpaced(words: seq<string>)
    requires |words| >= 1
    requires forall i :: 0 <= i < |words| ==> WordOf(words[i])
    ensures SingleSpaced(Join(words, " "))
  {
    if |words| > 1 {
      var w, tail := words[0], words[1..];
      JoinedWordsSingleSpaced(tail);
      var rest := Join(tail, " ");
      JoinEnds(tail, " ");
      var s := w + " " + rest;
      assert Join(words, " ") == s;
      forall i | 0 <= i < |s|
        ensures s[i] == ' ' || !IsWhitespace(s[i])
      {
        if i < |w| {
          assert s[i] == w[i] && WordChar(w[i]);
        } else if i > |w| {
          assert s[i] == rest[i - |w| - 1];
        }
      }
      forall i | 0 <= i < |s| - 1
        ensures !DoubleSpaceAt(s, i)
      {
        if i < |w| {
          assert s[i] == w[i] && WordChar(w[i]);
        } else if i == |w| {
          assert s[i + 1] == rest[0];
        } else {
          assert s[i] == rest[i - |w| - 1] && s[i + 1] == rest[i - |w|];
          assert !DoubleSpaceAt(rest, i - |w| - 1);
        }
      }
    }
  }

  /** A phrase with no outer whitespace, single spaces only and no capitals is already clean. */
  lemma CleanedNoop(s: string)
    requires s == [] || (!IsWhitespace(s[0]) && !IsWhitespace(s[|s| - 1]))
    requires SingleSpaced(s)
    requires forall i :: 0 <= i < |s| ==> !('A' <= s[i] <= 'Z')
    ensures Cleaned(s) == s
  {
    TrimNoop(s);
    CollapseNoop(s);
    LowerNoop(s);
  }

  /** Words joined by single spaces: no outer whitespace, single spaces only, no capitals. */
  lemma JoinedWordsShape(words: seq<string>)
    requires |words| >= 1
    requires forall i :: 0 <= i < |words| ==> WordOf(words[i])
    ensures var m := Join(words, " ");
      && m != [] && !IsWhitespace(m[0]) && !IsWhitespace(m[|m| - 1])
      && SingleSpaced(m)
      && forall i :: 0 <= i < |m| ==> !('A' <= m[i] <= 'Z')
  {
    var m := Join(words, " ");
    JoinEnds(words, " ");
    assert WordChar(words[0][0]) && WordChar(words[|words| - 1][|words[|words| - 1]| - 1]);
    JoinedWordsSingleSpaced(words);
    JoinAll(words, " ", SpaceOrWordChar);
    assert forall i :: 0 <= i < |m| ==> SpaceOrWordChar(m[i]);
  }

  /** Splitting words joined by single spaces gives the words back. */
  lemma JoinedWordsSplit(words: seq<string>)
    requires |words| >= 1
    requires forall i :: 0 <= i < |words| ==> WordOf(words[i])
    ensures Split(Join(words, " "), ' ') == words
  {
    forall i | 0 <= i < |words|
      ensures ' ' !in words[i]
    {
      assert forall j :: 0 <= j < |words[i]| ==> WordChar(words[i][j]);
    }
    SplitJoin(words, ' ');
  }

  /** Reading back words joined by single spaces gives the same words. */
  lemma MnemonicWordsOfJoined(words: seq<string>)
    requires |words| >= 1
    requires forall i :: 0 <= i < |words| ==> WordOf(words[i])
    ensures MnemonicWords(Join(words, " ")) == words
  {
    var m := Join(words, " ");
    JoinedWordsShape(words);
    CleanedNoop(m);
    JoinedWordsSplit(words);
    assert Split(Cleaned(m), ' ') == words;
    assert forall i :: 0 <= i < |words| ==> words[i] != [];
  }

  /** The phrase a restore stores is accepted again, unchanged: normalisation is idempotent. */
  lemma RestoredMnemonicStable(text: string)
    requires RestoredMnemonic(text).Some?
    ensures RestoredMnemonic(RestoredMnemonic(text).value) == RestoredMnemonic(text)
  {
    var words := MnemonicWords(text);
    MnemonicWordsOfJoined(words);
  }

  // ---------------------------------------------------------------------
  // The three-word check
  // ---------------------------------------------------------------------

  /** `Math.floor(r * n)` for a draw `r` of `Math.random()`. */
  function DrawIndex(r: real, n: nat): int {
    (r * n as real).Floor
  }

  /** `Math.random()` draws lie in [0, 1). */
  predicate ValidDraws(draws: seq<real>) {
    forall k :: 0 <= k < |draws| ==> 0.0 <= draws[k] < 1.0
  }

  /** The distinct indices the loop has collected after the first `k` draws; it stops at three. */
  function Collect(draws: seq<real>, n: nat, k: nat): seq<int>
    requires k <= |draws|
  {
    if k == 0 then []
    else
      var picked := Collect(draws, n, k - 1);
      if |picked| >= 3 then picked
      else
        var i := DrawIndex(draws[k - 1], n);
        if i in picked then picked else picked + [i]
  }

  lemma DrawIndexInRange(r: real, n: nat)
    requires 0.0 <= r < 1.0 && n > 0
    ensures 0 <= DrawIndex(r, n) < n
  {
    assert 0.0 <= r * n as real < n as real by {
      assert r * n as real <= 1.0 * n as real;
      assert r * n as real != n as real;
    }
  }

  /** At most three indices are collected, each a valid position, no two alike. */
  lemma {:induction false} CollectDistinctInRange(draws: seq<real>, n: nat, k: nat)
    requires ValidDraws(draws) && k <= |draws| && n > 0
    ensures |Collect(draws, n, k)| <= 3
    ensures forall i :: 0 <= i < |Collect(draws, n, k)| ==> 0 <= Collect(draws, n, k)[i] < n
    ensures forall i, j :: 0 <= i < j < |Collect(draws, n, k)| ==> Collect(draws, n, k)[i] != Collect(draws, n, k)[j]
  {
    if k > 0 {
      CollectDistinctInRange(draws, n, k - 1);
      DrawIndexInRange(draws[k - 1], n);
    }
  }

  /** Once three indices are collected, later draws change nothing. */
  lemma {:induction false} CollectStable(draws: seq<real>, n: nat, k: nat, k': nat)
    requires k <= k' <= |draws| && |Collect(draws, n, k)| >= 3
    ensures Collect(draws, n, k') == Collect(draws, n, k)
    decreases k' - k
  {
    if k < k' {
      CollectStable(draws, n, k, k' - 1);
    }
  }

  /** Distinct values in [0, n) number at most n. */
  lemma {:induction false} DistinctBounded(a: seq<int>, n: nat)
    requires forall i :: 0 <= i < |a| ==> 0 <= a[i] < n
    requires forall i, j :: 0 <= i < j < |a| ==> a[i] != a[j]
    ensures |a| <= n
    decreases n
  {
    if a != [] {
      assert 0 <= a[0] < n;
      if p :| 0 <= p < |a| && a[p] == n - 1 {
        var b := a[..p] + a[p + 1..];
        assert forall i :: 0 <= i < |b| ==> b[i] == if i < p then a[i] else a[i + 1];
        DistinctBounded(b, n - 1);
      } else {
        DistinctBounded(a, n - 1);
      }
    }
  }

  /** With fewer than three words three distinct indices never exist: the source's loop cannot end. */
  lemma FewWordsNeverComplete(draws: seq<real>, n: nat)
    requires ValidDraws(draws) && 0 < n < 3
    ensures |Collect(draws, n, |draws|)| < 3
  {
    CollectDistinctInRange(draws, n, |draws|);
    DistinctBounded(Collect(draws, n, |draws|), n);
  }

  /** The words shown for the picked indices, numbered from 1. */
  function Verification(words: seq<string>, picked: seq<int>): (v: seq<VerificationWord>)
    requires forall i :: 0 <= i < |picked| ==> 0 <= picked[i] < |words|
    ensures |v| == |picked|
    ensures forall i :: 0 <= i < |v| ==> v[i].index == picked[i] + 1 && v[i].word == words[v[i].index - 1]
  {
    seq(|picked|, i requires 0 <= i < |picked| => VerificationWord(words[picked[i]], picked[i] + 1))
  }

  /** `handleVerificationSubmit`'s test: each entry, lower-cased and trimmed, is its word lower-cased. */
  predicate VerificationPasses(expected: seq<VerificationWord>, entries: seq<string>) {
    forall i :: 0 <= i < |expected| ==> i < |entries| && Trim(Lower(entries[i])) == Lower(expected[i].word)
  }

  /** Lower-casing keeps whether a character is whitespace. */
  lemma LowerKeepsWhitespace(c: char)
    ensures IsWhitespace(LowerChar(c)) <==> IsWhitespace(c)
  {
  }

  /** Entries that are the words themselves pass, whatever their case, when the words carry no outer whitespace. */
  lemma MatchingEntriesPass(expected: seq<VerificationWord>, entries: seq<string>)
    requires |entries| >= |expected|
    requires forall i :: 0 <= i < |expected| ==> Lower(entries[i]) == Lower(expected[i].word)
    requires forall i :: 0 <= i < |expected| ==> Trim(expected[i].word) == expected[i].word
    ensures VerificationPasses(expected, entries)
  {
    forall i | 0 <= i < |expected|
      ensures Trim(Lower(entries[i])) == Lower(expected[i].word)
    {
      var w := expected[i].word;
      if w != [] {
        LowerKeepsWhitespace(w[0]);
        LowerKeepsWhitespace(w[|w| - 1]);
        assert !IsWhitespace(w[0]) && !IsWhitespace(w[|w| - 1]);
      }
      TrimNoop(Lower(w));
    }
  }

  /** The blank entries the check starts from never pass against a non-empty word. */
  lemma BlankEntriesFail(expected: seq<VerificationWord>)
    requires |expected| >= 1 && expected[0].word != []
    ensures !VerificationPasses(expected, ["", "", ""])
  {
    assert |Lower(expected[0].word)| == |expected[0].word|;
  }

  // ---------------------------------------------------------------------
  // Password, wallet record and wallet file
  // ---------------------------------------------------------------------

  datatype PasswordVerdict = TooShort | Mismatch | PasswordAccepted

  /** The length rule comes before the match rule. */
  function CheckPassword(password: string, confirm: string): (v: PasswordVerdict)
    ensures v == TooShort <==> |password| < 8
    ensures v == Mismatch <==> |password| >= 8 && password != confirm
    ensures v == PasswordAccepted <==> |password| >= 8 && password == confirm
  {
    if |password| < 8 then TooShort
    else if password != confirm then Mismatch
    else PasswordAccepted
  }

  /** The record written into a new wallet: the key is protected by the password's hash. */
  function CreatedRecord(p: Vault.Primitives, mnemonic: string, password: string, address: string, wif: string)
    : WalletFile
  {
    WalletFile(mnemonic, Vault.AddressPath, address, wif, Vault.PasswordMd5(p, password))
  }

  /** The wallet summary made for a new wallet: no balance, the record encrypted under the password hash. */
  function CreatedInfo(p: Vault.Primitives, mnemonic: string, password: string, address: string, wif: string)
    : (info: WalletInfo)
    ensures info.isHasWallet && info.address == address
    ensures info.balance == info.lockBalance == info.memPoolLockBalance == info.usableBalance == 0.0
    ensures info.encryptedWallet.JStr?
  {
    var record := CreatedRecord(p, mnemonic, password, address, wif);
    WalletInfo(true, address, 0.0, 0.0, 0.0, 0.0,
               JStr(Vault.EncryptWallet(p, record, Vault.PasswordMd5(p, password))))
  }

  /** `onRestorePassword`'s verdict for an uploaded blob: the restored summary, or `None` for "Invalid Password". */
  function Restore(p: Vault.Primitives, uploaded: JsValue, password: string): (r: Option<WalletInfo>)
    ensures r.Some? ==> uploaded.JStr?
    ensures r.Some? <==> uploaded.JStr? && Vault.DecryptWallet(p, uploaded.s, password).Decrypted?
                         && Vault.DecryptWallet(p, uploaded.s, password).wallet.Some?
    ensures r.Some? ==>
      var w := Vault.DecryptWallet(p, uploaded.s, password).wallet.value;
      r.value == WalletInfo(true, w.address, 0.0, 0.0, 0.0, 0.0, uploaded)
  {
    if !uploaded.JStr? then None
    else
      match Vault.DecryptWallet(p, uploaded.s, password)
      case Decrypted(Some(w)) => Some(WalletInfo(true, w.address, 0.0, 0.0, 0.0, 0.0, uploaded))
      case _ => None
  }

  /** A new wallet's blob opens with its password and yields the record with the mnemonic, path and hash. */
  lemma CreatedWalletOpens(p: Vault.Primitives, mnemonic: string, password: string, address: string, wif: string)
    requires Vault.Lawful(p)
    ensures var info := CreatedInfo(p, mnemonic, password, address, wif);
      Vault.DecryptWallet(p, info.encryptedWallet.s, password)
        == Vault.Decrypted(Some(WalletFile(mnemonic, Vault.AddressPath, address, wif, Vault.PasswordMd5(p, password))))
  {
    Vault.WalletRoundTrip(p, CreatedRecord(p, mnemonic, password, address, wif), password);
  }

  /** Restoring a new wallet's blob with its password gives back the same summary. */
  lemma CreateThenRestore(p: Vault.Primitives, mnemonic: string, password: string, address: string, wif: string)
    requires Vault.Lawful(p)
    ensures var info := CreatedInfo(p, mnemonic, password, address, wif);
      Restore(p, info.encryptedWallet, password) == Some(info)
  {
    CreatedWalletOpens(p, mnemonic, password, address, wif);
  }

  /** `handleRestoreFromFile`'s test: the blob when `data`, `encrypted` and `timestamp` are all truthy. */
  function AcceptedBlob(f: FileParse): (r: Option<JsValue>)
    ensures r.Some? <==> f.FileObject? && Truthy(f.data) && Truthy(f.encrypted) && Truthy(f.timestamp)
    ensures r.Some? ==> r.value == f.data
  {
    match f
    case FileObject(data, encrypted, timestamp) =>
      if Truthy(data) && Truthy(encrypted) && Truthy(timestamp) then Some(data) else None
    case _ => None
  }

  /** A file whose timestamp is 0 is refused. */
  lemma ZeroTimestampRejected(data: JsValue, encrypted: JsValue)
    ensures AcceptedBlob(FileObject(data, encrypted, JNum(0.0))) == None
  {
  }

  /** The file `downloadWalletFile` writes, with a non-empty blob and a non-zero clock, is accepted with that blob. */
  lemma DownloadedFileAccepted(blob: string, now: real)
    requires blob != [] && now != 0.0
    ensures AcceptedBlob(FileObject(JStr(blob), JBool(true), JNum(now))) == Some(JStr(blob))
  {
  }

  // ---------------------------------------------------------------------
  // Navigation
  // ---------------------------------------------------------------------

  /** Where each step's "back" button leads; download has none. */
  function BackTarget(step: SetupStep, mnemonic: string): (r: Option<SetupStep>)
    ensures step == SetPassword ==> (r == Some(VerifyMnemonic) <==> mnemonic != [])
    ensures step == SetPassword ==> (r == Some(RestoreMnemonic) <==> mnemonic == [])
    ensures r.None? <==> step in {Welcome, DownloadWallet}
  {
    match step
    case Welcome => None
    case CreateMnemonic => Some(Welcome)
    case VerifyMnemonic => Some(CreateMnemonic)
    case SetPassword => if mnemonic != [] then Some(VerifyMnemonic) else Some(RestoreMnemonic)
    case DownloadWallet => None
    case RestoreMethod => Some(Welcome)
    case RestoreMnemonic => Some(RestoreMethod)
    case RestoreFile => Some(RestoreMethod)
    case RestorePassword => Some(RestoreFile)
  }

  // ---------------------------------------------------------------------
  // The screen
  // ---------------------------------------------------------------------

  datatype SetupState = SetupState(
    step: SetupStep,
    showMnemonic: bool,
    password: string,
    confirmPassword: string,
    generatedMnemonic: string,
    verificationWords: seq<VerificationWord>,
    userVerification: seq<string>,
    walletFile: Option<string>,
    walletInfo: Option<WalletInfo>,
    uploadedWalletEncrypted: Option<JsValue>,
    storedWallet: Option<WalletInfo>,
    createdCalls: nat,
    downloads: seq<JsValue>,
    toasts: seq<Toast>)

  class WalletSetup {
    var step: SetupStep
    var showMnemonic: bool
    var password: string
    var confirmPassword: string
    var generatedMnemonic: string
    var verificationWords: seq<VerificationWord>
    var userVerification: seq<string>
    /** The text of the chosen file. */
    var walletFile: Option<string>
    var walletInfo: Option<WalletInfo>
    var uploadedWalletEncrypted: Option<JsValue>
    /** The summary last handed to the store's `setWallet`. */
    var storedWallet: Option<WalletInfo>
    /** How many times `onWalletCreated` was called. */
    var createdCalls: nat
    /** The blobs handed to `downloadWalletFile`, in order. */
    var downloads: seq<JsValue>
    var toasts: seq<Toast>

    function State(): SetupState
      reads this
    {
      SetupState(step, showMnemonic, password, confirmPassword, generatedMnemonic, verificationWords,
                 userVerification, walletFile, walletInfo, uploadedWalletEncrypted, storedWallet, createdCalls,
                 downloads, toasts)
    }

    constructor ()
      ensures State() == SetupState(Welcome, false, "", "", "", [], [], None, None, None, None, 0, [], [])
    {
      step, showMnemonic, password, confirmPassword, generatedMnemonic := Welcome, false, "", "", "";
      verificationWords, userVerification, walletFile, walletInfo := [], [], None, None;
      uploadedWalletEncrypted, storedWallet, createdCalls, downloads, toasts := None, None, 0, [], [];
    }

    method OnPasswordChange(text: string)
      modifies this
      ensures State() == old(State()).(password := text)
    {
      password := text;
    }

    method OnConfirmPasswordChange(text: string)
      modifies this
      ensures State() == old(State()).(confirmPassword := text)
    {
      confirmPassword := text;
    }

    /** The recovery-phrase box writes the mnemonic directly. */
    method OnMnemonicChange(text: string)
      modifies this
      ensures State() == old(State()).(generatedMnemonic := text)
    {
      generatedMnemonic := text;
    }

    /** One of the three word boxes. */
    method OnVerificationEntryChange(index: nat, text: string)
      requires index < |userVerification|
      modifies this
      ensures State() == old(State()).(userVerification := old(userVerification)[index := text])
    {
      userVerification := userVerification[index := text];
    }

    /** `handleCreateWallet`: `phrase` is the phrase the BIP-39 generator returns. */
    method HandleCreateWallet(phrase: string)
      modifies this
      ensures State() == old(State()).(showMnemonic := false, generatedMnemonic := phrase, step := CreateMnemonic)
    {
      showMnemonic := false;
      generatedMnemonic := phrase;
      step := CreateMnemonic;
    }

    /**
     * `handleVerifyMnemonic`: draws positions until three distinct ones are
     * found.  `draws` is the finite stream of `Math.random()` values; when it
     * runs out first, `completed` is false and nothing changes.
     */
    method HandleVerifyMnemonic(draws: seq<real>) returns (completed: bool)
      requires ValidDraws(draws)
      modifies this
      ensures var words := Split(old(generatedMnemonic), ' ');
        var picked := Collect(draws, |words|, |draws|);
        && (completed <==> |picked| == 3)
        && (completed ==>
              && (forall i :: 0 <= i < |picked| ==> 0 <= picked[i] < |words|)
              && State() == old(State()).(verificationWords := Verification(words, picked),
                                          userVerification := ["", "", ""], step := VerifyMnemonic))
        && (!completed ==> State() == old(State()))
    {
      var words := Split(generatedMnemonic, ' ');
      var randomIndices: seq<int> := [];
      var k := 0;
      while |randomIndices| < 3 && k < |draws|
        invariant k <= |draws| && randomIndices == Collect(draws, |words|, k)
        decreases |draws| - k
      {
        var randomIndex := DrawIndex(draws[k], |words|);
        if randomIndex !in randomIndices {
          randomIndices := randomIndices + [randomIndex];
        }
        k := k + 1;
      }
      CollectDistinctInRange(draws, |words|, k);
      if |randomIndices| < 3 {
        return false;
      }
      CollectStable(draws, |words|, k, |draws|);
      verificationWords := Verification(words, randomIndices);
      userVerification := ["", "", ""];
      step := VerifyMnemonic;
      completed := true;
    }

    method HandleVerificationSubmit()
      modifies this
      ensures VerificationPasses(verificationWords, userVerification) ==>
        State() == old(State()).(step := SetPassword)
      ensures !VerificationPasses(verificationWords, userVerification) ==>
        State() == old(State()).(toasts := old(toasts) + [VerificationFailed])
    {
      if VerificationPasses(verificationWords, userVerification) {
        step := SetPassword;
      } else {
        toasts := toasts + [VerificationFailed];
      }
    }

    /** `handlePasswordSubmit`: `derive(mnemonic)` is the key derived along `Vault.AddressPath`. */
    method HandlePasswordSubmit(p: Vault.Primitives, derive: string -> DerivedKey)
      modifies this
      ensures CheckPassword(old(password), old(confirmPassword)) == TooShort ==>
        State() == old(State()).(toasts := old(toasts) + [PasswordTooShort])
      ensures CheckPassword(old(password), old(confirmPassword)) == Mismatch ==>
        State() == old(State()).(toasts := old(toasts) + [PasswordsDontMatch])
      ensures CheckPassword(old(password), old(confirmPassword)) == PasswordAccepted ==>
        var key := derive(old(generatedMnemonic));
        && (key.address.None? ==> State() == old(State()).(toasts := old(toasts) + [AddressGenerationFailed]))
        && (key.address.Some? ==>
              State() == old(State()).(walletInfo := Some(CreatedInfo(p, old(generatedMnemonic), old(password),
                                                                      key.address.value, key.wif)),
                                       step := DownloadWallet))
    {
      if |password| < 8 {
        toasts := toasts + [PasswordTooShort];
        return;
      }
      if password != confirmPassword {
        toasts := toasts + [PasswordsDontMatch];
        return;
      }
      var passwordHash := Vault.PasswordMd5(p, password);
      var child := derive(generatedMnemonic);
      if child.address.None? {
        toasts := toasts + [AddressGenerationFailed];
        return;
      }
      var walletForFile := WalletFile(generatedMnemonic, Vault.AddressPath, child.address.value, child.wif,
                                      passwordHash);
      var encryptedWallet := Vault.EncryptWallet(p, walletForFile, passwordHash);
      walletInfo := Some(WalletInfo(true, child.address.value, 0.0, 0.0, 0.0, 0.0, JStr(encryptedWallet)));
      step := DownloadWallet;
    }

    method HandleDownloadWallet()
      modifies this
      ensures old(walletInfo).None? || !Truthy(old(walletInfo).value.encryptedWallet) ==>
        State() == old(State()).(toasts := old(toasts) + [NotEncrypted])
      ensures old(walletInfo).Some? && Truthy(old(walletInfo).value.encryptedWallet) ==>
        State() == old(State()).(downloads := old(downloads) + [old(walletInfo).value.encryptedWallet],
                                 storedWallet := old(walletInfo), toasts := old(toasts) + [WalletCreated],
                                 createdCalls := old(createdCalls) + 1)
    {
      if walletInfo.None? || !Truthy(walletInfo.value.encryptedWallet) {
        toasts := toasts + [NotEncrypted];
        return;
      }
      downloads := downloads + [walletInfo.value.encryptedWallet];
      storedWallet := walletInfo;
      toasts := toasts + [WalletCreated];
      createdCalls := createdCalls + 1;
    }

    /** `handleFileUpload`: `file` is the text of the first chosen file, if any. */
    method HandleFileUpload(file: Option<string>)
      modifies this
      ensures State() == old(State()).(walletFile := if file.Some? then file else old(walletFile))
    {
      if file.Some? {
        walletFile := file;
      }
    }

    /** `handleRestoreFromFile`: `parse` is `JSON.parse` on the file's text. */
    method HandleRestoreFromFile(parse: string -> FileParse)
      modifies this
      ensures old(walletFile).None? ==> State() == old(State())
      ensures old(walletFile).Some? ==>
        var blob := AcceptedBlob(parse(old(walletFile).value));
        && (blob.Some? ==> State() == old(State()).(uploadedWalletEncrypted := blob, step := RestorePassword))
        && (blob.None? ==> State() == old(State()).(toasts := old(toasts) + [InvalidWalletFile]))
    {
      if walletFile.None? {
        return;
      }
      var blob := AcceptedBlob(parse(walletFile.value));
      if blob.Some? {
        uploadedWalletEncrypted := blob;
        step := RestorePassword;
      } else {
        toasts := toasts + [InvalidWalletFile];
      }
    }

    method OnRestorePassword(p: Vault.Primitives)
      modifies this
      ensures old(password) == [] ==> State() == old(State()).(toasts := old(toasts) + [EnterPassword])
      ensures old(password) != [] && (old(uploadedWalletEncrypted).None? || !Truthy(old(uploadedWalletEncrypted).value)) ==>
        State() == old(State()).(toasts := old(toasts) + [InvalidWalletFile])
      ensures old(password) != [] && old(uploadedWalletEncrypted).Some? && Truthy(old(uploadedWalletEncrypted).value) ==>
        var restored := Restore(p, old(uploadedWalletEncrypted).value, old(password));
        && (restored.None? ==> State() == old(State()).(toasts := old(toasts) + [InvalidPassword]))
        && (restored.Some? ==> State() == old(State()).(walletInfo := restored, storedWallet := restored,
                                                        createdCalls := old(createdCalls) + 1))
    {
      if password == [] {
        toasts := toasts + [EnterPassword];
        return;
      }
      if uploadedWalletEncrypted.None? || !Truthy(uploadedWalletEncrypted.value) {
        toasts := toasts + [InvalidWalletFile];
        return;
      }
      var restored := Restore(p, uploadedWalletEncrypted.value, password);
      if restored.None? {
        toasts := toasts + [InvalidPassword];
        return;
      }
      walletInfo := restored;
      storedWallet := restored;
      createdCalls := createdCalls + 1;
    }

    method HandleRestoreFromMnemonic()
      modifies this
      ensures RestoredMnemonic(old(generatedMnemonic)).None? ==>
        State() == old(State()).(toasts := old(toasts) + [InvalidMnemonic])
      ensures RestoredMnemonic(old(generatedMnemonic)).Some? ==>
        State() == old(State()).(generatedMnemonic := RestoredMnemonic(old(generatedMnemonic)).value,
                                 step := SetPassword)
    {
      var restored := RestoredMnemonic(generatedMnemonic);
      if restored.None? {
        toasts := toasts + [InvalidMnemonic];
        return;
      }
      ghost var before := State();
      generatedMnemonic := restored.value;
      step := SetPassword;
      assert State() == before.(generatedMnemonic := restored.value, step := SetPassword);
    }

    /** The welcome screen's "restore" button. */
    method StartRestore()
      modifies this
      ensures State() == old(State()).(step := RestoreMethod)
    {
      step := RestoreMethod;
    }

    /** Choosing the recovery phrase clears the mnemonic. */
    method ChooseMnemonicRestore()
      modifies this
      ensures State() == old(State()).(step := RestoreMnemonic, generatedMnemonic := "")
    {
      step := RestoreMnemonic;
      generatedMnemonic := "";
    }

    method ChooseFileRestore()
      modifies this
      ensures State() == old(State()).(step := RestoreFile)
    {
      step := RestoreFile;
    }

    /** The "back" button of the current step; leaving the phrase box clears the mnemonic. */
    method Back()
      modifies this
      ensures BackTarget(old(step), old(generatedMnemonic)).None? ==> State() == old(State())
      ensures BackTarget(old(step), old(generatedMnemonic)).Some? ==>
        State() == old(State()).(step := BackTarget(old(step), old(generatedMnemonic)).value,
                                 generatedMnemonic := if old(step) == RestoreMnemonic then "" else old(generatedMnemonic))
    {
      var target := BackTarget(step, generatedMnemonic);
      if target.None? {
        return;
      }
      if step == RestoreMnemonic {
        generatedMnemonic := "";
      }
      step := target.value;
    }
  }
}
