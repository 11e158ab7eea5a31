# SCASH web wallet: a verified model of its bookkeeping core

This project is a Dafny model of the parts of the SCASH web wallet that do
sequential bookkeeping and validation. It also holds proofs of what those
parts promise. The wallet is a Next.js application: a browser wallet for the
SCASH coin, plus a few server routes that relay calls to SCASH nodes.

The model covers:

- amount arithmetic: satoshi conversions, the platform-fee brackets, the segwit fee estimate and address shortening;
- transaction assembly in `signTransaction`;
- classification of an address's history (`analyzeTransaction`);
- the encrypted wallet blob;
- the engrave (on-chain message) screen: fee total, coin selection, and the confirm-and-broadcast sequence;
- network parameters and fee addresses;
- the DAP message wrapper;
- the RPC endpoint parser and its fail-over loop;
- the raw-transaction relay route;
- the setup wizard;
- the home screen's signal bars, transaction mapping, pending polling and session expiry;
- the dashboard's polling and idle timers, and its navigation;
- the lock-screen gate;
- the language store.

Decimal arithmetic (decimal.js) is exact in the model: amounts are Dafny
`real`. `toFixed` rounding is written out as half-up rounding. Cryptography,
JSON, the network, the clock, randomness and the browser are parameters.
These are AES, MD5, hex, BIP32/39 key derivation, PSBT signing,
`fetch`/axios, `Date`, `Math.random`, timers and `localStorage`. The laws
the wallet relies on are stated as predicates over those parameters
(`Vault.Lawful`). Store actions whose bodies are not part of this model
(`addTransaction`, `addPendingTransaction`, `lockWallet`,
`createdWallet`/`setWalletInfo`, toasts, downloads) are recorded as the
sequence of calls made.

A component that keeps React state is a class. Its fields are the state
variables. `State()` bundles them into a datatype, and each handler states
its whole new state as `State() == old(State()).(…)`, often through a
specification function whose properties are proved as lemmas.

## Model

| member | source | states |
|---|---|---|
| Amounts.RoundHalfUp | lib/utils.ts:199-207 | `toFixed` rounding: within 1/2 of x, ties away from zero, sign kept, exact on integers |
| Amounts.Ceil | lib/utils.ts:228 | decimal.js `ceil`: the least integer not below x |
| Amounts.ScashToSat | lib/utils.ts:198-202 | `scashToSat` is within half a satoshi of amount·1e8, and exact for amounts with at most 8 decimals |
| Amounts.SatToScash | lib/utils.ts:205-207 | `satToScash` yields at most 8 decimals, within half a satoshi of the input; exact on whole satoshis; non-negative on non-negative input |
| Amounts.SatRoundTrip | lib/utils.ts:198-207 | scashToSat(satToScash(n)) = n for every integer n |
| Amounts.ScashRoundTrip | lib/utils.ts:198-207 | satToScash(scashToSat(x)) = x exactly when x has at most 8 decimals |
| Amounts.ScashToSatMonotone | lib/utils.ts:199-202 | the conversion never decreases |
| Amounts.ScashToSatAdditive | lib/utils.ts:199-202 | on whole-satoshi amounts the conversion commutes with + and − |
| Fees.CalcAppFee | lib/utils.ts:63-118 | the loop over `APP_FEE_ARR` returns the fee of the first half-open bracket [min, max) holding the amount, else 0; equals the threshold schedule |
| Fees.BracketsContiguous | lib/utils.ts:63-109 | the brackets start at 0, end at MAX_SAFE_INTEGER, are non-empty and each starts where the previous ends |
| Fees.BracketFeeAgrees | lib/utils.ts:110-118 | an amount lies in exactly one bracket, and the schedule gives that bracket's fee |
| Fees.BracketsIncreasing | lib/utils.ts:63-109 | earlier brackets lie wholly below later ones |
| Fees.OutsideBracketsNoFee | lib/utils.ts:110-118 | negative amounts and amounts ≥ MAX_SAFE_INTEGER are in no bracket and pay 0 |
| Fees.AppFeeMonotone | lib/utils.ts:63-118 | below MAX_SAFE_INTEGER the fee never decreases as the amount grows |
| Fees.AppFeeDropsAtMaxSafeInteger | lib/utils.ts:104-118 | the fee is 1.3 just below MAX_SAFE_INTEGER and 0 at it (see Findings) |
| Fees.AppFeeOpenEnded | lib/utils.ts:104-108 | the schedule with an unbounded last bracket: agrees below MAX_SAFE_INTEGER, 1.3 from 10000 on |
| Fees.AppFeeOpenEndedMonotone | lib/utils.ts:63-118 | the open-ended fee never decreases for any amounts |
| Fees.CalcFee | lib/utils.ts:216-233 | size = 10 + 68·inputs + 31·outputs; feeSat is the least integer ≥ size·satPerByte; feeScash·1e8 = feeSat |
| Fees.CalcFeeExample | lib/utils.ts:216-233 | (1 input, 2 outputs, 1 SCASH/kB) gives 140 vbytes, 14000000 sat, 0.14 SCASH |
| Fees.CalcFeeMonotone | lib/utils.ts:224-228 | more inputs or outputs never lower the fee at a non-negative rate |
| Display.HideString | lib/utils.ts:276-284 | strings of ≤ 4 characters are unchanged; otherwise the first 4, "...", and the last (up to) 6 |
| Display.HiddenLengthBounded | lib/utils.ts:276-284 | the shortened form has at most 13 characters and is shorter than any input over 13 |
| Display.HideStringForgetsMiddle | lib/utils.ts:280-283 | two strings (≥ 10 chars) sharing the first 4 and last 6 characters shorten alike |
| Vault.DecryptWallet | lib/utils.ts:131-147 | with `plain` the AES decryption of the hex-decoded blob under the password's MD5: failure iff `plain` is empty; otherwise a wallet iff `plain` parses to a wallet record (and it is that record), no wallet iff it parses to JSON `null`, and a throw iff it is not JSON |
| Vault.PasswordMd5 | lib/utils.ts:120-122 | the key is the MD5 of the password salted with "password"; when the hash separates passwords, no other password gives the same key |
| Vault.EncryptWallet | lib/utils.ts:124-129 | under lawful primitives, hex-decoding the blob and decrypting it under the same key gives back the wallet's JSON, which is never empty |
| Vault.WalletRoundTrip | lib/utils.ts:120-147 | under lawful primitives, a blob encrypted with the password's MD5 decrypts with that password to the same record |
| Vault.WrongPasswordFails | lib/utils.ts:131-140 | with a cipher that rejects wrong keys, another password fails to open the blob |
| SignTx.Psbt.constructor | lib/utils.ts:309 | an empty PSBT: no inputs, outputs or signatures |
| SignTx.Psbt.AddInput | lib/utils.ts:319-326 | appends the input iff the library accepts it (and reports whether it did); a rejected input adds nothing; nothing else changes |
| SignTx.Psbt.AddOutput | lib/utils.ts:330-350 | appends the output iff the library accepts it (and reports whether it did); a rejected output adds nothing; nothing else changes |
| SignTx.Psbt.SignInput | lib/utils.ts:364-366 | records the index as signed iff the signer succeeds |
| SignTx.Psbt.FinalizeAllInputs | lib/utils.ts:367 | finalised iff the backend finalises |
| SignTx.TxInputs | lib/utils.ts:318-327 | one input per unspent output |
| SignTx.PaymentOutputs | lib/utils.ts:329-334 | one output per payment line |
| SignTx.OnePerItem | lib/utils.ts:318-334 | input i spends unspent output i (txid, vout, script) at scashToSat(amount); payment output i pays line i at scashToSat(amount) |
| SignTx.NetworkFee | lib/utils.ts:296-300 | the computed `networkFee` is feeRate − appFee whether or not appFee is 0 |
| SignTx.SignOutcome | lib/utils.ts:288-392 | for a call that returns: totals are the input and payment sums; totalInput = totalOutput + change + feeRate; success iff every input signs and finalising succeeds; failure gives rawtx ''; success gives the hex of exactly the assembled inputs and outputs |
| SignTx.SignCallOf | lib/utils.ts:288-392 | the call throws iff the library rejects an input or an output, or signing and finalising succeed but the extraction fails; otherwise it returns `SignOutcome` |
| SignTx.SignTransaction | lib/utils.ts:288-392 | the call is `SignCallOf`; when it returns, the PSBT holds `TxInputs` and `TxOutputs` in order, and on success every input is signed, in order, and the PSBT is finalised |
| SignTx.AddInputs | lib/utils.ts:318-327 | succeeds iff the library accepts every input of `TxInputs`; the PSBT's inputs grow by the longest accepted prefix, which is all of them on success; outputs, signatures and finalisation are unchanged |
| SignTx.AddPayments | lib/utils.ts:329-334 | succeeds iff the library accepts every payment output; the PSBT's outputs grow by the longest accepted prefix of `PaymentOutputs`, which is all of them on success; inputs, signatures and finalisation are unchanged |
| SignTx.AddExtras | lib/utils.ts:335-351 | succeeds iff the library accepts the platform-fee output (when appFee ≠ 0) and the change output (when change > 0); the PSBT's outputs grow by a prefix of those, all of them on success; nothing else changes |
| SignTx.Assemble | lib/utils.ts:318-351 | from an empty PSBT: succeeds iff every input and output is accepted; the PSBT then holds exactly `TxInputs` and `TxOutputs`, and after a rejection a prefix of each |
| SignTx.SignAll | lib/utils.ts:364-366 | succeeds iff the key signs every input index; on success inputs 0 to count - 1 are signed in order |
| SignTx.TxOutputs | lib/utils.ts:329-351 | the payment outputs in order, then one fee-address output iff appFee ≠ 0, then one change output to myAddress iff change > 0 |
| SignTx.Change | lib/utils.ts:343 | total input = total payments + fee passed in + change; change is positive iff the inputs exceed payments plus fee |
| SignTx.InputValuesSum | lib/utils.ts:303-327 | with whole-satoshi amounts, the input values sum to scashToSat(totalInput) |
| SignTx.PaymentValuesSum | lib/utils.ts:306-334 | with whole-satoshi amounts, the payment values sum to scashToSat(totalOutput) |
| SignTx.SumOutputValuesAppend | lib/utils.ts:329-351 | output values add up over concatenation |
| SignTx.MinerFee | lib/utils.ts:296-351 | inputs − all outputs = scashToSat(feeRate − appFee) when change > 0; with no change output, the non-positive change is added on top |
| History.AnalyzeTransaction | lib/utils.ts:394-458 | isPositive iff the signed net ≥ 0; netAmount is satToScash of the absolute signed net (≥ 0, within half a satoshi); amount is satToScash of the negated net for an expense (negative when the change exceeds the sent total) and of the absolute net otherwise; txid, timestamp and confirmations are copied |
| History.Classify | lib/utils.ts:411-447 | the gross amount is the absolute net for every kind but expense, and the negated net for an expense, whose net is change − sent; a self transfer with a non-zero net has net received − sent |
| History.KindCharacterised | lib/utils.ts:411-447 | mining iff no senders and received > 0; self iff (sent > 0 iff received > 0); expense iff sent > 0 and nothing received; income iff senders exist, nothing sent and received > 0. Change plays no part |
| History.NetByKind | lib/utils.ts:419-447 | the signed net for each kind: received for mining and income, change − sent for expense, received − sent (or 0) for self |
| History.DisplayedNetIsExact | lib/utils.ts:449-457 | for whole-satoshi nets, (netAmount, isPositive) gives the signed net back exactly |
| History.MiningExample | lib/utils.ts:419-423 | a coinbase paying 5e9 sat to the address is mining of 50 SCASH |
| Const.GetScashNetwork | lib/const.ts:25-35 | the testnet record iff the flag is exactly 'true' |
| Const.GetArrFeeAddress | lib/const.ts:40-47 | the testnet fee address iff the flag is exactly 'true' |
| Const.NetworksDifferOnlyInPrefix | lib/const.ts:1-23 | mainnet and testnet differ in `bech32` and in nothing else |
| Const.FeeAddressMatchesNetwork | lib/const.ts:3-38 | each fee address starts with its network's human-readable part and '1' |
| Dap.OutputAddress | lib/dap.ts:77-95 | `scriptPubKey.address`, falling back to `address`; none iff both are missing or empty |
| Dap.DapOutputs | lib/dap.ts:76-79 | empty iff no output pays a DAP address |
| Dap.NormalOutputs | lib/dap.ts:94-97 | empty iff no output pays a non-DAP address |
| Dap.ParseDapMessage | lib/dap.ts:59-114 | a message iff a codec exists, some output pays a DAP address and the decoder returns non-empty text. Then content is the decoded text and isDap holds; isPureMessage iff no output pays a non-DAP address; isFromSelf iff the lower-cased addresses are equal |
| Dap.AddresslessOutputIgnored | lib/dap.ts:77-96 | an output without an address counts as neither DAP nor normal |
| Dap.AddresslessOutputsIrrelevant | lib/dap.ts:76-99 | appending an address-less output changes neither filter |
| Dap.FormatDapPreview | lib/dap.ts:117-121 | '' for empty input; unchanged when within the limit (50 when none is given); else the first max characters and '...' |
| Dap.DefaultPreviewLimit | lib/dap.ts:117-121 | with the default limit: a message of at most 50 characters is shown unchanged, a longer one as its first 50 characters and '...' |
| Dap.PreviewBounded | lib/dap.ts:117-121 | the preview is at most max + 3 long and keeps the message's first max characters |
| Dap.DapCodecParams | lib/dap.ts:34-41 | the codec always uses the 'scash' prefix |
| Dap.DapParamsIgnoreTestnet | lib/dap.ts:34-41 | the codec's parameters match the selected network iff the network is mainnet |
| BitcoinRpc.TrimAll | lib/server/bitcoinRpc.ts:25 | each entry trimmed, length and order kept |
| BitcoinRpc.ParseEntry | lib/server/bitcoinRpc.ts:27-32 | accepted iff exactly three '\|'-pieces, each non-empty before trimming; the endpoint is the trimmed pieces; otherwise the entry's format error |
| BitcoinRpc.ParseEntries | lib/server/bitcoinRpc.ts:23-33 | succeeds iff no entry is malformed (`FirstMalformed` is past the end), keeping order and trimming each part; otherwise the error names the first malformed entry |
| BitcoinRpc.FirstMalformed | lib/server/bitcoinRpc.ts:27-30 | the index of the first entry that is not three non-empty `\|`-separated parts: every earlier entry parses and the one there does not |
| BitcoinRpc.ParseEntriesAll | lib/server/bitcoinRpc.ts:23-33 | the entries parse iff every single entry parses |
| BitcoinRpc.EndpointsOf | lib/server/bitcoinRpc.ts:23-39 | success iff some entry is left and none is malformed, and then each endpoint is the parse of its entry, in order, with the timeout; otherwise the no-endpoints error exactly when no entry is left, or the first malformed entry's error; never the missing-endpoints error |
| BitcoinRpc.GetEnv | lib/server/bitcoinRpc.ts:14-40 | a missing or blank string is the missing-endpoints error; an empty list after parsing is the no-endpoints error; the timeout defaults to 8000 |
| BitcoinRpc.SerializedEntry | lib/server/bitcoinRpc.ts:27-32 | a well-formed endpoint written as url\|user\|password parses back to itself |
| BitcoinRpc.SerializedShape | lib/server/bitcoinRpc.ts:24-32 | a serialized well-formed endpoint is non-empty, has no surrounding whitespace and contains no comma, so it survives the split on commas and the trim |
| BitcoinRpc.SerializedJoinTrimmed | lib/server/bitcoinRpc.ts:16 | the comma-joined serialization of a non-empty endpoint list is non-empty and unchanged by the trim |
| BitcoinRpc.SerializedEntries | lib/server/bitcoinRpc.ts:23-33 | one serialised entry per endpoint |
| BitcoinRpc.EntriesOfSerialized | lib/server/bitcoinRpc.ts:16-26 | the comma-joined serialisation splits back into the serialised entries |
| BitcoinRpc.SerializedEntriesPlain | lib/server/bitcoinRpc.ts:24-26 | serialised entries are non-empty, comma-free and already trimmed |
| BitcoinRpc.TrimAllNoop | lib/server/bitcoinRpc.ts:25 | trimming trimmed entries changes nothing |
| BitcoinRpc.ParseSerialized | lib/server/bitcoinRpc.ts:23-33 | parsing the serialised entries gives back the endpoints |
| BitcoinRpc.GetEnvRoundTrip | lib/server/bitcoinRpc.ts:14-40 | the configuration string of any non-empty list of well-formed endpoints parses to exactly that list |
| BitcoinRpc.BlankPieceAccepted | lib/server/bitcoinRpc.ts:29-32 | a whitespace-only user piece passes the check and becomes an empty user |
| BitcoinRpc.StepFor | lib/server/bitcoinRpc.ts:66-100 | per endpoint: done iff an ok JSON reply without error; rethrow iff the JSON carries an error object, whatever the status; otherwise recorded, with 504 on abort and the HTTP status on non-JSON or HTTP errors |
| BitcoinRpc.Failover | lib/server/bitcoinRpc.ts:53-107 | endpoints are tried in order and every earlier one failed over; the last contacted gave the result or the rethrown error; the 502 error with all attempts joined by ' ; ' comes exactly when all failed over |
| BitcoinRpc.CallBitcoinRpc | lib/server/bitcoinRpc.ts:42-107 | a configuration error contacts nobody; otherwise the fail-over contract, with the override timeout taking precedence |
| BitcoinRpc.RpcErrorIsNotRetried | lib/server/bitcoinRpc.ts:74-98 | a JSON error object is rethrown even on an HTTP error status |
| BitcoinRpc.AttemptsInOrder | lib/server/bitcoinRpc.ts:94-100 | the recorded attempts are the failed endpoints in order, with their messages and status codes |
| SendRawTx.ExtractRawtx | app/api/sendrawtransaction/route.ts:9-18 | a non-JSON body gives its trimmed text as a string; from a JSON body, nothing iff it did not parse or none of `rawtx`, `hex`, `txHex` holds a non-null value, and otherwise the value of the first that does, `rawtx` taking precedence |
| SendRawTx.FirstPresent | app/api/sendrawtransaction/route.ts:14 | the first of the keys whose value is neither null nor missing, or none |
| SendRawTx.RpcResponse | app/api/sendrawtransaction/route.ts:30-38 | ok iff the node call succeeded; errors map to their status code, else 500 |
| SendRawTx.Post | app/api/sendrawtransaction/route.ts:7-39 | a missing or falsy rawtx gives 400; a string that is not hex after removing whitespace gives 400; exactly the cleaned hex string is forwarded and the node's answer mapped |
| SendRawTx.ForwardedIsCleanHex | app/api/sendrawtransaction/route.ts:25-30 | what reaches the node is non-empty hex without whitespace |
| SendRawTx.EmptyRawtxShadowsHex | app/api/sendrawtransaction/route.ts:14-22 | an empty `rawtx` beside a valid `hex` still gives 400 |
| SendRawTx.NullRawtxFallsBackToHex | app/api/sendrawtransaction/route.ts:14 | a null `rawtx` falls back to `hex` |
| SendRawTx.RemoveWhitespaceKeeps | app/api/sendrawtransaction/route.ts:25 | removing whitespace leaves whitespace-free text unchanged |
| Engrave.MakeDapInfo | components/wallet-engrave.tsx:94-104 | one display output per codec output, with amount = value/1e8 and the same address; chunkCount is the output count; dapAmount·1e8 is the sum of values |
| Engrave.DapAmountIsSumOfOutputs | components/wallet-engrave.tsx:95-104 | dapAmount equals the sum of the displayed output amounts |
| Engrave.EngraveNetworkFee | components/wallet-engrave.tsx:117-121 | the network fee is calcFee's fee for the selection's inputs and DAP outputs + 2 |
| Engrave.EligibleOf | components/wallet-engrave.tsx:138-142 | only outputs neither in the mempool nor unusable |
| Engrave.EligibleOfPrefix | components/wallet-engrave.tsx:138-142 | filtering a prefix yields a prefix of the filtered list |
| Engrave.SelectionUnique | components/wallet-engrave.tsx:138-154 | the selection property determines at most one sequence |
| Engrave.SelectUnspents | components/wallet-engrave.tsx:128-155 | the picked outputs are the shortest eligible prefix reaching the required amount, dropping the last falls below it, and nothing is picked when the whole traversal stays below |
| Engrave.EngraveScreen.constructor | components/wallet-engrave.tsx:43-61 | the form step with an empty text, no DAP info, app fee 0.05 and zero fees |
| Engrave.EngraveScreen.SetEngraveText | components/wallet-engrave.tsx:504 | only the text changes |
| Engrave.EngraveScreen.SetPassword | components/wallet-engrave.tsx:433-436 | the password becomes the text and any password error is cleared; nothing else changes |
| Engrave.EngraveScreen.LoadBaseFee | components/wallet-engrave.tsx:63-78 | the fetched base fee, or the old one when the fetch fails |
| Engrave.EngraveScreen.UpdateDapInfo | components/wallet-engrave.tsx:80-109 | blank text clears DAP info and the total; otherwise DAP info from the codec's outputs, or none when the codec is missing or throws |
| Engrave.EngraveScreen.UpdateFees | components/wallet-engrave.tsx:111-126 | without DAP info or base fee both fees are 0; else the network fee from `calcFee` and total = dapAmount + network fee + app fee |
| Engrave.EngraveScreen.UpdateSelection | components/wallet-engrave.tsx:128-155 | runs only on the form step with a base fee, a total and DAP info, and then stores the selection for the required amount dapAmount + networkFee + appFee |
| Engrave.EngraveScreen.HandleSendToConfirm | components/wallet-engrave.tsx:157-162 | the confirm step only with a non-empty selection and DAP info |
| Engrave.EngraveScreen.HandlePasswordSubmit | components/wallet-engrave.tsx:164-171 | an empty password sets the input error; otherwise the error clears and the dialog opens |
| Engrave.EngraveScreen.HandleConfirmTransaction | components/wallet-engrave.tsx:175-282 | the new state is `AfterConfirm` of the old one, and the outcome satisfies `ConfirmDecided` on the old state: no DAP info, a wrong password, a non-JSON decryption and a null wallet each stop before signing, each iff its condition holds; signing uses feeRate = networkFee + appFee; a throwing `signTransaction` leaves the dialog open and the loading flag set; a failed signature, a broadcast error or a missing txid adds nothing; success adds exactly one pending record (txid, rawtx, totals, consumed outputs, DAP outputs, status pending) |
| Engrave.EngraveScreen.DecideConfirm | components/wallet-engrave.tsx:177-260 | the outcome satisfies `ConfirmDecided` on the current fields, and no field changes |
| Engrave.AfterConfirmSetsLoading | components/wallet-engrave.tsx:176-280 | every outcome sets the loading flag, so setting it first makes no difference to the final state |
| Engrave.EngraveScreen.SignAndBroadcast | components/wallet-engrave.tsx:196-260 | the outcome satisfies `SignDecided`: the signing call is `SignCallOf` with feeRate = networkFee + appFee, and its outcome is decided by `CallDecided` |
| Engrave.EngraveScreen.Sign | components/wallet-engrave.tsx:205 | the screen's call of `signTransaction` throws or returns exactly as `SignCallOf` says |
| Engrave.EngraveScreen.DecideBroadcast | components/wallet-engrave.tsx:205-260 | a throwing `signTransaction` iff the call threw; otherwise failure iff signing failed, a pending record iff the broadcast returns a non-empty txid, and a rejection's code and message passed through |
| Engrave.EngraveScreen.Conclude | components/wallet-engrave.tsx:178-281 | the field updates each outcome makes |
| Engrave.EngraveScreen.SetFlags | components/wallet-engrave.tsx:185-192 | only the dialog and loading flags change, to the given values |
| Engrave.EngraveScreen.RecordPending | components/wallet-engrave.tsx:262-265 | the record is appended to the pending list and shown, the step becomes success and the password is cleared; nothing else changes |
| Setup.Cleaned | components/wallet-setup.tsx:293 | after trimming, collapsing and lower-casing, only spaces and non-whitespace, non-capital characters remain |
| Setup.PiecesAreWords | components/wallet-setup.tsx:293-294 | splitting the cleaned phrase on ' ' yields only empty pieces or words |
| Setup.MnemonicWords | components/wallet-setup.tsx:293-294 | every word is non-empty, lower-case and free of whitespace |
| Setup.RestoredMnemonic | components/wallet-setup.tsx:292-311 | accepted iff exactly 12 words; the stored phrase is the words joined by single spaces |
| Setup.JoinedWordsSingleSpaced | components/wallet-setup.tsx:309 | joined words have single spaces only |
| Setup.CleanedNoop | components/wallet-setup.tsx:293 | cleaning a trimmed, single-spaced, lower-case phrase changes nothing |
| Setup.JoinedWordsShape | components/wallet-setup.tsx:309 | joined words have no outer whitespace, single spaces only and no capitals |
| Setup.JoinedWordsSplit | components/wallet-setup.tsx:294-309 | splitting joined words on ' ' gives the words back |
| Setup.RestoredMnemonicStable | components/wallet-setup.tsx:292-311 | restoring the stored phrase again yields the same phrase |
| Setup.MnemonicWordsOfJoined | components/wallet-setup.tsx:292-311 | splitting a space-joined list of non-blank lowercase words yields the same words |
| Setup.DrawIndexInRange | components/wallet-setup.tsx:89-90 | floor(random·n) lies in [0, n) |
| Setup.CollectDistinctInRange | components/wallet-setup.tsx:87-95 | at most three indices are collected, all distinct and in range |
| Setup.CollectStable | components/wallet-setup.tsx:88 | once three indices are held, further draws change nothing |
| Setup.DistinctBounded | components/wallet-setup.tsx:88-93 | distinct indices below n number at most n |
| Setup.FewWordsNeverComplete | components/wallet-setup.tsx:88-93 | with fewer than three words the loop never collects three indices |
| Setup.Verification | components/wallet-setup.tsx:97-100 | each picked index is shown 1-based with its word |
| Setup.LowerKeepsWhitespace | components/wallet-setup.tsx:107 | lower-casing keeps whitespace as whitespace |
| Setup.MatchingEntriesPass | components/wallet-setup.tsx:105-117 | entries equal to their words up to case pass |
| Setup.BlankEntriesFail | components/wallet-setup.tsx:105-117 | blank entries fail when a word is expected |
| Setup.CheckPassword | components/wallet-setup.tsx:119-130 | too short iff under 8 characters, checked before a mismatch; accepted iff long enough and equal to the confirmation |
| Setup.CreatedInfo | components/wallet-setup.tsx:138-176 | the new wallet has zero balances, the derived address and an encrypted string blob |
| Setup.Restore | components/wallet-setup.tsx:254-277 | a wallet iff the blob is a string that decrypts to a record; then zero balances, the record's address and the uploaded blob unchanged |
| Setup.CreatedWalletOpens | components/wallet-setup.tsx:138-164 | the created blob opens with the password to {mnemonic, ADDRESS_PATH, address, WIF, password hash} |
| Setup.CreateThenRestore | components/wallet-setup.tsx:138-277 | restoring the created blob with its password gives back the created wallet info |
| Setup.AcceptedBlob | components/wallet-setup.tsx:216-227 | a file is accepted iff data, encrypted and timestamp are all truthy; the blob is `data` |
| Setup.ZeroTimestampRejected | components/wallet-setup.tsx:218 | a zero timestamp is rejected |
| Setup.DownloadedFileAccepted | components/wallet-setup.tsx:155-227 | a file such as the download writes, with a non-empty blob and non-zero time, is accepted |
| Setup.BackTarget | components/wallet-setup.tsx:460-808 | from set-password back goes to verify-mnemonic iff a mnemonic exists, else to restore-mnemonic; only welcome and download have no back button |
| Setup.WalletSetup.constructor | components/wallet-setup.tsx:66-76 | the welcome step with empty fields |
| Setup.WalletSetup.OnPasswordChange | components/wallet-setup.tsx:543 | only the password changes |
| Setup.WalletSetup.OnConfirmPasswordChange | components/wallet-setup.tsx:567 | only the confirmation changes |
| Setup.WalletSetup.OnMnemonicChange | components/wallet-setup.tsx:687 | only the mnemonic changes |
| Setup.WalletSetup.OnVerificationEntryChange | components/wallet-setup.tsx:489-493 | only the one entry changes |
| Setup.WalletSetup.HandleCreateWallet | components/wallet-setup.tsx:78-83 | stores the new phrase, hides it and goes to create-mnemonic |
| Setup.WalletSetup.HandleVerifyMnemonic | components/wallet-setup.tsx:85-103 | completes iff three distinct indices are drawn; then the 1-based words, three blank entries and the verify step |
| Setup.WalletSetup.HandleVerificationSubmit | components/wallet-setup.tsx:105-117 | set-password iff the entries pass, else a failure toast |
| Setup.WalletSetup.HandlePasswordSubmit | components/wallet-setup.tsx:119-179 | too-short and mismatch toasts come before derivation; derivation without an address toasts; otherwise the created wallet info and the download step |
| Setup.WalletSetup.HandleDownloadWallet | components/wallet-setup.tsx:181-201 | without a truthy blob a toast; else one download of the blob, the wallet stored and created once |
| Setup.WalletSetup.HandleFileUpload | components/wallet-setup.tsx:203-208 | a chosen file replaces the held one; no file keeps it |
| Setup.WalletSetup.HandleRestoreFromFile | components/wallet-setup.tsx:210-237 | no file does nothing; an accepted file stores its blob and goes to restore-password; otherwise an invalid-file toast |
| Setup.WalletSetup.OnRestorePassword | components/wallet-setup.tsx:239-290 | an empty password toasts; a missing blob toasts; a failed restore toasts; success stores the restored info once |
| Setup.WalletSetup.HandleRestoreFromMnemonic | components/wallet-setup.tsx:292-311 | stores the normalised phrase and goes to set-password iff it has 12 words, else a toast |
| Setup.WalletSetup.StartRestore | components/wallet-setup.tsx:388 | goes to restore-method |
| Setup.WalletSetup.ChooseMnemonicRestore | components/wallet-setup.tsx:638-642 | goes to restore-mnemonic and clears the mnemonic |
| Setup.WalletSetup.ChooseFileRestore | components/wallet-setup.tsx:651 | goes to restore-file |
| Setup.WalletSetup.Back | components/wallet-setup.tsx:460-808 | moves to `BackTarget`, clearing the mnemonic when leaving restore-mnemonic |
| Home.SignalFor | components/wallet-home.tsx:133-175 | 0 bars iff disconnected or checking; when connected, 3 bars iff < 500 ms, 2 iff 500–1499 ms, 1 from 1500 ms, and the label carries the time |
| Home.BarsNeverIncrease | components/wallet-home.tsx:142-154 | a slower response never shows more bars |
| Home.ExplorerAndNodeAgree | components/wallet-home.tsx:133-175 | the explorer and node indicators agree except for the checking label |
| Home.FindUnspent | components/wallet-home.tsx:91 | none iff no output has the txid; otherwise the first output with it |
| Home.DisplayType | components/wallet-home.tsx:92 | receive iff income or mining |
| Home.ToTransaction | components/wallet-home.tsx:90-120 | the txid and parsed time; send amounts are −netAmount and receive amounts +netAmount; pending only for an unusable unspent output of the txid; height from that output, else 0 and confirmed |
| Home.DisplayedSign | components/wallet-home.tsx:92-99 | a received entry raises the balance and shows a non-negative amount; a sent entry shows a non-positive amount |
| Home.ConfirmedNowExactly | components/wallet-home.tsx:177-198 | an entry is re-added iff it was pending and the node reports a block hash, and it is re-added as confirmed with nothing else changed |
| Home.OnlyPendingPolled | components/wallet-home.tsx:192-197 | the node is asked about exactly the pending entries |
| Home.NumberOf | components/wallet-home.tsx:211 | a value iff the stored time is a non-empty digit string |
| Home.NumberOfStoredTime | components/wallet-home.tsx:205-215 | reading a stored time back gives that time |
| Home.ExpiryCheck | components/wallet-home.tsx:201-217 | start a session iff no time is stored; expire iff the stored time is a number and more than 2 h (7200000 ms) old |
| Home.FreshSessionStaysOpen | components/wallet-home.tsx:210-216 | a session checked within 2 h of its stored time is refreshed |
| Home.StaleSessionExpires | components/wallet-home.tsx:210-214 | a session checked over 2 h after its stored time locks |
| Home.WalletHome.constructor | components/wallet-home.tsx:36-47 | checking status, no messages, no calls made |
| Home.WalletHome.GetTxs | components/wallet-home.tsx:51-131 | no address or a running load does nothing; a failed fetch marks disconnected; otherwise connected with the response time, and for a non-empty list the DAP map is reset and one record per entry is added, last entry first |
| Home.WalletHome.AddReversed | components/wallet-home.tsx:89-122 | the added records are `ToTransaction` of the entries in reverse order, and nothing else changes |
| Home.WalletHome.GetPendingTxs | components/wallet-home.tsx:177-198 | polls the pending ids in order and re-adds exactly the confirmed copies |
| Home.PollPending | components/wallet-home.tsx:192-198 | the loop visits exactly the pending entries, in order, and collects exactly their confirmed copies |
| Home.PollAppend | components/wallet-home.tsx:192-198 | polling a concatenation is polling each part in turn |
| Home.WalletHome.OnLoginExpired | components/wallet-home.tsx:201-217 | nothing while locked; otherwise stores now, or clears the time and locks once, as `ExpiryCheck` decides |
| Dashboard.Initial | components/wallet-dashboard.tsx:21-46 | the initial state is well-formed and nothing polls |
| Dashboard.StartedPolls | components/wallet-dashboard.tsx:48-68 | after starting, both intervals run at the network's periods (50 s / 3 min mainnet, 10 s / 30 s testnet), and existing ones are kept |
| Dashboard.StartWalletPolls | components/wallet-dashboard.tsx:58-62 | the wallet interval is live at its period afterwards; an existing one is kept; only the timers, the id counter and the wallet ref change |
| Dashboard.StartChainPolls | components/wallet-dashboard.tsx:63-67 | the chain interval is live at its period afterwards; an existing one is kept along with the wallet interval; only the timers, the id counter and the chain ref change |
| Dashboard.StartIdempotent | components/wallet-dashboard.tsx:58-67 | starting twice equals starting once |
| Dashboard.StopEffect | components/wallet-dashboard.tsx:70-82 | on mainnet no polling timer is left; on testnet nothing changes |
| Dashboard.UnmountedWellformed | components/wallet-dashboard.tsx:115-120 | unmounting keeps the state well-formed and leaves no idle timeout; on mainnet nothing polls |
| Dashboard.IdleResetArms | components/wallet-dashboard.tsx:84-95 | exactly one idle timeout of 4 min is live afterwards, and polling is untouched |
| Dashboard.IdleStopsPolling | components/wallet-dashboard.tsx:88-93 | when it fires the dashboard is idle, and on mainnet polling has stopped |
| Dashboard.ActivityResumes | components/wallet-dashboard.tsx:97-105 | activity while idle refreshes both data sets once and restarts polling; any activity clears idle and re-arms the timeout |
| Dashboard.TestnetUnmountKeepsPolling | components/wallet-dashboard.tsx:70-122 | on testnet, unmounting leaves both intervals running |
| Dashboard.Navigate | components/wallet-dashboard.tsx:127-132 | the view always changes; the tab changes only for home, assets, buy, sell or trade |
| Dashboard.NavigationKeepsTab | components/wallet-dashboard.tsx:127-132 | the active tab always stays one of the tab views |
| Dashboard.Rendered | components/wallet-dashboard.tsx:138-191 | unknown views render home; buy, sell and trade render the exchange panel |
| Dashboard.WalletDashboard.constructor | components/wallet-dashboard.tsx:21-46 | home tab and view, no timers |
| Dashboard.WalletDashboard.SetTimer | components/wallet-dashboard.tsx:59-87 | registers a timer under a fresh id |
| Dashboard.WalletDashboard.StartPolling | components/wallet-dashboard.tsx:48-68 | the state `Started` describes |
| Dashboard.WalletDashboard.StopPolling | components/wallet-dashboard.tsx:70-82 | the state `Stopped` describes |
| Dashboard.WalletDashboard.ResetIdleTimer | components/wallet-dashboard.tsx:84-95 | the state `IdleReset` describes |
| Dashboard.WalletDashboard.OnIdleTimeout | components/wallet-dashboard.tsx:88-91 | the state `IdleFired` describes |
| Dashboard.WalletDashboard.HandleActivity | components/wallet-dashboard.tsx:97-105 | the state `Activity` describes |
| Dashboard.WalletDashboard.CountRefreshes | components/wallet-dashboard.tsx:98-100 | both refresh counters go up by one; nothing else changes |
| Dashboard.WalletDashboard.SetActive | components/wallet-dashboard.tsx:103 | only the idle flag changes, to false |
| Dashboard.WalletDashboard.Mount | components/wallet-dashboard.tsx:107-110 | one initial load, then polling started and the idle timeout armed |
| Dashboard.WalletDashboard.Unmount | components/wallet-dashboard.tsx:115-119 | polling stopped and the idle timeout cleared |
| Dashboard.WalletDashboard.HandleNavigation | components/wallet-dashboard.tsx:127-132 | the state `Navigate` describes |
| LockScreen.WalletLockScreen.constructor | components/WalletLockScreen.tsx:13-15 | empty password and no error |
| LockScreen.WalletLockScreen.OnPasswordChange | components/WalletLockScreen.tsx:63-66 | editing always clears the error |
| LockScreen.WalletLockScreen.HandleUnlock | components/WalletLockScreen.tsx:18-29 | under 8 characters: the error, with no call to `onUnlock`; otherwise exactly one call, and the error is cleared iff it returns true |
| LanguageStore.DetectBrowserLanguage | stores/language-store.ts:8-20 | 'en' without a window; else 'zh' iff the lower-cased language starts with 'zh', 'ru' iff it starts with 'ru', otherwise 'en' |
| LanguageStore.CurrentLanguage | stores/language-store.ts:51-62 | 'en' without a window; the manual choice once made; otherwise the detected language |
| LanguageStore.FollowsBrowserUntilChosen | stores/language-store.ts:51-62 | before a manual choice, the current language follows the browser |
| LanguageStore.Store.constructor | stores/language-store.ts:30-47 | the detected language, not manually set, unless a persisted state is restored |
| LanguageStore.Store.SetLanguage | stores/language-store.ts:35-38 | stores the choice and marks it manual; from then on it is the current language in any browser |

## Left out

- Cryptography, key derivation, PSBT serialisation, JSON and hex encoding are parameters. Their laws are stated as predicates (`Vault.Lawful`, `Vault.RejectsWrongKey`), not proved.
- decimal.js's 20-significant-digit precision and JavaScript's float conversions (`toNumber`, unary `+`, `/ 1e8`) are treated as exact.
- String lengths count characters, not UTF-16 code units. `toLowerCase` is modelled for ASCII letters only.
- The network (`fetch`, axios, the explorer API's debounce and cache), the clock, `Math.random`, timers, `localStorage` and the React render cycle are parameters or recorded calls. `await` points are taken to run without interleaving.
- Store actions whose bodies are not part of this model (`addTransaction`, `addPendingTransaction`, `lockWallet`, `setUpdateBalance…`, `createdWallet`) are recorded as calls; their effect on the store is not modelled.
- `calcValue`, `validateScashAddress`, `downloadWalletFile` and the explorer links are not modelled.
- SignTx.SignTransaction: whether bitcoinjs-lib accepts an input or an output, and whether it can extract the signed transaction, are parameters of the signing backend; the library's own checks (address decoding, the fee-rate sanity check at extraction) are not modelled.
- BitcoinRpc.GetEnv: the timeout setting is taken as an already-parsed integer, 8000 when unset; a non-numeric setting, which `Number` turns into NaN, is not modelled.
- Fees.CalcFee: does not reject a zero or negative fee rate; the code has no such check either.
- Setup.WalletSetup.HandleVerifyMnemonic: the draws are a finite stream; with fewer than three words the source loops forever, and the model reports no completion instead.
- Setup.WalletSetup.OnRestorePassword: an uploaded blob that is truthy but not a string is treated as an invalid password; the source would throw inside `decryptWallet`.
- Engrave.EngraveScreen.HandleConfirmTransaction: a non-JSON decryption, and a throwing `signTransaction` (called before the `try` block), each throw in the source and leave the loading flag set; the model ends with that state and does not model the unhandled rejection. The model decides the outcome before raising the loading flag rather than after; with no rendering in between, the two orders reach the same state.
- The engrave cancel handler (`handleCancelTransaction`) only waits and closes the dialog, and is not modelled.
- Home.WalletHome.GetTxs: the explorer returns `analyzeTransaction` records, which carry no `rawTransaction`, so the DAP pass never finds a message and the map is reset to empty; the DAP parsing inside that loop is therefore not exercised.
- Home.NumberOf: `Number()` of strings other than plain digit strings (signs, spaces, exponents, hex) is read as NaN.
- Home.ToTransaction: `new Date(timestamp).getTime()` is the parameter `parseTime`.
- LockScreen.WalletLockScreen.HandleUnlock: the error message is kept as its translation key.
- The language store's persistence is modelled as an optional restored state handed to the constructor; zustand's storage and merge are not modelled.
- The reset-wallet button of the lock screen (`localStorage.clear()` and reload) is not modelled.

Where the code and the wallet's design notes differ, the model follows the code:

- `analyzeTransaction` tests change as a Decimal object, which is always truthy, so change never affects the self rule.
- A transaction touching no amount of the address is labelled self with net 0.
- The DAP codec always uses mainnet parameters.
- A whitespace-only piece of an RPC endpoint entry passes the non-empty check and becomes empty after trimming.
- The engrave screen spells out the derivation path as a literal rather than using `ADDRESS_PATH`.

## Findings

| source | as written | input that shows it | evidently intended | confidence | as-written member | corrected member |
|---|---|---|---|---|---|---|
| lib/utils.ts:104-118 | the last fee bracket is [10000, MAX_SAFE_INTEGER), and `calcAppFee` returns 0 when no bracket matches | an amount of exactly 9007199254740991 SCASH pays platform fee 0, while 9007199254740990 pays 1.3 | the top bracket is open-ended, so every amount from 10000 on pays 1.3 and the fee never decreases | not executed | Fees.AppFeeDropsAtMaxSafeInteger | Fees.AppFeeOpenEnded |
