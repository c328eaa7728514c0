# Tempo mint client: network handshake, forms and contract helpers

This project models the client side of a small token dApp on the Tempo test
chain (chain id `0xa5bd`). Before any write, the client makes sure the injected
wallet provider (`window.ethereum`) is on that chain. The model covers:

- **The handshake `switchToTempoNetwork`.** The mint and burn forms share one
  copy of it. It reads `eth_chainId`, asks the wallet to switch (EIP-3326),
  adds the network on code 4902 (EIP-3085), and checks the result with up to
  three chain-id reads. It has several recovery branches for failed adds.
- **Their `normalizeChainId`.** It lower-cases and trims the id, keeps a
  `0x`-prefixed id, reads a decimal id with `parseInt`, and prefixes anything
  else with `0x`.
- **The connect button's own variant.** Its normalisation only lower-cases and
  prefixes, and its switch has no verification reads. The button also handles
  `accountsChanged`, `connectWallet` and `disconnect`.
- **The mint and burn forms, `handleMint` and `handleBurn`.** This covers input
  checks, the switch before any contract write, the receipt, the status line and
  its error-message mapping, the busy flag cleared in `finally`, and the burn
  form's `loadBalance`.
- **The contract helpers of `lib/contract.ts`.** This covers the contract-address
  guard, reads that fall back to `"0"` or to defaults, `decimals` defaulting to
  18, and writes that rethrow every failure as a plain `Error`.

How the pieces are modelled:

- **The wallet provider** is the class `Provider.WalletProvider`. It holds a
  fixed script of replies, the number of replies already given, and a log of
  requests. Each `Request` gives the next reply and appends one log entry.
- **Each handshake** is an imperative method on that provider. The method is
  proved equal to a function of what the handshake hears at each position of
  the script (`Reconciler.Hear`: a fault, the target, or another chain) and of
  the position it starts at. That function reports how the
  handshake ends (returns, or throws an error) and the requests it issued, in
  order.
- **The handshake's properties** are lemmas about that function: request
  budgets, where it returns, which message it throws, and that a plea to switch
  by hand follows a mismatching read.
- **The contract and the ethers helpers** are oracle values: `Chain` and
  `Units`. They fix each call's answer in advance.
- **The forms** are classes. Their fields are the React state (`amount`,
  `status`, the busy flag, `balance`) plus a log of observable effects
  (contract calls and success callbacks, in order).

Modules:

- `js.dfy`: the JavaScript built-ins used.
- `chain_ids.dfy`: `normalizeChainId`.
- `provider.dfy`: the provider.
- `reconciler.dfy`: the handshake.
- `handshake_facts.dfy`: properties of the handshake.
- `token_contract.dfy`: `lib/contract.ts`.
- `forms.dfy`: what both forms share.
- `mint_interface.dfy`, `burn_interface.dfy`: the mint and burn forms.
- `wallet_connect.dfy`: the connect button.

The code's comments speak of verifying the switch and the add
(components/MintInterface.tsx:86, 128), but the handshake can return normally
without ever reading the target chain back. All three verification reads may mismatch, after a switch or after
an add (`HandshakeFacts.ReturnsUnverifiedAfterSwitch`,
`HandshakeFacts.ReturnsUnverifiedAfterAdd`). The same holds when the single read
after a duplicate-network retry mismatches
(`HandshakeFacts.DuplicateRetryFallsThrough`).

A wallet that refuses the mint or burn transaction itself (code 4001) never
gets the form's "Transaction was rejected" text. The contract helper rethrows
the error without its code, so the form shows the wallet's own message
(`TokenContract.RejectedMintLosesCode`,
`Forms.RejectedWriteShowsWalletMessage`). Only errors that reach the form with
their code intact can produce that text.

## Model

| member | source | states |
|---|---|---|
| ChainIds.Normalize | components/MintInterface.tsx:31-51 | every normalised id starts with `0x` and is lower-case (the burn form's copy, components/BurnInterface.tsx:41-61, is the same text and is modelled by the same function) |
| ChainIds.NormalizeTrimmed | components/MintInterface.tsx:37-50 | a normalised id has no white space at either end |
| ChainIds.NormalizeIdempotent | components/MintInterface.tsx:31-51 | normalising an output again gives it back unchanged |
| ChainIds.PrefixedKeptVerbatim | components/MintInterface.tsx:37-39 | a string that is `0x`-prefixed once lower-cased and trimmed is returned as that cleaned string, with no numeric reading |
| ChainIds.NumberToHex | components/MintInterface.tsx:33-34 | a number becomes `0x` followed by its lower-case hexadecimal digits |
| ChainIds.DigitStringAsNumber | components/MintInterface.tsx:40-44 | a string of decimal digits names the same chain as the number it spells |
| ChainIds.TargetAsNumber | components/MintInterface.tsx:33-34 | the number 42429 normalises to `0xa5bd` |
| ChainIds.TargetAsPrefixedHex | lib/tempo.ts:7 | the configured id `0xa5bd` is its own normalisation |
| ChainIds.TargetAsDecimalString | components/MintInterface.tsx:42-44 | the string `"42429"` is read by `parseInt` and normalises to `0xa5bd` |
| ChainIds.NonNumericPrefixed | components/MintInterface.tsx:42-46 | a cleaned string that starts with neither a digit, a sign nor `0x` is no number to `parseInt` and is only prefixed: `"a5bd"` gives `0xa5bd` |
| ChainIds.DigitsThenLetter | components/MintInterface.tsx:42-44 | an unprefixed string that starts with a run of digits and then a non-digit names the chain of that run's number: `parseInt` stops at the first non-digit |
| ChainIds.UnprefixedHexMisread | components/MintInterface.tsx:37-44 | for every digit `d` and letter `a`–`f`, the unprefixed id `d` followed by the letter names chain `0x` and the digit's value, while the prefixed id names `0x` followed by both characters: `"1a"` and `"0x1a"` are different chains |
| ChainIds.LeadingZerosDistinguish | components/MintInterface.tsx:38-39 | comparison is on strings: `0x00a5bd` is not the target |
| ChainIds.CanonicalKept | components/MintInterface.tsx:37-39 | a lower-case `0x` string with no white space at its ends is its own normalisation |
| Reconciler.TargetNormalized | components/MintInterface.tsx:59 | the configured chain id (lib/tempo.ts:7) is one the model normalises exactly, and its normalisation is `0xa5bd`, the constant every read is compared with |
| Provider.WalletProvider.Request | components/MintInterface.tsx:54 | one `window.ethereum.request` consumes exactly the next scripted reply and appends the request to the log |
| Reconciler.HearsAll | components/MintInterface.tsx:54-65 | every position of a script is heard as the handshake compares it: a fault, the target, or another chain |
| Reconciler.Read | components/MintInterface.tsx:54-58 | one chain-id read is exactly one `eth_chainId` request |
| Reconciler.Polls | components/MintInterface.tsx:87-100 | at most `n` reads, all chain-id reads; an answer other than `OffTarget` comes after at least one read, and `OffTarget` comes after exactly `n` (what each read answered is in `HandshakeFacts.PollsFirstStop` and `HandshakeFacts.OffTargetMeansAllMissed`) |
| Reconciler.FinalCheck | components/MintInterface.tsx:242-253 | the last check is one read: it returns on the target, throws the given plea on another chain, and passes on the fault of a read that faults |
| Reconciler.Attempt | components/MintInterface.tsx:77-100 | a switch or add request comes first, followed only by chain-id reads, between zero and three of them |
| Reconciler.RetrySwitch | components/MintInterface.tsx:167-190 | the retried switch starts with a switch request and issues at most five requests |
| Reconciler.DuplicateOrGiveUp | components/MintInterface.tsx:194-238 | the duplicate-network branch starts with a switch request exactly when the add fault says the network exists; otherwise it is the final check that throws the manual-switch plea on a mismatch |
| Reconciler.RecoverAdd | components/MintInterface.tsx:160-238 | recovery starts with a switch request exactly when the add fault names the same RPC endpoint or a duplicate network |
| Reconciler.OnAddError | components/MintInterface.tsx:143-238 | the `catch (addError)` block starts with a chain-id read, and returns after that read alone when it names the target |
| Reconciler.TryAdd | components/MintInterface.tsx:114-142 | the 4902 branch starts with the add request |
| Reconciler.OnSwitchError | components/MintInterface.tsx:104-254 | code 4001 throws the approval plea at once, with no further request; code 4902 goes on with an add request; any other code is the final check that throws the plea to switch and continue on a mismatch |
| Reconciler.TrySwitch | components/MintInterface.tsx:73-104 | the switch stage starts with the switch request |
| Reconciler.Handshake | components/MintInterface.tsx:54-70 | the handshake starts with a chain-id read, and that read is its only request exactly when it does not name another chain |
| Reconciler.ReadChainId | components/MintInterface.tsx:54-58 | the method issues one `eth_chainId` request and answers as `Read` says |
| Reconciler.PollChainId | components/MintInterface.tsx:87-100 | the `for (i < 3)` loop issues exactly the reads `Polls(·, 3)` describes and answers as it does |
| Reconciler.RequestAndPoll | components/MintInterface.tsx:77-100 | a switch or add request and its loop behave as `Attempt` |
| Reconciler.ConfirmOrThrow | components/MintInterface.tsx:242-253 | the final read behaves as `FinalCheck` |
| Reconciler.HandleAddError | components/MintInterface.tsx:143-155 | the `catch (addError)` code behaves as `OnAddError` |
| Reconciler.RecoverFromAddError | components/MintInterface.tsx:160-191 | the recovery code behaves as `RecoverAdd` |
| Reconciler.RetrySwitchAndVerify | components/MintInterface.tsx:167-190 | the retried switch behaves as `RetrySwitch` |
| Reconciler.RetryDuplicate | components/MintInterface.tsx:194-238 | the duplicate-network code behaves as `DuplicateOrGiveUp` |
| Reconciler.HandleSwitchError | components/MintInterface.tsx:104-254 | the `catch (switchError)` code behaves as `OnSwitchError` |
| Reconciler.AddAndVerify | components/MintInterface.tsx:114-142 | the add and its loop behave as `TryAdd` |
| Reconciler.SwitchAndVerify | components/MintInterface.tsx:73-104 | the first switch and its loop behave as `TrySwitch` |
| Reconciler.SwitchToTempoNetwork | components/MintInterface.tsx:22-259 | no wallet throws `MetaMask is not installed` with no request; otherwise the outcome, the replies consumed and the request log are those of `Handshake` (the burn form's copy, components/BurnInterface.tsx:35-196, differs only in logging and is the same method) |
| HandshakeFacts.AttemptBudget | components/MintInterface.tsx:77-100 | a switch or add attempt issues one such request and at most three reads |
| HandshakeFacts.RetrySwitchBudget | components/MintInterface.tsx:167-190 | the retried switch: one switch request, at most five requests |
| HandshakeFacts.DuplicateOrGiveUpBudget | components/MintInterface.tsx:194-238 | the duplicate branch: at most one switch, no add, at most three requests |
| HandshakeFacts.RecoverAddBudget | components/MintInterface.tsx:160-238 | recovery after a failed add: at most two switches, no add, at most eight requests |
| HandshakeFacts.OnAddErrorBudget | components/MintInterface.tsx:143-238 | the `catch (addError)` block: at most two switches, no add, at most nine requests |
| HandshakeFacts.TryAddBudget | components/MintInterface.tsx:114-238 | the 4902 branch: at most two switches, one add, at most 13 requests |
| HandshakeFacts.OnSwitchErrorBudget | components/MintInterface.tsx:104-254 | the `catch (switchError)` block: at most two switches, one add, at most 13 requests |
| HandshakeFacts.TrySwitchBudget | components/MintInterface.tsx:73-255 | after the first read: at most three switches, one add, at most 17 requests |
| HandshakeFacts.HandshakeBudget | components/MintInterface.tsx:22-259 | for any wallet answers, every request is a chain-id read or a switch or add naming the Tempo chain; there are at most three switch requests, at most one add request and at most 18 requests |
| HandshakeFacts.PollsFirstStop | components/MintInterface.tsx:87-100 | the loop ends at the first read that does not name another chain, after exactly that many reads, answering the target or the fault that throws out of it |
| HandshakeFacts.OffTargetMeansAllMissed | components/MintInterface.tsx:87-100 | conversely, `OffTarget` means every one of the `n` reads named another chain, and any other answer is the last read's, every earlier read having named another chain |
| HandshakeFacts.PollsFirstMatch | components/MintInterface.tsx:87-98 | the loop returns at the first read of the target, after exactly that many reads |
| HandshakeFacts.PollsAllMiss | components/MintInterface.tsx:87-100 | when all reads mismatch, the loop ends after exactly `n` reads |
| HandshakeFacts.OnTargetAtOnce | components/MintInterface.tsx:54-70 | already on the target: the handshake returns after exactly one request |
| HandshakeFacts.RejectionEndsHandshake | components/MintInterface.tsx:108-111 | a 4001 switch fault throws `Please approve the network switch in MetaMask` after exactly a read and a switch; no add is issued |
| HandshakeFacts.SwitchVerifiedAtPoll | components/MintInterface.tsx:77-98 | the switch settles and poll `k` is the first match: the handshake returns after `k + 1` polls |
| HandshakeFacts.ReturnsUnverifiedAfterSwitch | components/MintInterface.tsx:87-100 | the switch settles and all three polls mismatch: the handshake still returns normally |
| HandshakeFacts.ReturnsUnverifiedAfterAdd | components/MintInterface.tsx:119-142 | after 4902 the add settles and all three polls mismatch: one add request and a normal return |
| HandshakeFacts.AddVerifiedAtPoll | components/MintInterface.tsx:114-140 | after 4902 the add settles and poll `k` is the first match: the handshake returns after `k + 1` polls |
| HandshakeFacts.PollFaultLeadsToAdd | components/MintInterface.tsx:87-122 | a 4902 fault at any of the three polls, after polls that named another chain, lands in the switch's `catch` and leads to an add request; an add verified at its first poll then returns |
| HandshakeFacts.MismatchLeadsToSwitch | components/MintInterface.tsx:54-80 | a first read of another chain leads to the switch stage, after exactly that read |
| HandshakeFacts.SwitchFaultCaught | components/MintInterface.tsx:73-104 | a switch request that faults goes straight to the `catch (switchError)` block, with no read |
| HandshakeFacts.AddFaultCaught | components/MintInterface.tsx:119-143 | an add request that faults goes straight to the `catch (addError)` block, with no read |
| HandshakeFacts.ReReadMismatch | components/MintInterface.tsx:143-160 | a re-read of another chain in `catch (addError)` leads to the recovery branches |
| HandshakeFacts.ReachesRecovery | components/MintInterface.tsx:54-160 | a mismatching read, a 4902 switch fault, an add fault and a mismatching re-read bring the handshake to the recovery of a failed add after exactly those four requests |
| HandshakeFacts.AddFaultOnTarget | components/MintInterface.tsx:143-155 | a failed add followed by a read of the target returns at once |
| HandshakeFacts.DuplicateRetryFallsThrough | components/MintInterface.tsx:194-211 | a duplicate-network add fault retries the switch once with one unpaced read; a mismatch there falls through and the handshake returns |
| HandshakeFacts.SameRpcRetryVerified | components/MintInterface.tsx:160-180 | a same-RPC-endpoint add fault retries the switch with the three-read check, which returns on the target |
| HandshakeFacts.HandshakePlea | components/MintInterface.tsx:217-253 | unless the wallet's own faults carry such a message, every `Please switch…` throw comes right after a chain-id read that named another chain |
| HandshakeFacts.DecimalScriptHeard | components/MintInterface.tsx:42-44 | worked example: on a sample script, a decimal reply of the target's number is heard as the target, and an empty reply as another chain |
| HandshakeFacts.DecimalScriptRun | components/MintInterface.tsx:54-140 | worked example: on that script's answers the handshake reads, switches, adds, polls twice and returns, issuing one request per scripted reply |
| TokenContract.GetContract | lib/contract.ts:22-32 | `getContract` refuses with `Contract address not set…` exactly when the address is empty |
| TokenContract.DecimalsOf | lib/contract.ts:42-47 | the decimals are the contract's answer, or 18 when `decimals()` fails |
| TokenContract.Rethrow | lib/contract.ts:138-140 | a rethrown error has no code and a message, non-empty whenever the fallback is |
| TokenContract.RethrowKeepsMessage | lib/contract.ts:138-140 | a rethrown error keeps the original non-empty message and loses its code |
| TokenContract.FormattedRead | lib/contract.ts:37-53 | a read never fails: `"0"` with no call when the address is missing, `"0"` after a failed read or a failed format, otherwise the formatted amount after `decimals()` |
| TokenContract.BalanceWithDefaultDecimals | lib/contract.ts:40-48 | a failing `decimals()` does not stop `getBalance`: the balance is formatted with 18 decimals |
| TokenContract.BalanceFailuresReadZero | lib/contract.ts:37-53 | whatever fails, `getBalance` returns `"0"` |
| TokenContract.TokenInfoOf | lib/contract.ts:79-120 | decimals default to 18; `name()` is read before `symbol()`; a failing name keeps both defaults, a failing symbol keeps the fetched name; a missing address gives all defaults; the address is always the configured one |
| TokenContract.Write | lib/contract.ts:125-162 | writes call `decimals()` and then the write with `parseUnits(amount, decimals)`; it succeeds exactly when the address, the parse and the write all do; every failure is rethrown with no code and a non-empty message |
| TokenContract.RejectedMintLosesCode | lib/contract.ts:136-140 | a wallet refusal (4001) of the mint reaches the caller as a plain error with the same message |
| TokenContract.ReadAndFormat | lib/contract.ts:37-74 | the body of `getBalance`/`getTotalSupply`, with `decimals` overwritten only when `decimals()` answers, computes `FormattedRead` |
| TokenContract.GetBalance | lib/contract.ts:37-53 | `getBalance` computes `Balance` |
| TokenContract.GetTotalSupply | lib/contract.ts:58-74 | `getTotalSupply` computes `TotalSupplyOf` |
| TokenContract.GetTokenInfo | lib/contract.ts:79-120 | `getTokenInfo` computes `TokenInfoOf` |
| TokenContract.SendWrite | lib/contract.ts:125-162 | the body shared by the two writes computes `Write` |
| TokenContract.MintTokens | lib/contract.ts:125-141 | `mintTokens` computes `MintTx` |
| TokenContract.BurnTokens | lib/contract.ts:146-162 | `burnTokens` computes `BurnTx` |
| Forms.Instructions | components/MintInterface.tsx:335-336 | the instructions text starts with the warning sign and contains the original message |
| Forms.ErrorMessage | components/MintInterface.tsx:332-339 | the message shown is never empty, and starts with the warning sign whenever the error's message speaks of `Tempo testnet` or `network` (same mapping at components/BurnInterface.tsx:244-251) |
| Forms.NetworkMessageGetsInstructions | components/MintInterface.tsx:335-336 | a message about the network is shown with the switching instructions, whatever the code |
| Forms.ApprovalPleaGetsInstructions | components/MintInterface.tsx:110 | the 4001 handshake plea contains `network`, so it gets the instructions |
| Forms.ManualPleaGetsInstructions | components/MintInterface.tsx:225 | the manual-switch plea contains `Tempo testnet`, so it gets the instructions |
| Forms.ContinuePleaGetsInstructions | components/MintInterface.tsx:253 | so does the plea to switch in order to continue |
| Forms.FallbackShown | components/MintInterface.tsx:332-339 | an error with no message or an empty one shows the fallback, or the rejection text for code 4001, whenever the fallback does not speak of the network |
| Forms.PlainMessageShown | components/MintInterface.tsx:337-339 | a message not about the network is shown as it is, or as the rejection text for code 4001 |
| Forms.NotInstalledShownPlainly | components/MintInterface.tsx:279-281 | the missing-wallet error is shown unadorned |
| Forms.AfterSwitch | components/MintInterface.tsx:287-314 | a throwing switch stops everything with no contract call; the write is confirmed exactly when the switch returned, the signer, the write and the receipt all succeed; contract calls happen only after the switch returned and the signer was obtained |
| Forms.Final | components/MintInterface.tsx:319-344 | the status is a success exactly when the write was confirmed; a failure shows `ErrorMessage` of the caught error |
| Forms.RejectedWriteShowsWalletMessage | components/BurnInterface.tsx:243-256 | a 4001 refusal of the write, rethrown by the contract helper, shows the wallet's message, not the rejection text |
| MintInterface.MintAfterSwitch | components/MintInterface.tsx:278-314 | the `try` block gives the ending and contract calls of `AfterSwitch` on the handshake's outcome, and consumes the handshake's replies |
| MintInterface.MintForm.constructor | components/MintInterface.tsx:14-18 | the form starts with an empty amount, the connected address as recipient, not minting, no status |
| MintInterface.MintForm.HandleMint | components/MintInterface.tsx:261-348 | an invalid amount or recipient sets that error and changes nothing else: no provider request, no contract call; otherwise the switch runs first and `mintTokens` only after it returns; the amount is cleared and `onMintSuccess` runs only after confirmation; the status is the success line or the mapped error; `isMinting` is false on exit |
| MintInterface.NoMintWithoutSwitch | components/MintInterface.tsx:287-308 | a throwing switch means no contract call at all |
| MintInterface.ConfirmedMintCalls | components/MintInterface.tsx:287-314 | a confirmed mint followed a returning switch and issued `decimals()` and exactly one `mint` to the recipient |
| MintInterface.MintFallbackShown | components/MintInterface.tsx:332-339 | an error with no message or an empty one shows `Failed to mint tokens. Please try again.`, or the rejection text for code 4001 |
| MintInterface.RefusedSwitchStatus | components/MintInterface.tsx:332-344 | a refused switch issues no contract call and shows the approval plea with the instructions |
| BurnInterface.BurnAfterSwitch | components/BurnInterface.tsx:215-231 | the `try` block up to the receipt gives the ending and contract calls of `AfterSwitch` on the handshake's outcome |
| BurnInterface.Reloaded | components/BurnInterface.tsx:22-27 | without an account the balance shown stays; with one it is `getBalance`, which reads `balanceOf` first |
| BurnInterface.BurnForm.constructor | components/BurnInterface.tsx:14-18 | the form starts with an empty amount, not burning, no status and a shown balance of `"0"` |
| BurnInterface.BurnForm.LoadBalance | components/BurnInterface.tsx:22-27 | `loadBalance` sets the balance and logs the calls as `Reloaded` says, and changes nothing else |
| BurnInterface.BurnForm.HandleBurn | components/BurnInterface.tsx:198-259 | an invalid amount, or one above the balance shown, sets that error and changes nothing else; otherwise the switch runs first and `burnTokens` only after it returns; on confirmation the amount is cleared, the balance reloaded, and then `onBurnSuccess` runs; `isBurning` is false on exit |
| BurnInterface.BurnForm.Conclude | components/BurnInterface.tsx:233-259 | after the write: the status; on success the cleared amount, the reloaded balance and the callback after the reload's calls; `isBurning` false |
| BurnInterface.NoBurnWithoutSwitch | components/BurnInterface.tsx:221-228 | a throwing switch means no contract call at all |
| BurnInterface.BurnFallbackShown | components/BurnInterface.tsx:244-251 | an error with no message or an empty one shows `Failed to burn tokens. Please try again.`, or the rejection text for code 4001 |
| BurnInterface.ConfirmedBurnCalls | components/BurnInterface.tsx:221-231 | a confirmed burn followed a returning switch and issued `decimals()` and exactly one `burn` |
| WalletConnect.NormalizeLenient | components/WalletConnect.tsx:88-91 | the output starts with `0x`, is lower-case, and ends with the lower-cased input; a `0x` input is only lower-cased |
| WalletConnect.LenientIdempotent | components/WalletConnect.tsx:88-91 | normalising twice is normalising once |
| WalletConnect.LenientTarget | components/WalletConnect.tsx:94 | the target id normalises to itself |
| WalletConnect.LenientPrefixesDigits | components/WalletConnect.tsx:89 | a digit string is only prefixed, never read as a number |
| WalletConnect.LenientMissesDecimalTarget | components/WalletConnect.tsx:88-97 | `"42429"` gives `0x42429`, which is not the target, while the mint and burn forms read it as `0xa5bd` |
| WalletConnect.LenientKeepsSpaces | components/WalletConnect.tsx:88-91 | no trimming: an id with leading white space never matches the target |
| WalletConnect.SwitchAgain | components/WalletConnect.tsx:119-122 | the second switch is one request, and it throws exactly when the wallet faults |
| WalletConnect.LenientAdd | components/WalletConnect.tsx:110-126 | one add, and at most one more switch; an add fault that is neither -32602 nor `already exists` throws `Failed to add Tempo network to MetaMask` |
| WalletConnect.LenientSwitch | components/WalletConnect.tsx:102-130 | at most three requests, none a chain-id read; a fault other than 4902 is rethrown unchanged; a settled switch returns |
| WalletConnect.LenientHandshake | components/WalletConnect.tsx:83-134 | exactly one chain-id read, first, and never another; at most four requests; on the target it returns after the read alone; a faulting read is rethrown unchanged and an array reply throws `id.toLowerCase is not a function`, each after the read alone |
| WalletConnect.LenientKeepsRejection | components/WalletConnect.tsx:127-133 | a 4001 switch fault is thrown with its code, after a read and a switch |
| WalletConnect.LenientTrustsSwitch | components/WalletConnect.tsx:102-106 | a switch that settles returns without reading the chain again |
| WalletConnect.LenientReachesAdd | components/WalletConnect.tsx:107-114 | after a 4902 fault the handshake is the add stage on the replies left |
| WalletConnect.LenientRetriesSwitch | components/WalletConnect.tsx:115-122 | after 4902, an add fault with -32602 or `already exists` leads to exactly one more switch, whose fault ends the handshake |
| WalletConnect.AddRetries | components/WalletConnect.tsx:117-122 | the add stage after such a fault is one add and one switch |
| WalletConnect.LenientAddFails | components/WalletConnect.tsx:123-125 | any other add fault throws the add-failed error after exactly three requests |
| WalletConnect.AddLeniently | components/WalletConnect.tsx:110-126 | the add code behaves as `LenientAdd` |
| WalletConnect.SwitchOrAdd | components/WalletConnect.tsx:102-130 | the switch code behaves as `LenientSwitch` |
| WalletConnect.SwitchLeniently | components/WalletConnect.tsx:78-134 | no wallet throws `MetaMask not installed`; otherwise the outcome, the replies consumed and the request log are those of `LenientHandshake` |
| WalletConnect.OnAccounts | components/WalletConnect.tsx:26-40 | an empty list clears the address and fires `onDisconnect`; otherwise the address becomes the first account, and `onConnect` fires exactly when it differs from the current one |
| WalletConnect.AccountsChangedSettles | components/WalletConnect.tsx:33-39 | the same non-empty list delivered twice announces the account once |
| WalletConnect.EmptyListAlwaysDisconnects | components/WalletConnect.tsx:27-30 | an empty list fires `onDisconnect` every time it arrives |
| WalletConnect.FirstAccount | components/WalletConnect.tsx:146-154 | a fault is passed on; an empty answer gives `No accounts found`; otherwise the first account |
| WalletConnect.Connect | components/WalletConnect.tsx:140-160 | the account request comes first; a missing or failed account ends it there; with an account, it connects exactly when the switch that follows returns, and a switch that throws gives that error |
| WalletConnect.RequestAccountAndSwitch | components/WalletConnect.tsx:146-157 | the requests behave as `Connect` |
| WalletConnect.WalletButton.constructor | components/WalletConnect.tsx:12-14 | the button starts with no address, not connecting, no error and no callback fired |
| WalletConnect.WalletButton.HandleAccountsChanged | components/WalletConnect.tsx:25-49 | the listener exists only when a wallet is injected; the address and fired callbacks are those of `OnAccounts`, and the error and busy flag stay |
| WalletConnect.WalletButton.ConnectWallet | components/WalletConnect.tsx:136-167 | no wallet gives `MetaMask is not installed. Please install MetaMask to continue.`; the address is set and `onConnect` fires only after the switch returns; otherwise the caught message, or `Failed to connect wallet`; `isConnecting` is false on exit |
| WalletConnect.WalletButton.Disconnect | components/WalletConnect.tsx:169-172 | the address is cleared and `onDisconnect` fires |

## Left out

- The debug `fetch` calls to a local logging endpoint. They are HTTP I/O, their failures are swallowed, and they do not affect control flow.
- The `signer.getAddress()` and `provider.getNetwork()` calls made only for that logging (components/MintInterface.tsx:300-301).
- The `setTimeout` delays before and between verification reads. They are timing only, and the model treats them as no-ops.
- `parseFloat` and the amount comparisons. They are floating point. The forms take them as predicates: `positive(amount)` for `!(parseFloat(amount) <= 0)`, which holds when `parseFloat` gives NaN (so an amount such as `"abc"` passes the guard and fails later, in `parseUnits`), and `exceeds(amount, balance)` for `parseFloat(amount) > parseFloat(balance)`.
- ethers internals: `BrowserProvider`, `getSigner`, `Contract`, `parseUnits`, `formatUnits`, `tx.wait()`. They are a foreign library, so each is an oracle value in `Session`, `Chain` or `Units`.
- React rendering, the intermediate loading texts (`Minting tokens...`, `Burning tokens...`, `Transaction submitted...`), `useEffect` subscriptions, `checkConnection`, `handleChainChanged`, `handleMax`, `TokenInfo`, the app pages, the deploy scripts and the bundler configuration. They are UI, wiring or deployment. The forms keep only the status each handler leaves at its end.
- Concurrency. Each handler runs to completion before the next event; `await` is read as the next step.
- `toLowerCase` and `trim` are modelled on ASCII letters and the ECMAScript white-space set. There is no full Unicode case mapping.
- `ChainIds.Normalize` requires the numeric value of a decimal id to be below 2^53, where `parseInt` and `toString(16)` are exact. The handshake methods therefore require every scripted reply to meet this (`ExactScript`), including the replies to switch, add and account requests, which the handshake never reads as chain ids.
- Chain-id replies that are numbers or `null` are not modelled. A settled reply is a string, or an array of strings read through `Array.prototype.toString`.
- In the connect button, an array reply to `eth_chainId` throws a `TypeError`. The model gives it the message `id.toLowerCase is not a function`; the real text depends on the engine and the build. A string reply to `eth_requestAccounts` is indexed as the code indexes it: its first character is the account.
- A wallet whose script has run out answers every further request with a fault that has no code and no message.
- `Forms.ErrorMessage`: the first branch is stated as "starts with the warning sign". `Forms.NetworkMessageGetsInstructions`, `Forms.PlainMessageShown` and `Forms.FallbackShown` (with `MintInterface.MintFallbackShown` and `BurnInterface.BurnFallbackShown` for the forms' own fallbacks) give the exact text of each branch.
- `HandshakeFacts.HandshakePlea` excludes wallets whose own faults already carry one of the pleas' texts. Such a fault is passed on unchanged, and the property is about the handshake's own throws.
