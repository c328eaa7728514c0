/** What the mint and burn forms share: the status line, the mapping from a caught
    error to the message shown, and the steps after the network switch (signer,
    contract write, receipt). */
module Forms {
  import opened Js
  import opened Provider
  import opened Reconciler
  import opened TokenContract

  datatype Kind = Success | Failure | Info | Loading

  /** The status line a form shows. */
  datatype Status = Status(kind: Kind, message: string)

  const INVALID_AMOUNT: string := "Please enter a valid amount"
  const SWITCHING: string := "Switching to Tempo testnet..."
  const SUBMITTED: string := "Transaction submitted. Waiting for confirmation..."
  const REJECTED: string := "Transaction was rejected. Please try again and approve the transaction in MetaMask."
  const WARNING: string := "\U{26A0}\U{FE0F} "
  const CHECK_MARK: string := "\U{2705} "

  /** The wallet and contract beyond the provider requests of the switch: the
      configured contract address, the contract's answers, the unit helpers, the
      signer (or the error `getSigner` throws) and the receipt `tx.wait()` gives
      for a transaction hash. */
  datatype Session = Session(
    address: string,
    chain: Chain,
    units: Units,
    signer: Result<string>,
    receipt: string -> Result<string>)

  const STEPS: string := "\n\nPlease:\n1. Open MetaMask\n2. Click the network dropdown\n3. Select \"Tempo Testnet (Andantino)\" or add it manually\n4. Try again"

  /** The message prefixed with a warning sign and followed by the steps to switch
      by hand. */
  function Instructions(message: string): (r: string)
    ensures StartsWith(r, WARNING) && Includes(r, message)
  {
    var r := WARNING + message + STEPS;
    assert r[..|WARNING|] == WARNING;
    assert r[|WARNING|..|WARNING| + |message|] == message;
    IncludesAt(r, message, |WARNING|);
    r
  }

  /** The message speaks of the network. */
  predicate AboutNetwork(message: string) {
    Includes(message, TEMPO_TESTNET) || Includes(message, NETWORK)
  }

  /** The `catch` of `handleMint` and `handleBurn`: the error's message (or
      `fallback`), with the switching instructions when it speaks of the network,
      otherwise the rejection text for code 4001. */
  function ErrorMessage(e: Error, fallback: string): (m: string)
    requires fallback != ""
    ensures m != ""
    ensures AboutNetwork(MessageOr(e, fallback)) ==> StartsWith(m, WARNING)
  {
    var errorMessage := MessageOr(e, fallback);
    if AboutNetwork(errorMessage) then Instructions(errorMessage)
    else if e.code == Some(USER_REJECTED) then REJECTED
    else errorMessage
  }

  /** A string none of whose characters is `sub[i]` does not contain `sub`. */
  lemma MissingCharExcludes(s: string, sub: string, i: nat)
    requires i < |sub| && forall j :: 0 <= j < |s| ==> s[j] != sub[i]
    ensures !Includes(s, sub)
  {
    forall at: nat | at <= |s|
      ensures !OccursAt(s, sub, at)
    {
      if at + |sub| <= |s| {
        assert s[at..at + |sub|][i] == s[at + i];
      }
    }
  }

  /** A message with `part` in the middle speaks of the network when `part` is one
      of the two phrases. */
  lemma AboutNetworkAt(before: string, part: string, after: string)
    requires part == NETWORK || part == TEMPO_TESTNET
    ensures AboutNetwork(before + part + after)
  {
    var s := before + part + after;
    assert s[|before|..|before| + |part|] == part;
    IncludesAt(s, part, |before|);
  }

  /** A message that speaks of the network is shown with the switching instructions. */
  lemma NetworkMessageGetsInstructions(m: string, code: Option<int>, fallback: string)
    requires m != "" && AboutNetwork(m) && fallback != ""
    ensures ErrorMessage(Error(code, Some(m)), fallback) == Instructions(m)
  {
  }

  /** The handshake's approval plea speaks of the network, so it is shown with the
      switching instructions. */
  lemma ApprovalPleaGetsInstructions(fallback: string)
    requires fallback != ""
    ensures ErrorMessage(NewError(APPROVE_SWITCH), fallback) == Instructions(APPROVE_SWITCH)
  {
    AboutNetworkAt("Please approve the ", NETWORK, " switch in MetaMask");
    NetworkMessageGetsInstructions(APPROVE_SWITCH, None, fallback);
  }

  /** So are both pleas to switch by hand, which name the Tempo testnet. */
  lemma ManualPleaGetsInstructions(fallback: string)
    requires fallback != ""
    ensures ErrorMessage(NewError(SWITCH_MANUALLY), fallback) == Instructions(SWITCH_MANUALLY)
  {
    AboutNetworkAt("Please switch to ", TEMPO_TESTNET, " manually in MetaMask");
    NetworkMessageGetsInstructions(SWITCH_MANUALLY, None, fallback);
  }

  lemma ContinuePleaGetsInstructions(fallback: string)
    requires fallback != ""
    ensures ErrorMessage(NewError(SWITCH_TO_CONTINUE), fallback) == Instructions(SWITCH_TO_CONTINUE)
  {
    AboutNetworkAt("Please switch to ", TEMPO_TESTNET, " in MetaMask to continue");
    NetworkMessageGetsInstructions(SWITCH_TO_CONTINUE, None, fallback);
  }

  /** A message that does not speak of the network is shown as it is, unless the
      error carries code 4001. */
  lemma PlainMessageShown(m: string, code: Option<int>, fallback: string)
    requires m != "" && !AboutNetwork(m) && fallback != ""
    ensures ErrorMessage(Error(code, Some(m)), fallback)
      == if code == Some(USER_REJECTED) then REJECTED else m
  {
  }

  /** An error with no message, or an empty one, shows the fallback, or the
      rejection text for code 4001, when the fallback does not speak of the
      network. */
  lemma FallbackShown(code: Option<int>, message: Option<string>, fallback: string)
    requires message == None || message == Some("")
    requires fallback != "" && !AboutNetwork(fallback)
    ensures ErrorMessage(Error(code, message), fallback)
      == if code == Some(USER_REJECTED) then REJECTED else fallback
  {
  }

  /** A missing wallet is reported with its own message, unadorned: it has no `T`
      and no `w`. */
  lemma NotInstalledShownPlainly(fallback: string)
    requires fallback != ""
    ensures ErrorMessage(NewError(NOT_INSTALLED), fallback) == NOT_INSTALLED
  {
    var m := NOT_INSTALLED;
    assert forall j :: 0 <= j < |m| ==> m[j] != 'T' && m[j] != 'w';
    MissingCharExcludes(m, TEMPO_TESTNET, 0);
    MissingCharExcludes(m, NETWORK, 3);
    PlainMessageShown(m, None, fallback);
  }

  // ---------------------------------------------------------------- after the switch

  /** What a form does that others can observe, in order: a contract call, or a
      run of the success callback its parent passed in. */
  datatype Effect = Contract(call: ContractCall) | Notified

  /** The contract calls as effects, in the same order. */
  function Effects(calls: seq<ContractCall>): (r: seq<Effect>)
    ensures |r| == |calls| && forall i :: 0 <= i < |calls| ==> r[i] == Contract(calls[i])
  {
    seq(|calls|, i requires 0 <= i < |calls| => Contract(calls[i]))
  }

  /** How a write ends: with the error the `catch` receives, or confirmed with the
      receipt's hash. */
  datatype Ending = Broke(error: Error) | Confirmed(receipt: string)

  /** The steps after `switchToTempoNetwork` in `handleMint` and `handleBurn`:
      nothing when the switch threw; otherwise the signer, the contract write
      `write` (with the contract calls it issues) and the receipt. */
  function AfterSwitch(switched: Outcome, session: Session, write: Reading<Result<string>>): (r: Reading<Ending>)
    ensures switched.Threw? ==> r == Reading(Broke(switched.error), [])
    ensures r.value.Confirmed? <==>
      (switched == Returned && session.signer.Ok? && write.value.Ok?
       && session.receipt(write.value.value).Ok?)
    ensures r.calls != [] ==> switched == Returned && session.signer.Ok? && r.calls == write.calls
  {
    if switched.Threw? then Reading(Broke(switched.error), [])
    else if session.signer.Err? then Reading(Broke(session.signer.error), [])
    else match write.value
      case Err(e) => Reading(Broke(e), write.calls)
      case Ok(tx) =>
        match session.receipt(tx)
        case Err(e) => Reading(Broke(e), write.calls)
        case Ok(hash) => Reading(Confirmed(hash), write.calls)
  }

  /** How `switchToTempoNetwork` ends on the replies the wallet has still to give,
      or the missing-wallet error when no wallet is injected. */
  ghost function SwitchOutcome(p: WalletProvider?): Outcome
    reads p
    requires p != null ==> ExactScript(p.script)
  {
    if p == null then Threw(NewError(NOT_INSTALLED)) else Handshake(HearAll(p.script), p.answered).outcome
  }

  /** The status a write leaves: the success line, or the mapped error. */
  function Final(end: Ending, success: string -> string, fallback: string): (s: Status)
    requires fallback != ""
    ensures s.kind == Success <==> end.Confirmed?
    ensures end.Broke? ==> s.message == ErrorMessage(end.error, fallback)
  {
    match end
    case Broke(e) => Status(Failure, ErrorMessage(e, fallback))
    case Confirmed(hash) => Status(Success, success(hash))
  }

  /** A wallet that rejects the transaction itself (code 4001) never gets the
      rejection text: the contract helper rethrows without the code, so the form
      shows the wallet's own message. */
  lemma RejectedWriteShowsWalletMessage(session: Session, write: Reading<Result<string>>, m: string, fallback: string)
    requires session.signer.Ok? && m != "" && !AboutNetwork(m) && fallback != ""
    requires write.value == Err(Rethrow(Error(Some(USER_REJECTED), Some(m)), fallback))
    ensures Final(AfterSwitch(Returned, session, write).value, _ => "", fallback) == Status(Failure, m)
  {
    RethrowKeepsMessage(Error(Some(USER_REJECTED), Some(m)), fallback);
  }
}
