/** The mint form (`handleMint`): input checks, the network switch, the contract
    write, and the status, amount and busy flag it leaves behind. */
module MintInterface {
  import opened Js
  import opened Provider
  import opened Reconciler
  import opened TokenContract
  import opened Forms

  const INVALID_RECIPIENT: string := "Please enter a valid recipient address"
  const MINT_FAILED: string := "Failed to mint tokens. Please try again."

  /** `/^0x[a-fA-F0-9]{40}$/`: `0x` and exactly forty hexadecimal digits. */
  predicate IsAddress(s: string) {
    |s| == 42 && s[0] == '0' && s[1] == 'x' && forall i :: 2 <= i < 42 ==> IsHexDigit(s[i])
  }

  /** The success line: the amount, the recipient shortened to its first six and
      last four characters, and the first ten characters of the receipt hash. */
  function MintedMessage(amount: string, recipient: string, hash: string): string {
    CHECK_MARK + "Successfully minted " + amount + " TMINT tokens to " + Substring(recipient, 0, 6)
    + "..." + Substring(recipient, 38, |recipient|) + "! Transaction: " + Substring(hash, 0, 10) + "..."
  }

  /** What `handleMint` does once the inputs are valid: the switch (or the missing
      wallet), then `mintTokens`, the receipt and the status they leave. */
  function MintEnding(switched: Outcome, session: Session, recipient: string, amount: string): Reading<Ending> {
    AfterSwitch(switched, session, MintTx(session.address, session.chain, session.units, recipient, amount))
  }

  /** The inputs `handleMint` accepts; `positive` stands for
      `!(parseFloat(amount) <= 0)`, which holds when `parseFloat` gives NaN. */
  predicate ValidMint(amount: string, recipient: string, positive: string -> bool) {
    amount != "" && positive(amount) && recipient != "" && IsAddress(recipient)
  }

  /** The status an invalid input leaves. */
  function Rejection(amount: string, positive: string -> bool): Status {
    if amount == "" || !positive(amount) then Status(Failure, INVALID_AMOUNT)
    else Status(Failure, INVALID_RECIPIENT)
  }

  /** The `try` block of `handleMint`: the wallet check, the switch, the signer,
      `mintTokens` and the receipt, stopping at the first error. */
  method MintAfterSwitch(wallet: WalletProvider?, session: Session, recipient: string, amount: string)
    returns (end: Ending, calls: seq<ContractCall>)
    requires wallet != null ==> ExactScript(wallet.script)
    modifies wallet
    ensures Reading(end, calls) == MintEnding(old(SwitchOutcome(wallet)), session, recipient, amount)
    ensures wallet != null ==> var r := Handshake(HearAll(wallet.script), old(wallet.answered));
      wallet.answered == old(wallet.answered) + |r.requests| && wallet.log == old(wallet.log) + r.requests
  {
    calls := [];
    if wallet == null {
      end := Broke(NewError(NOT_INSTALLED));
      return;
    }
    var o := SwitchToTempoNetwork(wallet);
    if o.Threw? {
      end := Broke(o.error);
      return;
    }
    if session.signer.Err? {
      end := Broke(session.signer.error);
      return;
    }
    var tx;
    tx, calls := MintTokens(session.address, session.chain, session.units, recipient, amount);
    if tx.Err? {
      end := Broke(tx.error);
      return;
    }
    var receipt := session.receipt(tx.value);
    end := if receipt.Err? then Broke(receipt.error) else Confirmed(receipt.value);
  }

  /** The success line for a given amount and recipient, awaiting the hash. */
  function MintSuccess(amount: string, recipient: string): string -> string {
    hash => MintedMessage(amount, recipient, hash)
  }

  class MintForm {
    var amount: string
    var recipient: string
    var isMinting: bool
    var status: Option<Status>
    /** The contract calls issued and the `onMintSuccess` runs so far. */
    var effects: seq<Effect>
    /** Whether an `onMintSuccess` callback was passed in. */
    const notify: bool
    /** `window.ethereum`, or `null` when no wallet is injected. */
    const wallet: WalletProvider?

    /** The form for the connected account `address`, which is the initial recipient. */
    constructor (address: string, wallet: WalletProvider?, notify: bool)
      ensures this.wallet == wallet && this.notify == notify
      ensures amount == "" && recipient == address && !isMinting && status == None
      ensures effects == []
    {
      this.wallet := wallet;
      this.notify := notify;
      amount := "";
      recipient := address;
      isMinting := false;
      status := None;
      effects := [];
    }

    /** `handleMint`. Invalid input sets the error status and touches nothing else:
        no provider request and no contract call. Otherwise the switch runs first,
        `mintTokens` only after it returns, the amount is cleared and
        `onMintSuccess` runs only after the receipt confirms, the status shows the
        success line or the mapped error, and `isMinting` is false on exit. */
    method HandleMint(session: Session, positive: string -> bool)
      requires wallet != null ==> ExactScript(wallet.script)
      modifies this, wallet
      ensures recipient == old(recipient)
      ensures !ValidMint(old(amount), recipient, positive) ==>
        status == Some(Rejection(old(amount), positive)) && isMinting == old(isMinting)
        && amount == old(amount) && effects == old(effects)
        && (wallet != null ==> wallet.answered == old(wallet.answered) && wallet.log == old(wallet.log))
      ensures ValidMint(old(amount), recipient, positive) ==>
        var end := MintEnding(old(SwitchOutcome(wallet)), session, recipient, old(amount));
        !isMinting
        && status == Some(Final(end.value, MintSuccess(old(amount), recipient), MINT_FAILED))
        && amount == (if end.value.Confirmed? then "" else old(amount))
        && effects == old(effects) + Effects(end.calls) + (if end.value.Confirmed? && notify then [Notified] else [])
      ensures ValidMint(old(amount), recipient, positive) && wallet != null ==>
        var r := Handshake(HearAll(wallet.script), old(wallet.answered));
        wallet.answered == old(wallet.answered) + |r.requests| && wallet.log == old(wallet.log) + r.requests
    {
      if amount == "" || !positive(amount) {
        status := Some(Status(Failure, INVALID_AMOUNT));
        return;
      }
      if recipient == "" || !IsAddress(recipient) {
        status := Some(Status(Failure, INVALID_RECIPIENT));
        return;
      }
      isMinting := true;
      status := Some(Status(Loading, SWITCHING));
      var end, calls := MintAfterSwitch(wallet, session, recipient, amount);
      effects := effects + Effects(calls);
      status := Some(Final(end, MintSuccess(amount, recipient), MINT_FAILED));
      if end.Confirmed? {
        amount := "";
        if notify {
          effects := effects + [Notified];
        }
      }
      isMinting := false;
    }
  }

  /** A switch that throws stops `handleMint` before any contract call, whatever
      the contract would answer. */
  lemma NoMintWithoutSwitch(e: Error, session: Session, recipient: string, amount: string)
    ensures MintEnding(Threw(e), session, recipient, amount) == Reading(Broke(e), [])
  {
  }

  /** A confirmed mint followed a switch that returned and issued exactly one
      `mint` call, to the recipient, after `decimals()`. */
  lemma ConfirmedMintCalls(switched: Outcome, session: Session, recipient: string, amount: string)
    requires MintEnding(switched, session, recipient, amount).value.Confirmed?
    ensures switched == Returned && session.address != ""
    ensures exists wei :: MintEnding(switched, session, recipient, amount).calls == [Decimals, Mint(recipient, wei)]
  {
    var wei := session.units.parse(amount, DecimalsOf(session.chain)).value;
    assert MintEnding(switched, session, recipient, amount).calls == [Decimals, Mint(recipient, wei)];
  }

  /** An error with no message, or an empty one, shows the mint form's fallback
      text, or the rejection text for code 4001: the fallback has no `T` and no
      `w`, so it does not speak of the network. */
  lemma MintFallbackShown(code: Option<int>, message: Option<string>)
    requires message == None || message == Some("")
    ensures ErrorMessage(Error(code, message), MINT_FAILED)
      == if code == Some(USER_REJECTED) then REJECTED else MINT_FAILED
  {
    var f := MINT_FAILED;
    assert forall j :: 0 <= j < |f| ==> f[j] != 'T' && f[j] != 'w';
    MissingCharExcludes(f, TEMPO_TESTNET, 0);
    MissingCharExcludes(f, NETWORK, 3);
    FallbackShown(code, message, f);
  }

  /** A user who refuses the switch sees the approval plea with the switching
      instructions; nothing is minted. */
  lemma RefusedSwitchStatus(session: Session, recipient: string, amount: string)
    ensures var end := MintEnding(Threw(NewError(APPROVE_SWITCH)), session, recipient, amount);
      end.calls == [] && Final(end.value, _ => "", MINT_FAILED) == Status(Failure, Instructions(APPROVE_SWITCH))
  {
    ApprovalPleaGetsInstructions(MINT_FAILED);
  }
}
