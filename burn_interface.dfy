/** The burn form (`handleBurn`, `loadBalance`): the amount and balance checks, the
    network switch, the contract write, and the reloaded balance. */
module BurnInterface {
  import opened Js
  import opened Provider
  import opened Reconciler
  import opened TokenContract
  import opened Forms

  const BURN_FAILED: string := "Failed to burn tokens. Please try again."
  const INITIAL_BALANCE: string := "0"

  /** The refusal when the amount is above the balance shown. */
  function Insufficient(balance: string): string {
    "Insufficient balance. You have " + balance + " TMINT tokens."
  }

  /** The success line: the amount and the first ten characters of the receipt hash. */
  function BurnedMessage(amount: string, hash: string): string {
    CHECK_MARK + "Successfully burned " + amount + " TMINT tokens! Transaction: " + Substring(hash, 0, 10) + "..."
  }

  function BurnSuccess(amount: string): string -> string {
    hash => BurnedMessage(amount, hash)
  }

  /** The inputs `handleBurn` accepts; `positive` stands for
      `!(parseFloat(amount) <= 0)`, which holds when `parseFloat` gives NaN, and
      `exceeds` for `parseFloat(amount) > parseFloat(balance)`, which does not. */
  predicate ValidBurn(amount: string, balance: string, positive: string -> bool, exceeds: (string, string) -> bool) {
    amount != "" && positive(amount) && !exceeds(amount, balance)
  }

  /** The status an invalid input leaves. */
  function Rejection(amount: string, balance: string, positive: string -> bool): Status {
    if amount == "" || !positive(amount) then Status(Failure, INVALID_AMOUNT)
    else Status(Failure, Insufficient(balance))
  }

  /** What `handleBurn` does once the inputs are valid: the switch (or the missing
      wallet), then `burnTokens` and the receipt. */
  function BurnEnding(switched: Outcome, session: Session, amount: string): Reading<Ending> {
    AfterSwitch(switched, session, BurnTx(session.address, session.chain, session.units, amount))
  }

  /** The `try` block of `handleBurn` up to the receipt: the wallet check, the
      switch, the signer, `burnTokens` and `tx.wait()`, stopping at the first error. */
  method BurnAfterSwitch(wallet: WalletProvider?, session: Session, amount: string)
    returns (end: Ending, calls: seq<ContractCall>)
    requires wallet != null ==> ExactScript(wallet.script)
    modifies wallet
    ensures Reading(end, calls) == BurnEnding(old(SwitchOutcome(wallet)), session, amount)
    ensures wallet != null ==> var r := Handshake(HearAll(wallet.script), old(wallet.answered));
      wallet.answered == old(wallet.answered) + |r.requests| && wallet.log == old(wallet.log) + r.requests
  {
    calls := [];
    if wallet == null {
      end := Broke(NewError(NOT_INSTALLED));
      return;
    }
    var o := SwitchToTempoNetwork(wallet);
    if o.Threw? {
      end := Broke(o.error);
      return;
    }
    if session.signer.Err? {
      end := Broke(session.signer.error);
      return;
    }
    var tx;
    tx, calls := BurnTokens(session.address, session.chain, session.units, amount);
    if tx.Err? {
      end := Broke(tx.error);
      return;
    }
    var receipt := session.receipt(tx.value);
    end := if receipt.Err? then Broke(receipt.error) else Confirmed(receipt.value);
  }

  /** The balance after `loadBalance`: `getBalance(owner)` for an account, the
      balance already shown without one. */
  function Reloaded(session: Session, owner: string, shown: string): (r: Reading<string>)
    ensures owner == "" ==> r == Reading(shown, [])
    ensures owner != "" && session.address == "" ==> r == Reading("0", [])
    ensures owner != "" && session.address != "" ==> r.calls != [] && r.calls[0] == BalanceOf(owner)
  {
    if owner == "" then Reading(shown, []) else Balance(session.address, session.chain, session.units, owner)
  }

  class BurnForm {
    /** The connected account whose balance is shown. */
    const address: string
    var balance: string
    var amount: string
    var isBurning: bool
    var status: Option<Status>
    /** The contract calls issued and the `onBurnSuccess` runs so far. */
    var effects: seq<Effect>
    /** Whether an `onBurnSuccess` callback was passed in. */
    const notify: bool
    /** `window.ethereum`, or `null` when no wallet is injected. */
    const wallet: WalletProvider?

    constructor (address: string, wallet: WalletProvider?, notify: bool)
      ensures this.address == address && this.wallet == wallet && this.notify == notify
      ensures balance == INITIAL_BALANCE && amount == "" && !isBurning && status == None && effects == []
    {
      this.address := address;
      this.wallet := wallet;
      this.notify := notify;
      balance := INITIAL_BALANCE;
      amount := "";
      isBurning := false;
      status := None;
      effects := [];
    }

    /** `loadBalance`: with an account, the balance becomes `getBalance(address)`
        (which never fails); without one nothing happens. */
    method LoadBalance(session: Session)
      modifies this
      ensures amount == old(amount) && isBurning == old(isBurning) && status == old(status)
      ensures var b := Reloaded(session, address, old(balance));
        balance == b.value && effects == old(effects) + Effects(b.calls)
    {
      if address != "" {
        var bal, calls := GetBalance(session.address, session.chain, session.units, address);
        balance := bal;
        effects := effects + Effects(calls);
      }
    }

    /** `handleBurn`. Invalid input, including an amount above the balance shown,
        sets the error status and touches nothing else. Otherwise the switch runs
        first, `burnTokens` only after it returns; after the receipt confirms, the
        amount is cleared, the balance is reloaded and then `onBurnSuccess` runs;
        the status shows the success line or the mapped error, and `isBurning` is
        false on exit. */
    method HandleBurn(session: Session, positive: string -> bool, exceeds: (string, string) -> bool)
      requires wallet != null ==> ExactScript(wallet.script)
      modifies this, wallet
      ensures !ValidBurn(old(amount), old(balance), positive, exceeds) ==>
        status == Some(Rejection(old(amount), old(balance), positive)) && isBurning == old(isBurning)
        && amount == old(amount) && balance == old(balance) && effects == old(effects)
        && (wallet != null ==> wallet.answered == old(wallet.answered) && wallet.log == old(wallet.log))
      ensures ValidBurn(old(amount), old(balance), positive, exceeds) ==>
        var end := BurnEnding(old(SwitchOutcome(wallet)), session, old(amount));
        !isBurning
        && status == Some(Final(end.value, BurnSuccess(old(amount)), BURN_FAILED))
        && Conclusion(end.value, session, old(amount), old(balance), old(effects) + Effects(end.calls))
      ensures ValidBurn(old(amount), old(balance), positive, exceeds) && wallet != null ==>
        var r := Handshake(HearAll(wallet.script), old(wallet.answered));
        wallet.answered == old(wallet.answered) + |r.requests| && wallet.log == old(wallet.log) + r.requests
    {
      if amount == "" || !positive(amount) {
        status := Some(Status(Failure, INVALID_AMOUNT));
        return;
      }
      if exceeds(amount, balance) {
        status := Some(Status(Failure, Insufficient(balance)));
        return;
      }
      isBurning := true;
      status := Some(Status(Loading, SWITCHING));
      var end, calls := BurnAfterSwitch(wallet, session, amount);
      effects := effects + Effects(calls);
      Conclude(end, session);
    }

    /** What the form holds after the write ends: on success the amount is
        cleared, the balance reloaded and the callback run after the reload's
        calls; on failure amount, balance and effects stay as they were. */
    ghost predicate Conclusion(end: Ending, session: Session, amount0: string, balance0: string, effects0: seq<Effect>)
      reads this
    {
      if end.Confirmed? then
        var b := Reloaded(session, address, balance0);
        amount == "" && balance == b.value
        && effects == effects0 + Effects(b.calls) + (if notify then [Notified] else [])
      else amount == amount0 && balance == balance0 && effects == effects0
    }

    /** The end of `handleBurn`: the final status, the success steps, and the busy
        flag cleared in `finally`. */
    method Conclude(end: Ending, session: Session)
      modifies this
      ensures !isBurning && status == Some(Final(end, BurnSuccess(old(amount)), BURN_FAILED))
      ensures Conclusion(end, session, old(amount), old(balance), old(effects))
    {
      status := Some(Final(end, BurnSuccess(amount), BURN_FAILED));
      if end.Confirmed? {
        amount := "";
        LoadBalance(session);
        if notify {
          effects := effects + [Notified];
        }
      }
      isBurning := false;
    }
  }

  /** A switch that throws stops `handleBurn` before any contract call. */
  lemma NoBurnWithoutSwitch(e: Error, session: Session, amount: string)
    ensures BurnEnding(Threw(e), session, amount) == Reading(Broke(e), [])
  {
  }

  /** An error with no message, or an empty one, shows the burn form's fallback
      text, or the rejection text for code 4001. */
  lemma BurnFallbackShown(code: Option<int>, message: Option<string>)
    requires message == None || message == Some("")
    ensures ErrorMessage(Error(code, message), BURN_FAILED)
      == if code == Some(USER_REJECTED) then REJECTED else BURN_FAILED
  {
    var f := BURN_FAILED;
    assert forall j :: 0 <= j < |f| ==> f[j] != 'T' && f[j] != 'w';
    MissingCharExcludes(f, TEMPO_TESTNET, 0);
    MissingCharExcludes(f, NETWORK, 3);
    FallbackShown(code, message, f);
  }

  /** A confirmed burn followed a switch that returned and issued exactly one
      `burn` call, after `decimals()`. */
  lemma ConfirmedBurnCalls(switched: Outcome, session: Session, amount: string)
    requires BurnEnding(switched, session, amount).value.Confirmed?
    ensures switched == Returned && session.address != ""
    ensures exists wei :: BurnEnding(switched, session, amount).calls == [Decimals, Burn(wei)]
  {
    var wei := session.units.parse(amount, DecimalsOf(session.chain)).value;
    assert BurnEnding(switched, session, amount).calls == [Decimals, Burn(wei)];
  }
}
