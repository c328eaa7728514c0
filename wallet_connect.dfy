/** The connect button (`WalletConnect`): its own, more lenient chain-id
    normalisation and network switch (no verification reads), the account
    listener, and `connectWallet` / `disconnect`. */
module WalletConnect {
  import opened Js
  import opened ChainIds
  import opened Provider
  import opened Reconciler
  import opened TokenContract

  const NO_WALLET: string := "MetaMask not installed"
  const ADD_FAILED: string := "Failed to add Tempo network to MetaMask"
  const ALREADY_EXISTS: string := "already exists"
  /** The message of the `TypeError` a settled value without `toLowerCase` (an
      array) raises, as a V8 engine words it for the unminified source; the exact
      text depends on the engine and the build. */
  const NOT_A_STRING: string := "id.toLowerCase is not a function"
  const INSTALL_WALLET: string := "MetaMask is not installed. Please install MetaMask to continue."
  const NO_ACCOUNTS: string := "No accounts found"
  const CONNECT_FAILED: string := "Failed to connect wallet"

  // ---------------------------------------------------------------- normalisation

  /** This component's `normalizeChainId`: lower-case, then `0x` in front unless it
      is already there. No trimming and no reading of decimal ids. */
  function NormalizeLenient(id: string): (r: string)
    ensures StartsWith(r, "0x") && IsLower(r)
    ensures |r| == |id| || |r| == |id| + 2
    ensures r[|r| - |id|..] == Lower(id)
    ensures StartsWith(id, "0x") ==> r == Lower(id)
  {
    var lowered := Lower(id);
    LowerIsLower(id);
    if StartsWith(lowered, "0x") then lowered
    else
      var r := "0x" + lowered;
      assert r[2..] == lowered;
      r
  }

  /** Normalising twice is normalising once. */
  lemma LenientIdempotent(id: string)
    ensures NormalizeLenient(NormalizeLenient(id)) == NormalizeLenient(id)
  {
    var r := NormalizeLenient(id);
    LowerOfLower(r);
  }

  /** The target id normalises to itself. */
  lemma LenientTarget()
    ensures NormalizeLenient(TEMPO_CHAIN_ID) == TEMPO_CHAIN_ID == LENIENT_TARGET
  {
    assert StartsWith(TEMPO_CHAIN_ID, "0x");
    LowerOfLower(TEMPO_CHAIN_ID);
  }

  /** A digit string is only prefixed, never read as a number. */
  lemma LenientPrefixesDigits(id: string)
    requires |id| > 0 && forall i :: 0 <= i < |id| ==> IsDigit(id[i])
    ensures NormalizeLenient(id) == "0x" + id
  {
    LowerOfLower(id);
    assert !StartsWith(id, "0x") by {
      if |id| >= 2 {
        assert id[..2][1] == id[1];
      }
    }
  }

  /** The target chain as the decimal string "42429".  */
  const DECIMAL_TARGET: string := "42429"

  /** So the target sent as a decimal string is "0x42429" here, which is not the
      target, while the mint and burn forms read it as "0xa5bd". */
  lemma LenientMissesDecimalTarget()
    ensures NormalizeLenient(DECIMAL_TARGET) == "0x" + DECIMAL_TARGET
    ensures NormalizeLenient(DECIMAL_TARGET) != NormalizeLenient(TEMPO_CHAIN_ID)
    ensures Exact(Text(DECIMAL_TARGET)) && Normalize(Text(DECIMAL_TARGET)) == NormalizeLenient(TEMPO_CHAIN_ID)
  {
    assert forall i :: 0 <= i < |DECIMAL_TARGET| ==> IsDigit(DECIMAL_TARGET[i]);
    LenientPrefixesDigits(DECIMAL_TARGET);
    LenientTarget();
    TargetAsDecimalString();
  }

  /** Surrounding whitespace is kept, so a padded target id does not match. */
  lemma LenientKeepsSpaces(id: string)
    requires |id| > 0 && IsSpace(id[0])
    ensures NormalizeLenient(id) != NormalizeLenient(TEMPO_CHAIN_ID)
  {
    LenientTarget();
    var r := NormalizeLenient(id);
    if |r| == |id| {
      assert r[0] == LowerChar(id[0]);
    } else {
      assert r[2] == Lower(id)[0];
    }
  }

  // ---------------------------------------------------------------- the switch

  /** `normalizeChainId(TEMPO_NETWORK.chainId)` in this component; `LenientTarget`
      shows the configured id normalises to it. */
  const LENIENT_TARGET: string := "0xa5bd"

  /** The requests this switch issued and how it ended. */
  datatype Trace = Trace(outcome: Outcome, requests: seq<RpcCall>)

  predicate NoReads(requests: seq<RpcCall>) {
    forall i :: 0 <= i < |requests| ==> requests[i] != ChainIdRead
  }

  /** An add fault that may mean the network is already known: code -32602, or a
      message mentioning that it already exists. */
  predicate MayExist(e: Error) {
    e.code == Some(INVALID_PARAMS) || MessageIncludes(e, ALREADY_EXISTS)
  }

  /** One more switch after an add that may have found the network, answered by
      reply `at`: its fault propagates as it is. */
  function SwitchAgain(script: seq<Reply>, at: nat): (r: Trace)
    ensures r.requests == SWITCH
    ensures r.outcome.Threw? <==> ReplyAt(script, at).Fault?
  {
    match ReplyAt(script, at)
    case Fault(e) => Trace(Threw(e), SWITCH)
    case _ => Trace(Returned, SWITCH)
  }

  /** The add request after a 4902 switch fault. */
  function LenientAdd(script: seq<Reply>, at: nat): (r: Trace)
    ensures 1 <= |r.requests| <= 2 && r.requests[0] == ADD[0] && NoReads(r.requests)
    ensures r.outcome == Returned ==> |r.requests| == 2 || !ReplyAt(script, at).Fault?
    ensures ReplyAt(script, at).Fault? && !MayExist(ReplyAt(script, at).error) ==>
      r == Trace(Threw(NewError(ADD_FAILED)), ADD)
  {
    match ReplyAt(script, at)
    case Fault(e) =>
      if MayExist(e) then
        var again := SwitchAgain(script, at + 1);
        Trace(again.outcome, ADD + again.requests)
      else Trace(Threw(NewError(ADD_FAILED)), ADD)
    case _ => Trace(Returned, ADD)
  }

  /** The switch request, with the add after a 4902 fault; every other fault is
      rethrown unchanged. */
  function LenientSwitch(script: seq<Reply>, at: nat): (r: Trace)
    ensures 1 <= |r.requests| <= 3 && r.requests[0] == SWITCH[0] && NoReads(r.requests)
    ensures ReplyAt(script, at).Fault? && ReplyAt(script, at).error.code != Some(UNRECOGNIZED_CHAIN) ==>
      r == Trace(Threw(ReplyAt(script, at).error), SWITCH)
    ensures !ReplyAt(script, at).Fault? ==> r == Trace(Returned, SWITCH)
  {
    match ReplyAt(script, at)
    case Fault(e) =>
      if e.code == Some(UNRECOGNIZED_CHAIN) then
        var add := LenientAdd(script, at + 1);
        Trace(add.outcome, SWITCH + add.requests)
      else Trace(Threw(e), SWITCH)
    case _ => Trace(Returned, SWITCH)
  }

  /** `switchToTempoNetwork` of the connect button, on the replies from position
      `at` on: one chain-id read and never another, no switch when the chain
      already matches, at most one switch, one add and one more switch. */
  function LenientHandshake(script: seq<Reply>, at: nat): (r: Trace)
    ensures 1 <= |r.requests| <= 4 && r.requests[0] == ChainIdRead && NoReads(r.requests[1..])
    ensures ReplyAt(script, at).Str? && NormalizeLenient(ReplyAt(script, at).text) == LENIENT_TARGET ==>
      r == Trace(Returned, [ChainIdRead])
    ensures ReplyAt(script, at).Fault? ==> r == Trace(Threw(ReplyAt(script, at).error), [ChainIdRead])
    ensures ReplyAt(script, at).Strs? ==> r == Trace(Threw(NewError(NOT_A_STRING)), [ChainIdRead])
  {
    match ReplyAt(script, at)
    case Fault(e) => Trace(Threw(e), [ChainIdRead])
    case Strs(_) => Trace(Threw(NewError(NOT_A_STRING)), [ChainIdRead])
    case Str(id) =>
      if NormalizeLenient(id) == LENIENT_TARGET then Trace(Returned, [ChainIdRead])
      else
        var s := LenientSwitch(script, at + 1);
        var r := Trace(s.outcome, [ChainIdRead] + s.requests);
        assert r.requests[1..] == s.requests;
        r
  }

  /** A refused switch (4001) comes back with its code: this variant has no plea of
      its own. */
  lemma LenientKeepsRejection(script: seq<Reply>, at: nat, id: string, m: Option<string>)
    requires ReplyAt(script, at) == Str(id) && NormalizeLenient(id) != LENIENT_TARGET
    requires ReplyAt(script, at + 1) == Fault(Error(Some(USER_REJECTED), m))
    ensures LenientHandshake(script, at) == Trace(Threw(Error(Some(USER_REJECTED), m)), [ChainIdRead] + SWITCH)
  {
  }

  /** A switch that returns is trusted: the handshake returns without reading the
      chain id again. */
  lemma LenientTrustsSwitch(script: seq<Reply>, at: nat, id: string)
    requires ReplyAt(script, at) == Str(id) && NormalizeLenient(id) != LENIENT_TARGET
    requires !ReplyAt(script, at + 1).Fault?
    ensures LenientHandshake(script, at) == Trace(Returned, [ChainIdRead] + SWITCH)
  {
  }

  /** After a 4902 switch fault the handshake is the add stage on the replies
      left. */
  lemma LenientReachesAdd(script: seq<Reply>, at: nat, id: string, e: Error)
    requires ReplyAt(script, at) == Str(id) && NormalizeLenient(id) != LENIENT_TARGET
    requires ReplyAt(script, at + 1) == Fault(e) && e.code == Some(UNRECOGNIZED_CHAIN)
    ensures var add := LenientAdd(script, at + 2);
      LenientHandshake(script, at) == Trace(add.outcome, [ChainIdRead] + SWITCH + add.requests)
  {
    var add := LenientAdd(script, at + 2);
    assert LenientSwitch(script, at + 1) == Trace(add.outcome, SWITCH + add.requests);
    assert LenientHandshake(script, at) == Trace(add.outcome, [ChainIdRead] + (SWITCH + add.requests));
  }

  /** After 4902, an add fault that may mean "known already" leads to exactly one
      more switch, whose fault ends the handshake. */
  lemma LenientRetriesSwitch(script: seq<Reply>, at: nat, id: string, e: Error, ae: Error)
    requires ReplyAt(script, at) == Str(id) && NormalizeLenient(id) != LENIENT_TARGET
    requires ReplyAt(script, at + 1) == Fault(e) && e.code == Some(UNRECOGNIZED_CHAIN)
    requires ReplyAt(script, at + 2) == Fault(ae) && MayExist(ae)
    ensures var r := LenientHandshake(script, at);
      r.requests == [ChainIdRead] + SWITCH + ADD + SWITCH
      && r.outcome == (if ReplyAt(script, at + 3).Fault? then Threw(ReplyAt(script, at + 3).error) else Returned)
  {
    LenientReachesAdd(script, at, id, e);
    AddRetries(script, at + 2);
    LogAppend([ChainIdRead] + SWITCH, ADD, SWITCH);
  }

  /** The add stage after a fault that may mean "known already". */
  lemma AddRetries(script: seq<Reply>, at: nat)
    requires ReplyAt(script, at).Fault? && MayExist(ReplyAt(script, at).error)
    ensures LenientAdd(script, at) ==
      Trace(if ReplyAt(script, at + 1).Fault? then Threw(ReplyAt(script, at + 1).error) else Returned, ADD + SWITCH)
  {
  }

  /** Any other add fault becomes the add-failed error, after three requests. */
  lemma LenientAddFails(script: seq<Reply>, at: nat, id: string, e: Error, ae: Error)
    requires ReplyAt(script, at) == Str(id) && NormalizeLenient(id) != LENIENT_TARGET
    requires ReplyAt(script, at + 1) == Fault(e) && e.code == Some(UNRECOGNIZED_CHAIN)
    requires ReplyAt(script, at + 2) == Fault(ae) && !MayExist(ae)
    ensures LenientHandshake(script, at) == Trace(Threw(NewError(ADD_FAILED)), [ChainIdRead] + SWITCH + ADD)
  {
    LenientReachesAdd(script, at, id, e);
  }

  /** The add request and, when its fault may mean "known already", the second
      switch. */
  method AddLeniently(p: WalletProvider) returns (o: Outcome)
    modifies p
    ensures var r := LenientAdd(p.script, old(p.answered));
      o == r.outcome && p.answered == old(p.answered) + |r.requests| && p.log == old(p.log) + r.requests
  {
    var added := p.Request(AddChain(TEMPO_NETWORK));
    if !added.Fault? {
      return Returned;
    }
    if !MayExist(added.error) {
      return Threw(NewError(ADD_FAILED));
    }
    var again := p.Request(SwitchChain(TEMPO_CHAIN_ID));
    o := if again.Fault? then Threw(again.error) else Returned;
  }

  /** The switch request and, after 4902, the add. */
  method SwitchOrAdd(p: WalletProvider) returns (o: Outcome)
    modifies p
    ensures var r := LenientSwitch(p.script, old(p.answered));
      o == r.outcome && p.answered == old(p.answered) + |r.requests| && p.log == old(p.log) + r.requests
  {
    var switched := p.Request(SwitchChain(TEMPO_CHAIN_ID));
    if !switched.Fault? {
      return Returned;
    }
    if switched.error.code != Some(UNRECOGNIZED_CHAIN) {
      return Threw(switched.error);
    }
    o := AddLeniently(p);
    LogAppend(old(p.log), SWITCH, LenientAdd(p.script, old(p.answered) + 1).requests);
  }

  /** The connect button's `switchToTempoNetwork` against a wallet, or the
      missing-wallet error. */
  method SwitchLeniently(p: WalletProvider?) returns (o: Outcome)
    modifies p
    ensures p == null ==> o == Threw(NewError(NO_WALLET))
    ensures p != null ==> var r := LenientHandshake(p.script, old(p.answered));
      o == r.outcome && p.answered == old(p.answered) + |r.requests| && p.log == old(p.log) + r.requests
  {
    if p == null {
      return Threw(NewError(NO_WALLET));
    }
    var chainId := p.Request(ChainIdRead);
    if chainId.Fault? {
      return Threw(chainId.error);
    }
    if chainId.Strs? {
      return Threw(NewError(NOT_A_STRING));
    }
    if NormalizeLenient(chainId.text) == LENIENT_TARGET {
      return Returned;
    }
    o := SwitchOrAdd(p);
    LogAppend(old(p.log), [ChainIdRead], LenientSwitch(p.script, old(p.answered) + 1).requests);
  }

  // ---------------------------------------------------------------- the component

  /** A run of a callback the parent passed in. */
  datatype Callback = Connected(account: string) | Disconnected

  /** The address and callbacks after an `accountsChanged` event. */
  datatype Change = Change(address: string, fired: seq<Callback>)

  /** `handleAccountsChanged`: an empty list disconnects; a first account that
      differs from the current address is stored and announced; the same account
      changes nothing. */
  function OnAccounts(current: string, accounts: seq<string>): (c: Change)
    ensures |accounts| == 0 ==> c == Change("", [Disconnected])
    ensures |accounts| > 0 ==> c.address == accounts[0]
    ensures |accounts| > 0 ==> (c.fired != [] <==> current != accounts[0])
    ensures c.fired != [] ==> |c.fired| == 1 && (c.fired[0].Connected? ==> c.fired[0].account == c.address)
  {
    if |accounts| == 0 then Change("", [Disconnected])
    else if current != accounts[0] then Change(accounts[0], [Connected(accounts[0])])
    else Change(current, [])
  }

  /** The same non-empty list delivered twice announces the account only once. */
  lemma AccountsChangedSettles(current: string, accounts: seq<string>)
    requires |accounts| > 0
    ensures var once := OnAccounts(current, accounts);
      OnAccounts(once.address, accounts) == Change(once.address, [])
  {
  }

  /** An empty list disconnects every time it arrives. */
  lemma EmptyListAlwaysDisconnects(current: string)
    ensures OnAccounts(OnAccounts(current, []).address, []) == Change("", [Disconnected])
  {
  }

  /** The result of `eth_requestAccounts`: a fault, no account, or the first one.
      A string answer is indexed like the array it should be. */
  function FirstAccount(reply: Reply): (r: Result<string>)
    ensures reply.Fault? ==> r == Err(reply.error)
    ensures reply.Strs? && |reply.items| > 0 ==> r == Ok(reply.items[0])
    ensures (reply.Strs? && |reply.items| == 0) || reply == Str("") ==> r == Err(NewError(NO_ACCOUNTS))
  {
    match reply
    case Fault(e) => Err(e)
    case Strs(items) => if |items| == 0 then Err(NewError(NO_ACCOUNTS)) else Ok(items[0])
    case Str(s) => if |s| == 0 then Err(NewError(NO_ACCOUNTS)) else Ok([s[0]])
  }

  /** The provider requests of `connectWallet` and the account it connects, or the
      error it catches. */
  datatype Connection = Connection(account: Result<string>, requests: seq<RpcCall>)

  /** `connectWallet` on the replies from position `at` on: the account request,
      then the switch; the account is connected only when the switch returns. */
  function Connect(script: seq<Reply>, at: nat): (c: Connection)
    ensures |c.requests| >= 1 && c.requests[0] == RequestAccounts
    ensures c.account.Ok? ==>
      (FirstAccount(ReplyAt(script, at)) == c.account
       && LenientHandshake(script, at + 1).outcome == Returned
       && c.requests == [RequestAccounts] + LenientHandshake(script, at + 1).requests)
    ensures FirstAccount(ReplyAt(script, at)).Err? ==> c == Connection(FirstAccount(ReplyAt(script, at)), [RequestAccounts])
    ensures FirstAccount(ReplyAt(script, at)).Ok? ==>
      (c.account.Ok? <==> LenientHandshake(script, at + 1).outcome == Returned)
    ensures FirstAccount(ReplyAt(script, at)).Ok? && LenientHandshake(script, at + 1).outcome.Threw? ==>
      c.account == Err(LenientHandshake(script, at + 1).outcome.error)
  {
    match FirstAccount(ReplyAt(script, at))
    case Err(e) => Connection(Err(e), [RequestAccounts])
    case Ok(account) =>
      var h := LenientHandshake(script, at + 1);
      Connection(if h.outcome.Threw? then Err(h.outcome.error) else Ok(account), [RequestAccounts] + h.requests)
  }

  /** The provider part of `connectWallet`: the account request, then the switch
      when there is an account. */
  method RequestAccountAndSwitch(p: WalletProvider) returns (account: Result<string>)
    modifies p
    ensures var c := Connect(p.script, old(p.answered));
      account == c.account && p.answered == old(p.answered) + |c.requests| && p.log == old(p.log) + c.requests
  {
    var accounts := p.Request(RequestAccounts);
    account := FirstAccount(accounts);
    if account.Err? {
      return;
    }
    var o := SwitchLeniently(p);
    LogAppend(old(p.log), [RequestAccounts], LenientHandshake(p.script, old(p.answered) + 1).requests);
    if o.Threw? {
      account := Err(o.error);
    }
  }

  class WalletButton {
    var address: string
    var isConnecting: bool
    var error: string
    /** The `onConnect` / `onDisconnect` runs so far. */
    var callbacks: seq<Callback>
    /** `window.ethereum`, or `null` when no wallet is injected. */
    const wallet: WalletProvider?

    constructor (wallet: WalletProvider?)
      ensures this.wallet == wallet && address == "" && !isConnecting && error == "" && callbacks == []
    {
      this.wallet := wallet;
      address := "";
      isConnecting := false;
      error := "";
      callbacks := [];
    }

    /** `handleAccountsChanged`, as `OnAccounts` says. The listener is only
        registered when a wallet is injected. */
    method HandleAccountsChanged(accounts: seq<string>)
      requires wallet != null
      modifies this
      ensures var c := OnAccounts(old(address), accounts);
        address == c.address && callbacks == old(callbacks) + c.fired
      ensures isConnecting == old(isConnecting) && error == old(error)
    {
      if |accounts| == 0 {
        address := "";
        callbacks := callbacks + [Disconnected];
      } else if address != accounts[0] {
        callbacks := callbacks + [Connected(accounts[0])];
        address := accounts[0];
      }
    }

    /** `connectWallet`: the error is cleared, then either the account is stored and
        announced after the switch returns, or the caught message is shown and
        nothing else changes; `isConnecting` is false on exit. */
    method ConnectWallet()
      modifies this, wallet
      ensures !isConnecting
      ensures wallet == null ==>
        error == INSTALL_WALLET && address == old(address) && callbacks == old(callbacks)
      ensures wallet != null ==> var c := Connect(wallet.script, old(wallet.answered));
        wallet.answered == old(wallet.answered) + |c.requests| && wallet.log == old(wallet.log) + c.requests
        && (c.account.Ok? ==>
              error == "" && address == c.account.value && callbacks == old(callbacks) + [Connected(c.account.value)])
        && (c.account.Err? ==>
              error == MessageOr(c.account.error, CONNECT_FAILED) && address == old(address) && callbacks == old(callbacks))
    {
      isConnecting := true;
      error := "";
      if wallet == null {
        error := INSTALL_WALLET;
        isConnecting := false;
        return;
      }
      var account := RequestAccountAndSwitch(wallet);
      if account.Err? {
        error := MessageOr(account.error, CONNECT_FAILED);
      } else {
        address := account.value;
        callbacks := callbacks + [Connected(account.value)];
      }
      isConnecting := false;
    }

    /** `disconnect`: the address is cleared and `onDisconnect` runs. */
    method Disconnect()
      modifies this
      ensures address == "" && callbacks == old(callbacks) + [Disconnected]
      ensures isConnecting == old(isConnecting) && error == old(error)
    {
      address := "";
      callbacks := callbacks + [Disconnected];
    }
  }
}
