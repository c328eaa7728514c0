/** The network switch handshake of the mint and burn forms (`switchToTempoNetwork`),
    as a specification over the answers the wallet gives from a position in its
    script on: how the call ends and the requests it issues, one answer heard per
    request. The mint and burn forms carry the same code; the imperative methods
    at the end of this module follow it and are proved equal to the
    specification. */
module Reconciler {
  import opened Js
  import opened ChainIds
  import opened Provider

  const NOT_INSTALLED: string := "MetaMask is not installed"
  const NETWORK: string := "network"
  const TEMPO_TESTNET: string := "Tempo testnet"
  const APPROVE_SWITCH: string := "Please approve the " + NETWORK + " switch in MetaMask"
  const SWITCH_MANUALLY: string := "Please switch to " + TEMPO_TESTNET + " manually in MetaMask"
  const SWITCH_TO_CONTINUE: string := "Please switch to " + TEMPO_TESTNET + " in MetaMask to continue"

  /** Provider error codes: 4001 "User Rejected Request" (EIP-1193), 4902
      "unrecognized chain" (a wallet convention), and -32602 "Invalid params" and
      -32603 "Internal error" (section 5.1 of JSON-RPC 2.0). */
  const USER_REJECTED: int := 4001
  const UNRECOGNIZED_CHAIN: int := 4902
  const INVALID_PARAMS: int := -32602
  const INTERNAL_ERROR: int := -32603

  /** The chain id every read is compared with, `normalizeChainId(TEMPO_NETWORK.chainId)`;
      `TargetNormalized` shows it is what the configured id normalises to. */
  const TEMPO_TARGET: string := "0xa5bd"

  lemma TargetNormalized()
    ensures Exact(Text(TEMPO_CHAIN_ID)) && Normalize(Text(TEMPO_CHAIN_ID)) == TEMPO_TARGET
  {
    TargetAsPrefixedHex();
  }

  /** The string `normalizeChainId` works on for a settled `eth_chainId`: the
      string itself, or for an array its `toString()`. */
  function ReplyString(r: Reply): string
    requires !r.Fault?
  {
    match r
    case Str(s) => s
    case Strs(items) => JoinComma(items)
  }

  predicate ExactReply(r: Reply) {
    r.Fault? || Exact(Text(ReplyString(r)))
  }

  /** Every scripted chain id is one the model normalises exactly. */
  predicate ExactScript(script: seq<Reply>) {
    forall i :: 0 <= i < |script| ==> ExactReply(script[i])
  }

  /** How the handshake hears one reply: a fault, or a settled value whose
      normalisation is, or is not, the target chain id. For the reply to a switch
      or add request only `Failed` matters. */
  datatype Answer = OnTarget | OffTarget | Failed(error: Error)

  function Hear(r: Reply): Answer
    requires ExactReply(r)
  {
    if r.Fault? then Failed(r.error)
    else if Normalize(Text(ReplyString(r))) == TEMPO_TARGET then OnTarget
    else OffTarget
  }

  /** The answers the handshake will hear, one per scripted reply. */
  function HearAll(script: seq<Reply>): (answers: seq<Answer>)
    requires ExactScript(script)
    ensures |answers| == |script|
  {
    seq(|script|, i requires 0 <= i < |script| => Hear(script[i]))
  }

  /** What an exhausted script answers. */
  const SILENCE: Answer := Failed(Error(None, None))

  /** The answer heard at position `at`. */
  function Next(answers: seq<Answer>, at: nat): Answer {
    if at < |answers| then answers[at] else SILENCE
  }

  /** The add fault says a network with the same RPC endpoint already exists. */
  predicate SameRpcEndpoint(e: Error) {
    e.code == Some(INTERNAL_ERROR) || MessageIncludes(e, "same RPC endpoint")
  }

  /** The add fault says the network is already configured. */
  predicate DuplicateNetwork(e: Error) {
    e.code == Some(INVALID_PARAMS) || MessageIncludes(e, "already exists") || MessageIncludes(e, "duplicate")
  }

  /** The requests the handshake may issue: reads, and switch and add requests
      naming the target. */
  predicate Aimed(q: RpcCall) {
    q == ChainIdRead || q == SwitchChain(TEMPO_CHAIN_ID) || q == AddChain(TEMPO_NETWORK)
  }

  predicate AllAimed(requests: seq<RpcCall>) {
    forall i :: 0 <= i < |requests| ==> Aimed(requests[i])
  }

  /** How many of `requests` are `q`. */
  function Occurrences(requests: seq<RpcCall>, q: RpcCall): nat {
    if requests == [] then 0
    else (if requests[0] == q then 1 else 0) + Occurrences(requests[1..], q)
  }

  lemma {:induction false} OccurrencesConcat(x: seq<RpcCall>, y: seq<RpcCall>, q: RpcCall)
    ensures Occurrences(x + y, q) == Occurrences(x, q) + Occurrences(y, q)
  {
    if x != [] {
      assert (x + y)[0] == x[0] && (x + y)[1..] == x[1..] + y;
      OccurrencesConcat(x[1..], y, q);
    } else {
      assert x + y == y;
    }
  }

  function Switches(requests: seq<RpcCall>): nat {
    Occurrences(requests, SwitchChain(TEMPO_CHAIN_ID))
  }

  function Adds(requests: seq<RpcCall>): nat {
    Occurrences(requests, AddChain(TEMPO_NETWORK))
  }

  /** The requests are all aimed at the target, with at most `switches` switch
      requests, `adds` add requests and `total` requests in all. */
  predicate Budget(requests: seq<RpcCall>, switches: nat, adds: nat, total: nat) {
    AllAimed(requests) && Switches(requests) <= switches && Adds(requests) <= adds
    && |requests| <= total
  }

  lemma BudgetConcat(x: seq<RpcCall>, y: seq<RpcCall>, s1: nat, a1: nat, n1: nat, s2: nat, a2: nat, n2: nat)
    requires Budget(x, s1, a1, n1) && Budget(y, s2, a2, n2)
    ensures Budget(x + y, s1 + s2, a1 + a2, n1 + n2)
  {
    OccurrencesConcat(x, y, SwitchChain(TEMPO_CHAIN_ID));
    OccurrencesConcat(x, y, AddChain(TEMPO_NETWORK));
  }

  function Reads(n: nat): (calls: seq<RpcCall>)
    ensures |calls| == n && forall i :: 0 <= i < n ==> calls[i] == ChainIdRead
  {
    if n == 0 then [] else [ChainIdRead] + Reads(n - 1)
  }

  lemma {:induction false} ReadsBudget(n: nat)
    ensures Budget(Reads(n), 0, 0, n)
  {
    if n > 0 {
      ReadsBudget(n - 1);
      assert Reads(n)[0] == ChainIdRead && Reads(n)[1..] == Reads(n - 1);
    }
  }

  const SWITCH: seq<RpcCall> := [SwitchChain(TEMPO_CHAIN_ID)]
  const ADD: seq<RpcCall> := [AddChain(TEMPO_NETWORK)]

  lemma SwitchAddBudget()
    ensures Budget(SWITCH, 1, 0, 1) && Budget(ADD, 0, 1, 1)
  {
    assert SWITCH[1..] == [] && ADD[1..] == [];
    assert Occurrences([], SwitchChain(TEMPO_CHAIN_ID)) == 0 && Occurrences([], AddChain(TEMPO_NETWORK)) == 0;
    assert SwitchChain(TEMPO_CHAIN_ID) != AddChain(TEMPO_NETWORK);
  }


  /** One run of a handshake step: how it ends and the requests it issues, in
      order. Each request hears one answer, so a run started at position `at`
      leaves the script at `at + |requests|`. */
  datatype Run = Run(outcome: Outcome, requests: seq<RpcCall>)

  /** Puts `calls` in front of the requests of `r`. */
  function After(calls: seq<RpcCall>, r: Run): Run {
    r.(requests := calls + r.requests)
  }

  /** The end of a run of chain-id reads: the last answer and the reads issued. */
  datatype Polled = Polled(answer: Answer, requests: seq<RpcCall>)

  function Prefix(calls: seq<RpcCall>, p: Polled): Polled {
    p.(requests := calls + p.requests)
  }

  /** One `eth_chainId` read, normalised and compared with the target. */
  function Read(answers: seq<Answer>, at: nat): (p: Polled)
    ensures p.requests == Reads(1)
  {
    Polled(Next(answers, at), [ChainIdRead])
  }

  /** Up to `n` reads, stopping at the first that matches or faults; `OffTarget`
      when all `n` mismatch. */
  function Polls(answers: seq<Answer>, at: nat, n: nat): (p: Polled)
    decreases n
    ensures |p.requests| <= n && p.requests == Reads(|p.requests|)
    ensures p.answer.OffTarget? ==> |p.requests| == n
    ensures !p.answer.OffTarget? ==> |p.requests| > 0
  {
    if n == 0 then Polled(OffTarget, [])
    else
      var first := Read(answers, at);
      if first.answer.OffTarget? then
        var rest := Polls(answers, at + 1, n - 1);
        assert Reads(1) + Reads(|rest.requests|) == Reads(1 + |rest.requests|);
        Prefix(first.requests, rest)
      else first
  }

  /** The final check before a throw: one read; a mismatch throws `plea`. */
  function FinalCheck(answers: seq<Answer>, at: nat, plea: string): (r: Run)
    ensures r.requests == Reads(1)
    ensures r.outcome == Threw(NewError(plea)) <== Next(answers, at) == OffTarget
    ensures Next(answers, at) == OnTarget ==> r.outcome == Returned
    ensures Next(answers, at).Failed? ==> r.outcome == Threw(Next(answers, at).error)
  {
    match Next(answers, at)
    case Failed(e) => Run(Threw(e), [ChainIdRead])
    case OnTarget => Run(Returned, [ChainIdRead])
    case OffTarget => Run(Threw(NewError(plea)), [ChainIdRead])
  }

  /** A switch or add request and, when it settles, the three-read verification.
      A fault of the request or of a read ends it with that fault, as both land in
      the same `catch`; `OffTarget` means all three reads mismatched. */
  function Attempt(call: RpcCall, answers: seq<Answer>, at: nat): (p: Polled)
    ensures 1 <= |p.requests| <= 4 && p.requests == [call] + Reads(|p.requests| - 1)
  {
    var settled := Next(answers, at);
    if settled.Failed? then Polled(settled, [call])
    else Prefix([call], Polls(answers, at + 1, 3))
  }

  /** The switch retried after a "same RPC endpoint" add fault; a fault of the
      switch or of a read leads to one more read. `OffTarget` means control falls
      through to the next branch. */
  function RetrySwitch(answers: seq<Answer>, at: nat): (p: Polled)
    ensures 1 <= |p.requests| <= 5 && p.requests[0] == SWITCH[0]
  {
    var attempt := Attempt(SWITCH[0], answers, at);
    match attempt.answer
    case Failed(_) => Prefix(attempt.requests, Read(answers, at + |attempt.requests|))
    case _ => attempt
  }

  /** The duplicate-network branch and its `else`: retry the switch once with one
      unpaced read, or give up after a final check. */
  function DuplicateOrGiveUp(ae: Error, answers: seq<Answer>, at: nat): (r: Run)
    ensures r.requests != [] && (r.requests[0] == SWITCH[0] <==> DuplicateNetwork(ae))
    ensures !DuplicateNetwork(ae) ==> r == FinalCheck(answers, at, SWITCH_MANUALLY)
  {
    if DuplicateNetwork(ae) then
      if Next(answers, at).Failed? then
        After(SWITCH, FinalCheck(answers, at + 1, SWITCH_MANUALLY))
      else
        var check := Read(answers, at + 1);
        match check.answer
        case Failed(_) => After(SWITCH + check.requests, FinalCheck(answers, at + 2, SWITCH_MANUALLY))
        case _ => Run(Returned, SWITCH + check.requests)
    else
      FinalCheck(answers, at, SWITCH_MANUALLY)
  }

  /** After a failed add and a re-read that still mismatches: the same-RPC retry,
      then the duplicate-network branch. */
  function RecoverAdd(ae: Error, answers: seq<Answer>, at: nat): (r: Run)
    ensures r.requests != [] && (r.requests[0] == SWITCH[0] <==> SameRpcEndpoint(ae) || DuplicateNetwork(ae))
  {
    if SameRpcEndpoint(ae) then
      var retry := RetrySwitch(answers, at);
      match retry.answer
      case Failed(e) => Run(Threw(e), retry.requests)
      case OnTarget => Run(Returned, retry.requests)
      case OffTarget => After(retry.requests, DuplicateOrGiveUp(ae, answers, at + |retry.requests|))
    else
      DuplicateOrGiveUp(ae, answers, at)
  }

  /** The `catch (addError)` block: re-read the chain, then recover. */
  function OnAddError(ae: Error, answers: seq<Answer>, at: nat): (r: Run)
    ensures r.requests != [] && r.requests[0] == ChainIdRead
    ensures Next(answers, at) == OnTarget ==> r == Run(Returned, [ChainIdRead])
  {
    match Next(answers, at)
    case Failed(e) => Run(Threw(e), [ChainIdRead])
    case OnTarget => Run(Returned, [ChainIdRead])
    case OffTarget => After([ChainIdRead], RecoverAdd(ae, answers, at + 1))
  }

  /** The 4902 branch: add the network, then the three-read verification. */
  function TryAdd(answers: seq<Answer>, at: nat): (r: Run)
    ensures r.requests != [] && r.requests[0] == ADD[0]
  {
    var attempt := Attempt(ADD[0], answers, at);
    match attempt.answer
    case Failed(e) => After(attempt.requests, OnAddError(e, answers, at + |attempt.requests|))
    case _ => Run(Returned, attempt.requests)
  }

  /** The `catch (switchError)` block: a user rejection ends the handshake at once
      with no further request; 4902 leads to the add; any other fault to a final
      check. */
  function OnSwitchError(se: Error, answers: seq<Answer>, at: nat): (r: Run)
    ensures se.code == Some(USER_REJECTED) ==> r == Run(Threw(NewError(APPROVE_SWITCH)), [])
    ensures se.code == Some(UNRECOGNIZED_CHAIN) ==> r.requests != [] && r.requests[0] == ADD[0]
    ensures se.code != Some(USER_REJECTED) && se.code != Some(UNRECOGNIZED_CHAIN) ==>
      r == FinalCheck(answers, at, SWITCH_TO_CONTINUE)
  {
    if se.code == Some(USER_REJECTED) then Run(Threw(NewError(APPROVE_SWITCH)), [])
    else if se.code == Some(UNRECOGNIZED_CHAIN) then TryAdd(answers, at)
    else FinalCheck(answers, at, SWITCH_TO_CONTINUE)
  }

  /** The `try` around the first switch and its three-read verification, and its
      `catch`. */
  function TrySwitch(answers: seq<Answer>, at: nat): (r: Run)
    ensures r.requests != [] && r.requests[0] == SWITCH[0]
  {
    var attempt := Attempt(SWITCH[0], answers, at);
    match attempt.answer
    case Failed(e) => After(attempt.requests, OnSwitchError(e, answers, at + |attempt.requests|))
    case _ => Run(Returned, attempt.requests)
  }

  /** `switchToTempoNetwork` with a provider present: read the chain, return at once
      on the target, otherwise switch. The first request is a chain-id read, and
      it is the only one unless that read names another chain. */
  function Handshake(answers: seq<Answer>, at: nat): (r: Run)
    ensures r.requests != [] && r.requests[0] == ChainIdRead
    ensures Next(answers, at) != OffTarget <==> r.requests == [ChainIdRead]
  {
    match Next(answers, at)
    case Failed(e) => Run(Threw(e), [ChainIdRead])
    case OnTarget => Run(Returned, [ChainIdRead])
    case OffTarget => After([ChainIdRead], TrySwitch(answers, at + 1))
  }

  // ---------------------------------------------------------------- the code

  /** Reply number `n` of `script` is heard as the answer at position `n`. */
  ghost predicate HeardAt(script: seq<Reply>, answers: seq<Answer>, n: nat) {
    ExactReply(ReplyAt(script, n)) && Next(answers, n) == Hear(ReplyAt(script, n))
  }

  /** `answers` are what the handshake hears from `script`, position by position;
      past its end a script is heard as `SILENCE`. */
  ghost predicate Hears(script: seq<Reply>, answers: seq<Answer>) {
    forall n: nat :: HeardAt(script, answers, n)
  }

  /** The reply to request number `n` is heard as the answer at position `n`. */
  lemma HearAt(script: seq<Reply>, n: nat)
    requires ExactScript(script)
    ensures ExactReply(ReplyAt(script, n)) && Next(HearAll(script), n) == Hear(ReplyAt(script, n))
  {
  }

  lemma HearsAll(script: seq<Reply>)
    requires ExactScript(script)
    ensures Hears(script, HearAll(script))
  {
    forall n: nat
      ensures HeardAt(script, HearAll(script), n)
    {
      HearAt(script, n);
    }
  }

  /** A reply faults exactly when it is heard as `Failed`, with the same error. */
  lemma HeardFault(script: seq<Reply>, answers: seq<Answer>, n: nat)
    requires Hears(script, answers)
    ensures Next(answers, n).Failed? <==> ReplyAt(script, n).Fault?
    ensures ReplyAt(script, n).Fault? ==> Next(answers, n) == Failed(ReplyAt(script, n).error)
  {
    assert HeardAt(script, answers, n);
  }

  lemma LogStep(log: seq<RpcCall>, i: nat)
    ensures log + Reads(i) + Reads(1) == log + Reads(i + 1)
    ensures Reads(1) == [ChainIdRead]
  {
    assert Reads(i) + Reads(1) == Reads(i + 1);
  }

  lemma LogAppend(log: seq<RpcCall>, x: seq<RpcCall>, y: seq<RpcCall>)
    ensures log + x + y == log + (x + y)
  {
  }

  /** `request({method: 'eth_chainId'})`, normalised and compared with the target. */
  method ReadChainId(p: WalletProvider, ghost answers: seq<Answer>) returns (c: Answer)
    requires Hears(p.script, answers)
    modifies p
    ensures var r := Read(answers, old(p.answered));
      c == r.answer && p.answered == old(p.answered) + |r.requests| && p.log == old(p.log) + r.requests
  {
    assert HeardAt(p.script, answers, p.answered);
    var chainId := p.Request(ChainIdRead);
    if chainId.Fault? {
      return Failed(chainId.error);
    }
    var currentChainId := Normalize(Text(ReplyString(chainId)));
    c := if currentChainId == TEMPO_TARGET then OnTarget else OffTarget;
  }

  /** The verification loop: up to three reads, stopping at the first that
      matches or faults. */
  method PollChainId(p: WalletProvider, ghost answers: seq<Answer>) returns (c: Answer)
    requires Hears(p.script, answers)
    modifies p
    ensures var r := Polls(answers, old(p.answered), 3);
      c == r.answer && p.answered == old(p.answered) + |r.requests| && p.log == old(p.log) + r.requests
  {
    ghost var at := p.answered;
    var i := 0;
    while i < 3
      invariant 0 <= i <= 3 && p.answered == at + i && p.log == old(p.log) + Reads(i)
      invariant Polls(answers, at, 3) == Prefix(Reads(i), Polls(answers, at + i, 3 - i))
    {
      PollsStep(answers, at + i, 3 - i);
      c := ReadChainId(p, answers);
      LogStep(old(p.log), i);
      if c != OffTarget {
        return;
      }
      PrefixTwice(Reads(i), [ChainIdRead], Polls(answers, at + i + 1, 3 - (i + 1)));
      i := i + 1;
    }
    c := OffTarget;
  }

  lemma PollsStep(answers: seq<Answer>, at: nat, n: nat)
    requires n > 0
    ensures Polls(answers, at, n)
      == if Next(answers, at).OffTarget? then Prefix([ChainIdRead], Polls(answers, at + 1, n - 1))
         else Read(answers, at)
  {
  }

  lemma PrefixTwice(x: seq<RpcCall>, y: seq<RpcCall>, polled: Polled)
    ensures Prefix(x, Prefix(y, polled)) == Prefix(x + y, polled)
  {
  }

  /** A switch or add request followed, when it settles, by the verification loop. */
  method RequestAndPoll(p: WalletProvider, ghost answers: seq<Answer>, call: RpcCall) returns (c: Answer)
    requires Hears(p.script, answers)
    modifies p
    ensures var r := Attempt(call, answers, old(p.answered));
      c == r.answer && p.answered == old(p.answered) + |r.requests| && p.log == old(p.log) + r.requests
  {
    HeardFault(p.script, answers, p.answered);
    var reply := p.Request(call);
    if reply.Fault? {
      return Failed(reply.error);
    }
    c := PollChainId(p, answers);
    LogAppend(old(p.log), [call], Polls(answers, old(p.answered) + 1, 3).requests);
  }

  /** The last read before giving up: returns on the target, throws `plea` otherwise. */
  method ConfirmOrThrow(p: WalletProvider, ghost answers: seq<Answer>, plea: string) returns (o: Outcome)
    requires Hears(p.script, answers)
    modifies p
    ensures var r := FinalCheck(answers, old(p.answered), plea);
      o == r.outcome && p.answered == old(p.answered) + |r.requests| && p.log == old(p.log) + r.requests
  {
    var check := ReadChainId(p, answers);
    match check
    case Failed(e) => o := Threw(e);
    case OnTarget => o := Returned;
    case OffTarget => o := Threw(NewError(plea));
  }

  /** The `catch (addError)` block: re-read the chain, then recover. */
  method HandleAddError(p: WalletProvider, ghost answers: seq<Answer>, addError: Error) returns (o: Outcome)
    requires Hears(p.script, answers)
    modifies p
    ensures var r := OnAddError(addError, answers, old(p.answered));
      o == r.outcome && p.answered == old(p.answered) + |r.requests| && p.log == old(p.log) + r.requests
  {
    var check := ReadChainId(p, answers);
    if check.Failed? {
      return Threw(check.error);
    }
    if check == OnTarget {
      return Returned;
    }
    ghost var recovered := RecoverAdd(addError, answers, p.answered);
    assert OnAddError(addError, answers, old(p.answered)) == After([ChainIdRead], recovered);
    o := RecoverFromAddError(p, answers, addError);
    LogAppend(old(p.log), [ChainIdRead], recovered.requests);
  }

  /** The same-RPC-endpoint retry, then the duplicate-network branch. */
  method RecoverFromAddError(p: WalletProvider, ghost answers: seq<Answer>, addError: Error) returns (o: Outcome)
    requires Hears(p.script, answers)
    modifies p
    ensures var r := RecoverAdd(addError, answers, old(p.answered));
      o == r.outcome && p.answered == old(p.answered) + |r.requests| && p.log == old(p.log) + r.requests
  {
    if !SameRpcEndpoint(addError) {
      o := RetryDuplicate(p, answers, addError);
      return;
    }
    ghost var retry := RetrySwitch(answers, p.answered);
    var retried := RetrySwitchAndVerify(p, answers);
    if !retried.OffTarget? {
      o := if retried.Failed? then Threw(retried.error) else Returned;
      return;
    }
    ghost var fallback := DuplicateOrGiveUp(addError, answers, p.answered);
    assert RecoverAdd(addError, answers, old(p.answered)) == After(retry.requests, fallback);
    o := RetryDuplicate(p, answers, addError);
    LogAppend(old(p.log), retry.requests, fallback.requests);
  }

  /** The retried switch and its polls; after a fault, one more read. */
  method RetrySwitchAndVerify(p: WalletProvider, ghost answers: seq<Answer>) returns (c: Answer)
    requires Hears(p.script, answers)
    modifies p
    ensures var r := RetrySwitch(answers, old(p.answered));
      c == r.answer && p.answered == old(p.answered) + |r.requests| && p.log == old(p.log) + r.requests
  {
    c := RequestAndPoll(p, answers, SwitchChain(TEMPO_CHAIN_ID));
    if c.Failed? {
      ghost var attempt := Attempt(SwitchChain(TEMPO_CHAIN_ID), answers, old(p.answered));
      c := ReadChainId(p, answers);
      LogAppend(old(p.log), attempt.requests, Reads(1));
    }
  }

  /** The duplicate-network branch, or the final check when the fault is neither. */
  method RetryDuplicate(p: WalletProvider, ghost answers: seq<Answer>, addError: Error) returns (o: Outcome)
    requires Hears(p.script, answers)
    modifies p
    ensures var r := DuplicateOrGiveUp(addError, answers, old(p.answered));
      o == r.outcome && p.answered == old(p.answered) + |r.requests| && p.log == old(p.log) + r.requests
  {
    if !DuplicateNetwork(addError) {
      o := ConfirmOrThrow(p, answers, SWITCH_MANUALLY);
      return;
    }
    HeardFault(p.script, answers, p.answered);
    var reply := p.Request(SwitchChain(TEMPO_CHAIN_ID));
    if reply.Fault? {
      ghost var check := FinalCheck(answers, p.answered, SWITCH_MANUALLY);
      assert DuplicateOrGiveUp(addError, answers, old(p.answered)) == After(SWITCH, check);
      o := ConfirmOrThrow(p, answers, SWITCH_MANUALLY);
      LogAppend(old(p.log), SWITCH, check.requests);
      return;
    }
    var verify := ReadChainId(p, answers);
    LogAppend(old(p.log), SWITCH, [ChainIdRead]);
    if !verify.Failed? {
      assert DuplicateOrGiveUp(addError, answers, old(p.answered)) == Run(Returned, SWITCH + [ChainIdRead]);
      return Returned;
    }
    ghost var check := FinalCheck(answers, p.answered, SWITCH_MANUALLY);
    assert DuplicateOrGiveUp(addError, answers, old(p.answered)) == After(SWITCH + [ChainIdRead], check);
    o := ConfirmOrThrow(p, answers, SWITCH_MANUALLY);
    LogAppend(old(p.log), SWITCH + [ChainIdRead], check.requests);
  }

  /** The `catch (switchError)` block. */
  method HandleSwitchError(p: WalletProvider, ghost answers: seq<Answer>, switchError: Error) returns (o: Outcome)
    requires Hears(p.script, answers)
    modifies p
    ensures var r := OnSwitchError(switchError, answers, old(p.answered));
      o == r.outcome && p.answered == old(p.answered) + |r.requests| && p.log == old(p.log) + r.requests
  {
    if switchError.code == Some(USER_REJECTED) {
      return Threw(NewError(APPROVE_SWITCH));
    }
    if switchError.code == Some(UNRECOGNIZED_CHAIN) {
      o := AddAndVerify(p, answers);
    } else {
      o := ConfirmOrThrow(p, answers, SWITCH_TO_CONTINUE);
    }
  }

  /** The 4902 branch: add the network and poll; a fault goes to `catch (addError)`. */
  method AddAndVerify(p: WalletProvider, ghost answers: seq<Answer>) returns (o: Outcome)
    requires Hears(p.script, answers)
    modifies p
    ensures var r := TryAdd(answers, old(p.answered));
      o == r.outcome && p.answered == old(p.answered) + |r.requests| && p.log == old(p.log) + r.requests
  {
    ghost var attempt := Attempt(ADD[0], answers, p.answered);
    var added := RequestAndPoll(p, answers, AddChain(TEMPO_NETWORK));
    if !added.Failed? {
      assert TryAdd(answers, old(p.answered)) == Run(Returned, attempt.requests);
      return Returned;
    }
    ghost var caught := OnAddError(added.error, answers, p.answered);
    assert TryAdd(answers, old(p.answered)) == After(attempt.requests, caught);
    o := HandleAddError(p, answers, added.error);
    LogAppend(old(p.log), attempt.requests, caught.requests);
  }

  /** The first switch and its polls; a fault goes to `catch (switchError)`. */
  method SwitchAndVerify(p: WalletProvider, ghost answers: seq<Answer>) returns (o: Outcome)
    requires Hears(p.script, answers)
    modifies p
    ensures var r := TrySwitch(answers, old(p.answered));
      o == r.outcome && p.answered == old(p.answered) + |r.requests| && p.log == old(p.log) + r.requests
  {
    ghost var attempt := Attempt(SWITCH[0], answers, p.answered);
    var switched := RequestAndPoll(p, answers, SwitchChain(TEMPO_CHAIN_ID));
    if !switched.Failed? {
      assert TrySwitch(answers, old(p.answered)) == Run(Returned, attempt.requests);
      return Returned;
    }
    ghost var caught := OnSwitchError(switched.error, answers, p.answered);
    assert TrySwitch(answers, old(p.answered)) == After(attempt.requests, caught);
    o := HandleSwitchError(p, answers, switched.error);
    LogAppend(old(p.log), attempt.requests, caught.requests);
  }

  /** `switchToTempoNetwork`, as the mint and burn forms write it: the outcome and
      the requests are those of `Handshake` on the answers the provider will give
      from its current position, and one reply is used up per request. */
  method SwitchToTempoNetwork(p: WalletProvider?) returns (o: Outcome)
    requires p != null ==> ExactScript(p.script)
    modifies p
    ensures p == null ==> o == Threw(NewError(NOT_INSTALLED))
    ensures p != null ==> var r := Handshake(HearAll(p.script), old(p.answered));
      o == r.outcome && p.answered == old(p.answered) + |r.requests| && p.log == old(p.log) + r.requests
  {
    if p == null {
      return Threw(NewError(NOT_INSTALLED));
    }
    ghost var answers := HearAll(p.script);
    HearsAll(p.script);
    var current := ReadChainId(p, answers);
    if current.Failed? {
      return Threw(current.error);
    }
    if current == OnTarget {
      return Returned;
    }
    ghost var switched := TrySwitch(answers, p.answered);
    assert Handshake(answers, old(p.answered)) == After([ChainIdRead], switched);
    o := SwitchAndVerify(p, answers);
    LogAppend(old(p.log), [ChainIdRead], switched.requests);
  }
}
