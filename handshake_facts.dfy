/** What the mint and burn handshake does: the requests it may issue, the early
    return, the terminal user rejection, the first-match polls, the returns that
    happen without the target ever being read back, the recovery paths of a
    failed add, and where its "switch manually" pleas come from. */
module HandshakeFacts {
  import opened Js
  import opened ChainIds
  import opened Provider
  import opened Reconciler

  // ---------------------------------------------------------------- budget

  lemma AttemptBudget(call: RpcCall, answers: seq<Answer>, at: nat, s: nat, a: nat)
    requires Budget([call], s, a, 1)
    ensures Budget(Attempt(call, answers, at).requests, s, a, 4)
  {
    var attempt := Attempt(call, answers, at);
    ReadsBudget(|attempt.requests| - 1);
    BudgetConcat([call], Reads(|attempt.requests| - 1), s, a, 1, 0, 0, 3);
  }

  /** The retried switch: one switch request and at most five requests. */
  lemma RetrySwitchBudget(answers: seq<Answer>, at: nat)
    ensures Budget(RetrySwitch(answers, at).requests, 1, 0, 5)
  {
    SwitchAddBudget();
    var attempt := Attempt(SWITCH[0], answers, at);
    AttemptBudget(SWITCH[0], answers, at, 1, 0);
    if attempt.answer.Failed? {
      ReadsBudget(1);
      BudgetConcat(attempt.requests, Reads(1), 1, 0, 4, 0, 0, 1);
    }
  }

  lemma DuplicateOrGiveUpBudget(ae: Error, answers: seq<Answer>, at: nat)
    ensures Budget(DuplicateOrGiveUp(ae, answers, at).requests, 1, 0, 3)
  {
    SwitchAddBudget();
    ReadsBudget(1);
    if DuplicateNetwork(ae) {
      BudgetConcat(SWITCH, Reads(1), 1, 0, 1, 0, 0, 1);
      BudgetConcat(SWITCH + Reads(1), Reads(1), 1, 0, 2, 0, 0, 1);
    }
  }

  lemma RecoverAddBudget(ae: Error, answers: seq<Answer>, at: nat)
    ensures Budget(RecoverAdd(ae, answers, at).requests, 2, 0, 8)
  {
    DuplicateOrGiveUpBudget(ae, answers, at);
    if SameRpcEndpoint(ae) {
      var retry := RetrySwitch(answers, at);
      var next := at + |retry.requests|;
      RetrySwitchBudget(answers, at);
      match retry.answer
      case Failed(e) =>
        assert RecoverAdd(ae, answers, at) == Run(Threw(e), retry.requests);
      case OnTarget =>
        assert RecoverAdd(ae, answers, at) == Run(Returned, retry.requests);
      case OffTarget =>
        var rest := DuplicateOrGiveUp(ae, answers, next);
        assert RecoverAdd(ae, answers, at) == After(retry.requests, rest);
        DuplicateOrGiveUpBudget(ae, answers, next);
        BudgetConcat(retry.requests, rest.requests, 1, 0, 5, 1, 0, 3);
    }
  }

  lemma OnAddErrorBudget(ae: Error, answers: seq<Answer>, at: nat)
    ensures Budget(OnAddError(ae, answers, at).requests, 2, 0, 9)
  {
    ReadsBudget(1);
    RecoverAddBudget(ae, answers, at + 1);
    BudgetConcat(Reads(1), RecoverAdd(ae, answers, at + 1).requests, 0, 0, 1, 2, 0, 8);
  }

  lemma TryAddBudget(answers: seq<Answer>, at: nat)
    ensures Budget(TryAdd(answers, at).requests, 2, 1, 13)
  {
    SwitchAddBudget();
    var attempt := Attempt(ADD[0], answers, at);
    AttemptBudget(ADD[0], answers, at, 0, 1);
    match attempt.answer
    case Failed(e) =>
      var next := at + |attempt.requests|;
      var caught := OnAddError(e, answers, next);
      assert TryAdd(answers, at) == After(attempt.requests, caught);
      OnAddErrorBudget(e, answers, next);
      BudgetConcat(attempt.requests, caught.requests, 0, 1, 4, 2, 0, 9);
    case _ =>
      assert TryAdd(answers, at) == Run(Returned, attempt.requests);
  }

  lemma OnSwitchErrorBudget(se: Error, answers: seq<Answer>, at: nat)
    ensures Budget(OnSwitchError(se, answers, at).requests, 2, 1, 13)
  {
    ReadsBudget(0);
    ReadsBudget(1);
    TryAddBudget(answers, at);
  }

  lemma TrySwitchBudget(answers: seq<Answer>, at: nat)
    ensures Budget(TrySwitch(answers, at).requests, 3, 1, 17)
  {
    SwitchAddBudget();
    var attempt := Attempt(SWITCH[0], answers, at);
    AttemptBudget(SWITCH[0], answers, at, 1, 0);
    match attempt.answer
    case Failed(e) =>
      var next := at + |attempt.requests|;
      var caught := OnSwitchError(e, answers, next);
      assert TrySwitch(answers, at) == After(attempt.requests, caught);
      OnSwitchErrorBudget(e, answers, next);
      BudgetConcat(attempt.requests, caught.requests, 1, 0, 4, 2, 1, 13);
    case _ =>
      assert TrySwitch(answers, at) == Run(Returned, attempt.requests);
  }

  /** Whatever the wallet answers, every request of the handshake names the target
      chain, and it issues at most three switch requests, at most one add request
      and at most 18 requests in all. */
  lemma HandshakeBudget(answers: seq<Answer>, at: nat)
    ensures Budget(Handshake(answers, at).requests, 3, 1, 18)
  {
    ReadsBudget(1);
    TrySwitchBudget(answers, at + 1);
    BudgetConcat(Reads(1), TrySwitch(answers, at + 1).requests, 0, 0, 1, 3, 1, 17);
  }

  // ---------------------------------------------------------------- polls

  /** The verification loop returns at the first read of the target. */
  lemma {:induction false} PollsFirstMatch(answers: seq<Answer>, at: nat, n: nat, k: nat)
    requires k < n
    requires forall j :: at <= j < at + k ==> Next(answers, j) == OffTarget
    requires Next(answers, at + k) == OnTarget
    ensures Polls(answers, at, n) == Polled(OnTarget, Reads(k + 1))
    decreases k
  {
    if k > 0 {
      assert Next(answers, at) == OffTarget;
      PollsFirstMatch(answers, at + 1, n - 1, k - 1);
      assert Reads(1) + Reads(k) == Reads(k + 1);
    }
  }

  /** When all `n` reads name another chain, the loop ends with `OffTarget` after
      exactly `n` reads. */
  lemma {:induction false} PollsAllMiss(answers: seq<Answer>, at: nat, n: nat)
    requires forall j :: at <= j < at + n ==> Next(answers, j) == OffTarget
    ensures Polls(answers, at, n) == Polled(OffTarget, Reads(n))
    decreases n
  {
    if n > 0 {
      assert Next(answers, at) == OffTarget;
      PollsAllMiss(answers, at + 1, n - 1);
      assert Reads(1) + Reads(n - 1) == Reads(n);
    }
  }

  /** The verification loop ends at the first read that does not name another
      chain, with that read's answer: the target, or the fault that throws out of
      the loop. */
  lemma {:induction false} PollsFirstStop(answers: seq<Answer>, at: nat, n: nat, k: nat)
    requires k < n
    requires forall j :: at <= j < at + k ==> Next(answers, j) == OffTarget
    requires Next(answers, at + k) != OffTarget
    ensures Polls(answers, at, n) == Polled(Next(answers, at + k), Reads(k + 1))
    decreases k
  {
    if k > 0 {
      assert Next(answers, at) == OffTarget;
      PollsFirstStop(answers, at + 1, n - 1, k - 1);
      assert Reads(1) + Reads(k) == Reads(k + 1);
    }
  }

  /** Conversely, what the loop answers says what it read: `OffTarget` only when
      all `n` reads named another chain, and otherwise the answer of its last
      read, every earlier one having named another chain. */
  lemma {:induction false} OffTargetMeansAllMissed(answers: seq<Answer>, at: nat, n: nat)
    ensures Polls(answers, at, n).answer.OffTarget? ==>
      forall j :: at <= j < at + n ==> Next(answers, j) == OffTarget
    ensures !Polls(answers, at, n).answer.OffTarget? ==>
      var m := |Polls(answers, at, n).requests|;
      Polls(answers, at, n).answer == Next(answers, at + m - 1)
      && forall j :: at <= j < at + m - 1 ==> Next(answers, j) == OffTarget
    decreases n
  {
    if n > 0 {
      OffTargetMeansAllMissed(answers, at + 1, n - 1);
    }
  }

  // ---------------------------------------------------------------- paths

  const READ_SWITCH: seq<RpcCall> := [ChainIdRead, SwitchChain(TEMPO_CHAIN_ID)]

  /** Already on the target: one read and nothing else. */
  lemma OnTargetAtOnce(answers: seq<Answer>, at: nat)
    requires Next(answers, at) == OnTarget
    ensures Handshake(answers, at) == Run(Returned, [ChainIdRead])
  {
  }

  /** A user rejection of the switch ends the handshake with the approval plea and
      no further request: in particular no add request is issued. */
  lemma RejectionEndsHandshake(answers: seq<Answer>, at: nat, e: Error)
    requires Next(answers, at) == OffTarget && Next(answers, at + 1) == Failed(e)
    requires e.code == Some(USER_REJECTED)
    ensures Handshake(answers, at) == Run(Threw(NewError(APPROVE_SWITCH)), READ_SWITCH)
    ensures Adds(Handshake(answers, at).requests) == 0
  {
    assert READ_SWITCH[1..][1..] == [];
    assert Occurrences(READ_SWITCH[1..][1..], AddChain(TEMPO_NETWORK)) == 0;
    assert Occurrences(READ_SWITCH[1..], AddChain(TEMPO_NETWORK)) == 0;
  }

  /** The switch settles and poll `k` (from 0) is the first to read the target:
      the handshake returns after exactly `k + 1` polls. */
  lemma SwitchVerifiedAtPoll(answers: seq<Answer>, at: nat, k: nat)
    requires k < 3
    requires Next(answers, at) == OffTarget && !Next(answers, at + 1).Failed?
    requires forall j :: at + 2 <= j < at + 2 + k ==> Next(answers, j) == OffTarget
    requires Next(answers, at + 2 + k) == OnTarget
    ensures Handshake(answers, at) == Run(Returned, READ_SWITCH + Reads(k + 1))
  {
    PollsFirstMatch(answers, at + 2, 3, k);
  }

  /** The switch settles but all three polls read another chain: the handshake
      still returns normally, without the target ever having been read back. */
  lemma ReturnsUnverifiedAfterSwitch(answers: seq<Answer>, at: nat)
    requires Next(answers, at) == OffTarget && !Next(answers, at + 1).Failed?
    requires forall j :: at + 2 <= j < at + 5 ==> Next(answers, j) == OffTarget
    ensures Handshake(answers, at) == Run(Returned, READ_SWITCH + Reads(3))
  {
    PollsAllMiss(answers, at + 2, 3);
  }

  /** The same after an unrecognised chain and an add that settles: one add
      request, three mismatching polls and a normal return. */
  lemma ReturnsUnverifiedAfterAdd(answers: seq<Answer>, at: nat, e: Error)
    requires Next(answers, at) == OffTarget && Next(answers, at + 1) == Failed(e)
    requires e.code == Some(UNRECOGNIZED_CHAIN) && !Next(answers, at + 2).Failed?
    requires forall j :: at + 3 <= j < at + 6 ==> Next(answers, j) == OffTarget
    ensures Handshake(answers, at) == Run(Returned, READ_SWITCH + ADD + Reads(3))
  {
    PollsAllMiss(answers, at + 3, 3);
  }

  /** After an unrecognised chain the add settles and poll `k` (from 0) is the
      first to read the target: the handshake returns after `k + 1` polls. */
  lemma AddVerifiedAtPoll(answers: seq<Answer>, at: nat, e: Error, k: nat)
    requires k < 3
    requires Next(answers, at) == OffTarget && Next(answers, at + 1) == Failed(e)
    requires e.code == Some(UNRECOGNIZED_CHAIN) && !Next(answers, at + 2).Failed?
    requires forall j :: at + 3 <= j < at + 3 + k ==> Next(answers, j) == OffTarget
    requires Next(answers, at + 3 + k) == OnTarget
    ensures Handshake(answers, at) == Run(Returned, READ_SWITCH + ADD + Reads(k + 1))
  {
    PollsFirstMatch(answers, at + 3, 3, k);
  }

  /** A poll that faults with code 4902, after `k` polls that named another
      chain, lands in the same `catch` as a refused switch, so it too leads to an
      add request. */
  lemma PollFaultLeadsToAdd(answers: seq<Answer>, at: nat, e: Error, k: nat)
    requires k < 3
    requires Next(answers, at) == OffTarget && !Next(answers, at + 1).Failed?
    requires forall j :: at + 2 <= j < at + 2 + k ==> Next(answers, j) == OffTarget
    requires Next(answers, at + 2 + k) == Failed(e) && e.code == Some(UNRECOGNIZED_CHAIN)
    requires !Next(answers, at + 3 + k).Failed? && Next(answers, at + 4 + k) == OnTarget
    ensures Handshake(answers, at) == Run(Returned, READ_SWITCH + Reads(k + 1) + ADD + Reads(1))
  {
    PollsFirstStop(answers, at + 2, 3, k);
    var attempt := Attempt(SWITCH[0], answers, at + 1);
    assert attempt == Polled(Failed(e), SWITCH + Reads(k + 1));
    var next := at + 3 + k;
    PollsFirstStop(answers, next + 1, 3, 0);
    var add := Attempt(ADD[0], answers, next);
    assert add == Polled(OnTarget, ADD + Reads(1));
    assert TryAdd(answers, next) == Run(Returned, add.requests);
    assert OnSwitchError(e, answers, next) == TryAdd(answers, next);
    assert TrySwitch(answers, at + 1) == After(attempt.requests, TryAdd(answers, next));
    MismatchLeadsToSwitch(answers, at);
    assert READ_SWITCH + Reads(k + 1) + ADD + Reads(1) == Reads(1) + (attempt.requests + add.requests);
  }

  /** A failed add followed by a read of the target returns at once. */
  lemma AddFaultOnTarget(answers: seq<Answer>, at: nat, e: Error, ae: Error)
    requires Next(answers, at) == OffTarget
    requires Next(answers, at + 1) == Failed(e) && e.code == Some(UNRECOGNIZED_CHAIN)
    requires Next(answers, at + 2) == Failed(ae) && Next(answers, at + 3) == OnTarget
    ensures Handshake(answers, at) == Run(Returned, READ_SWITCH + ADD + Reads(1))
  {
  }

  /** The stages a failed add goes through: a mismatching first read, a switch
      fault caught, an add fault caught, and a mismatching re-read. */
  lemma MismatchLeadsToSwitch(answers: seq<Answer>, at: nat)
    requires Next(answers, at) == OffTarget
    ensures Handshake(answers, at) == After(Reads(1), TrySwitch(answers, at + 1))
  {
  }

  lemma SwitchFaultCaught(answers: seq<Answer>, at: nat, e: Error)
    requires Next(answers, at) == Failed(e)
    ensures TrySwitch(answers, at) == After(SWITCH, OnSwitchError(e, answers, at + 1))
  {
  }

  lemma AddFaultCaught(answers: seq<Answer>, at: nat, ae: Error)
    requires Next(answers, at) == Failed(ae)
    ensures TryAdd(answers, at) == After(ADD, OnAddError(ae, answers, at + 1))
  {
  }

  lemma ReReadMismatch(ae: Error, answers: seq<Answer>, at: nat)
    requires Next(answers, at) == OffTarget
    ensures OnAddError(ae, answers, at) == After(Reads(1), RecoverAdd(ae, answers, at + 1))
  {
  }

  /** From the start to the recovery of a failed add: a read, a switch refused
      with 4902, an add that faults and a re-read that mismatches. */
  lemma ReachesRecovery(answers: seq<Answer>, at: nat, e: Error, ae: Error)
    requires Next(answers, at) == OffTarget
    requires Next(answers, at + 1) == Failed(e) && e.code == Some(UNRECOGNIZED_CHAIN)
    requires Next(answers, at + 2) == Failed(ae) && Next(answers, at + 3) == OffTarget
    ensures Handshake(answers, at) == After(READ_SWITCH + ADD + Reads(1), RecoverAdd(ae, answers, at + 4))
  {
    MismatchLeadsToSwitch(answers, at);
    SwitchFaultCaught(answers, at + 1, e);
    AddFaultCaught(answers, at + 2, ae);
    ReReadMismatch(ae, answers, at + 3);
    var r := RecoverAdd(ae, answers, at + 4);
    assert Reads(1) + (SWITCH + (ADD + (Reads(1) + r.requests))) == READ_SWITCH + ADD + Reads(1) + r.requests;
  }

  /** A duplicate-network add fault retries the switch once and reads once, with
      no three-read loop; a mismatch on that single read falls through and the
      handshake returns. */
  lemma DuplicateRetryFallsThrough(answers: seq<Answer>, at: nat, e: Error, ae: Error)
    requires Next(answers, at) == OffTarget
    requires Next(answers, at + 1) == Failed(e) && e.code == Some(UNRECOGNIZED_CHAIN)
    requires Next(answers, at + 2) == Failed(ae) && DuplicateNetwork(ae) && !SameRpcEndpoint(ae)
    requires Next(answers, at + 3) == OffTarget && !Next(answers, at + 4).Failed?
    requires Next(answers, at + 5) == OffTarget
    ensures Handshake(answers, at) == Run(Returned, READ_SWITCH + ADD + Reads(1) + SWITCH + Reads(1))
  {
    ReachesRecovery(answers, at, e, ae);
    assert RecoverAdd(ae, answers, at + 4) == Run(Returned, SWITCH + Reads(1));
  }

  /** A same-RPC-endpoint add fault retries the switch with the three-read check;
      a read of the target returns. */
  lemma SameRpcRetryVerified(answers: seq<Answer>, at: nat, e: Error, ae: Error)
    requires Next(answers, at) == OffTarget
    requires Next(answers, at + 1) == Failed(e) && e.code == Some(UNRECOGNIZED_CHAIN)
    requires Next(answers, at + 2) == Failed(ae) && SameRpcEndpoint(ae)
    requires Next(answers, at + 3) == OffTarget && !Next(answers, at + 4).Failed?
    requires Next(answers, at + 5) == OnTarget
    ensures Handshake(answers, at) == Run(Returned, READ_SWITCH + ADD + Reads(1) + SWITCH + Reads(1))
  {
    ReachesRecovery(answers, at, e, ae);
    assert Polls(answers, at + 5, 3) == Polled(OnTarget, Reads(1));
    assert RecoverAdd(ae, answers, at + 4) == Run(Returned, SWITCH + Reads(1));
  }

  // ---------------------------------------------------------------- pleas

  /** The two errors the handshake makes up when the wallet stays elsewhere. */
  predicate IsPlea(e: Error) {
    e == NewError(SWITCH_MANUALLY) || e == NewError(SWITCH_TO_CONTINUE)
  }

  /** An answer that is not one of those pleas. */
  predicate NotPlea(a: Answer) {
    !(a.Failed? && IsPlea(a.error))
  }

  /** No fault the wallet itself raises reads like one of the pleas. */
  predicate NoScriptedPlea(answers: seq<Answer>) {
    forall i :: 0 <= i < |answers| ==> NotPlea(answers[i])
  }

  /** A run from position `at` that ends in a plea ends with a chain-id read that
      named another chain. */
  predicate PleadsAfterMismatch(answers: seq<Answer>, at: nat, r: Run) {
    r.outcome.Threw? && IsPlea(r.outcome.error) ==>
      1 <= |r.requests| && r.requests[|r.requests| - 1] == ChainIdRead
      && Next(answers, at + |r.requests| - 1) == OffTarget
  }

  lemma NoPleaAt(answers: seq<Answer>, at: nat)
    requires NoScriptedPlea(answers)
    ensures NotPlea(Next(answers, at))
  {
  }

  lemma {:induction false} PollsNoPlea(answers: seq<Answer>, at: nat, n: nat)
    requires NoScriptedPlea(answers)
    ensures NotPlea(Polls(answers, at, n).answer)
    decreases n
  {
    NoPleaAt(answers, at);
    if n > 0 {
      PollsNoPlea(answers, at + 1, n - 1);
    }
  }

  lemma AttemptNoPlea(call: RpcCall, answers: seq<Answer>, at: nat)
    requires NoScriptedPlea(answers)
    ensures NotPlea(Attempt(call, answers, at).answer)
  {
    NoPleaAt(answers, at);
    PollsNoPlea(answers, at + 1, 3);
  }

  lemma RetrySwitchNoPlea(answers: seq<Answer>, at: nat)
    requires NoScriptedPlea(answers)
    ensures NotPlea(RetrySwitch(answers, at).answer)
  {
    var attempt := Attempt(SWITCH[0], answers, at);
    AttemptNoPlea(SWITCH[0], answers, at);
    NoPleaAt(answers, at + |attempt.requests|);
  }

  /** Requests issued in front of a run that pleads after a mismatch keep that
      mismatch the last answer heard. */
  lemma PleaAfter(answers: seq<Answer>, at: nat, pre: seq<RpcCall>, rest: Run)
    requires PleadsAfterMismatch(answers, at + |pre|, rest)
    ensures PleadsAfterMismatch(answers, at, After(pre, rest))
  {
    var r := After(pre, rest);
    if r.outcome.Threw? && IsPlea(r.outcome.error) {
      var k := |rest.requests|;
      assert r.requests[|r.requests| - 1] == rest.requests[k - 1];
      assert at + |r.requests| - 1 == at + |pre| + k - 1;
    }
  }

  lemma FinalCheckPlea(answers: seq<Answer>, at: nat, plea: string)
    requires NoScriptedPlea(answers)
    ensures PleadsAfterMismatch(answers, at, FinalCheck(answers, at, plea))
  {
    NoPleaAt(answers, at);
  }

  lemma DuplicateOrGiveUpPlea(ae: Error, answers: seq<Answer>, at: nat)
    requires NoScriptedPlea(answers)
    ensures PleadsAfterMismatch(answers, at, DuplicateOrGiveUp(ae, answers, at))
  {
    FinalCheckPlea(answers, at, SWITCH_MANUALLY);
    if DuplicateNetwork(ae) {
      FinalCheckPlea(answers, at + 1, SWITCH_MANUALLY);
      FinalCheckPlea(answers, at + 2, SWITCH_MANUALLY);
      PleaAfter(answers, at, SWITCH, FinalCheck(answers, at + 1, SWITCH_MANUALLY));
      PleaAfter(answers, at, SWITCH + Reads(1), FinalCheck(answers, at + 2, SWITCH_MANUALLY));
    }
  }

  lemma RecoverAddPlea(ae: Error, answers: seq<Answer>, at: nat)
    requires NoScriptedPlea(answers)
    ensures PleadsAfterMismatch(answers, at, RecoverAdd(ae, answers, at))
  {
    if SameRpcEndpoint(ae) {
      var retry := RetrySwitch(answers, at);
      RetrySwitchNoPlea(answers, at);
      match retry.answer
      case Failed(e) =>
        assert RecoverAdd(ae, answers, at) == Run(Threw(e), retry.requests);
      case OnTarget =>
      case OffTarget =>
        var next := at + |retry.requests|;
        var fallback := DuplicateOrGiveUp(ae, answers, next);
        assert RecoverAdd(ae, answers, at) == After(retry.requests, fallback);
        DuplicateOrGiveUpPlea(ae, answers, next);
        PleaAfter(answers, at, retry.requests, fallback);
    } else {
      DuplicateOrGiveUpPlea(ae, answers, at);
    }
  }

  lemma OnAddErrorPlea(ae: Error, answers: seq<Answer>, at: nat)
    requires NoScriptedPlea(answers)
    ensures PleadsAfterMismatch(answers, at, OnAddError(ae, answers, at))
  {
    RecoverAddPlea(ae, answers, at + 1);
    PleaAfter(answers, at, Reads(1), RecoverAdd(ae, answers, at + 1));
  }

  lemma TryAddPlea(answers: seq<Answer>, at: nat)
    requires NoScriptedPlea(answers)
    ensures PleadsAfterMismatch(answers, at, TryAdd(answers, at))
  {
    var attempt := Attempt(ADD[0], answers, at);
    match attempt.answer
    case Failed(e) =>
      var next := at + |attempt.requests|;
      var caught := OnAddError(e, answers, next);
      assert TryAdd(answers, at) == After(attempt.requests, caught);
      OnAddErrorPlea(e, answers, next);
      PleaAfter(answers, at, attempt.requests, caught);
    case OnTarget =>
      assert TryAdd(answers, at).outcome == Returned;
    case OffTarget =>
      assert TryAdd(answers, at).outcome == Returned;
  }

  lemma OnSwitchErrorPlea(se: Error, answers: seq<Answer>, at: nat)
    requires NoScriptedPlea(answers)
    ensures PleadsAfterMismatch(answers, at, OnSwitchError(se, answers, at))
  {
    TryAddPlea(answers, at);
    FinalCheckPlea(answers, at, SWITCH_TO_CONTINUE);
  }

  lemma TrySwitchPlea(answers: seq<Answer>, at: nat)
    requires NoScriptedPlea(answers)
    ensures PleadsAfterMismatch(answers, at, TrySwitch(answers, at))
  {
    var attempt := Attempt(SWITCH[0], answers, at);
    match attempt.answer
    case Failed(e) =>
      var next := at + |attempt.requests|;
      OnSwitchErrorPlea(e, answers, next);
      PleaAfter(answers, at, attempt.requests, OnSwitchError(e, answers, next));
    case _ =>
  }

  /** Unless the wallet's own faults say so, the handshake asks the user to switch
      by hand only right after a chain-id read that named another chain. */
  lemma HandshakePlea(answers: seq<Answer>, at: nat)
    requires NoScriptedPlea(answers)
    ensures PleadsAfterMismatch(answers, at, Handshake(answers, at))
  {
    match Next(answers, at)
    case Failed(_) => NoPleaAt(answers, at);
    case OnTarget =>
    case OffTarget =>
      TrySwitchPlea(answers, at + 1);
      PleaAfter(answers, at, [ChainIdRead], TrySwitch(answers, at + 1));
  }

  // ---------------------------------------------------------------- a script

  lemma HearOtherChain()
    ensures ExactReply(Str("0x1")) && Hear(Str("0x1")) == OffTarget
  {
    CanonicalKept("0x1");
  }

  lemma HearDecimalTarget()
    ensures ExactReply(Str("42429")) && Hear(Str("42429")) == OnTarget
  {
    TargetAsDecimalString();
  }

  lemma HearEmpty()
    ensures ExactReply(Str("")) && Hear(Str("")) == OffTarget
  {
    assert Normalize(Text("")) == "0x";
  }

  lemma HearFive(a: Reply, b: Reply, c: Reply, d: Reply, f: Reply)
    requires ExactReply(a) && ExactReply(b) && ExactReply(c) && ExactReply(d) && ExactReply(f)
    ensures ExactScript([a, b, c, d, f])
    ensures HearAll([a, b, c, d, f]) == [Hear(a), Hear(b), Hear(c), Hear(d), Hear(f)]
  {
    var s := [a, b, c, d, f];
    forall i | 0 <= i < 5
      ensures ExactReply(s[i])
    {
    }
    var h := HearAll(s);
    assert h[0] == Hear(a) && h[1] == Hear(b) && h[2] == Hear(c) && h[3] == Hear(d) && h[4] == Hear(f);
  }

  /** A worked example, end to end from replies to requests: a wallet on chain
      0x1 that does not know the target, accepts the add, reads another chain
      once and then reports the target as the decimal string "42429".
      Its answers are those `AddVerifiedAtPoll` takes with `k == 1`: the handshake
      issues five requests, uses up the script and returns. */
  const DECIMAL_SCRIPT: seq<Reply> := [Str("0x1"), Fault(Error(Some(UNRECOGNIZED_CHAIN), None)),
                                       Str(""), Str("0x1"), Str("42429")]

  /** What the handshake hears from that script. */
  const DECIMAL_ANSWERS: seq<Answer> :=
    [OffTarget, Failed(Error(Some(UNRECOGNIZED_CHAIN), None)), OffTarget, OffTarget, OnTarget]

  /** Worked example, first half: a decimal reply of the target's number counts
      as the target, and an empty reply as another chain. */
  lemma DecimalScriptHeard()
    ensures ExactScript(DECIMAL_SCRIPT) && HearAll(DECIMAL_SCRIPT) == DECIMAL_ANSWERS
  {
    HearOtherChain();
    HearDecimalTarget();
    HearEmpty();
    HearFive(Str("0x1"), Fault(Error(Some(UNRECOGNIZED_CHAIN), None)), Str(""), Str("0x1"), Str("42429"));
  }

  /** Worked example, second half: on those answers the handshake reads,
      switches, adds, polls twice and returns, having issued one request per
      scripted reply. */
  lemma DecimalScriptRun()
    ensures Handshake(DECIMAL_ANSWERS, 0) == Run(Returned, READ_SWITCH + ADD + Reads(2))
    ensures |Handshake(DECIMAL_ANSWERS, 0).requests| == |DECIMAL_ANSWERS|
  {
    var answers := DECIMAL_ANSWERS;
    AddVerifiedAtPoll(answers, 0, answers[1].error, 1);
  }
}
