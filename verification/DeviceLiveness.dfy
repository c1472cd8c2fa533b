/** What the device does in time, whatever happens between its ticks. */
module DeviceLiveness {
  import opened DeviceHistory
  import opened DeviceProtocol
  import opened DeviceInvariants
  import opened DeviceRuns

  // ---- Ticks among other operations ----

  function TickCount(ops: seq<Op>): nat {
    if ops == [] then 0 else TickCount(ops[..|ops| - 1]) + if ops[|ops| - 1].TickOp? then 1 else 0
  }

  lemma OneMore(d: Device, ops: seq<Op>, i: nat)
    requires i < |ops|
    ensures Run(d, ops[..i + 1]) == Step(Run(d, ops[..i]), ops[i])
    ensures TickCount(ops[..i + 1]) == TickCount(ops[..i]) + if ops[i].TickOp? then 1 else 0
  {
    assert ops[..i + 1][..i] == ops[..i];
    hide Step;
  }

  function Ticks(envs: seq<Env>): seq<Op> {
    seq(|envs|, i requires 0 <= i < |envs| => TickOp(envs[i]))
  }

  lemma {:induction false} TicksCount(envs: seq<Env>)
    ensures TickCount(Ticks(envs)) == |envs|
    decreases |envs|
  {
    if envs != [] {
      assert Ticks(envs)[..|envs| - 1] == Ticks(envs[..|envs| - 1]);
      TicksCount(envs[..|envs| - 1]);
    }
  }

  // ---- Never stuck ----

  ghost predicate StaysUp(env: Env) {
    forall p :: NetworkDown !in env.posts(p)
  }

  ghost predicate Attempted(a: Device, b: Device) {
    a.log <= b.log && exists i :: |a.log| <= i < |b.log| && b.log[i] == Began(PairCodeCall)
  }

  lemma {:induction false} PostsStayUp(d: Device, es: seq<Event>)
    requires NetworkDown !in es && d.shared.networkAvailable
    ensures Posts(d, es).shared.networkAvailable && d.log <= Posts(d, es).log
    decreases |es|
  {
    if es != [] {
      PostsStayUp(d, es[..|es| - 1]);
    }
  }

  lemma {:induction false} PostsGrow(d: Device, es: seq<Event>)
    ensures d.log <= Posts(d, es).log
    decreases |es|
  {
    if es != [] {
      PostsGrow(d, es[..|es| - 1]);
    }
  }

  lemma SetStateGrows(d: Device, s: State, env: Env)
    ensures d.log <= SetState(d, s, env).log
    ensures StaysUp(env) && d.shared.networkAvailable ==> SetState(d, s, env).shared.networkAvailable
  {
    if d.shared.state != s {
      var quiet := WithMail(d, NoMail);
      var left := if d.shared.state.InConversation? then Posts(quiet, env.posts(Leaving)) else d;
      PostsGrow(quiet, env.posts(Leaving));
      var e := Published(s, left.shared.stopMail, left.shared.renewalRequested, left.own.renewalPending);
      var entered := Logged(left.(shared := left.shared.(state := s)), e);
      PostsGrow(entered, env.posts(Entered(s)));
      if StaysUp(env) && d.shared.networkAvailable {
        PostsStayUp(quiet, env.posts(Leaving));
        PostsStayUp(entered, env.posts(Entered(s)));
      }
      hide Posts;
    }
  }

  /** Online, asking for a pair code makes the call. */
  lemma CreateAttempts(d: Device, env: Env)
    requires d.shared.networkAvailable && StaysUp(env)
    ensures Attempted(d, CreatePairCode(d, env))
  {
    var ready := Posts(d, env.posts(GenerationRead));
    PostsStayUp(d, env.posts(GenerationRead));
    var begun := Logged(ready, Began(PairCodeCall));
    var called := Posts(begun, env.posts(DuringCall));
    PostsGrow(begun, env.posts(DuringCall));
    var outcome := OutcomeOf(called, d.shared.networkGeneration, env.ret);
    var ended := Logged(called, Ended(PairCodeCall, outcome));
    AnsweredGrows(ended, outcome, env);
    hide Posts, PairCodeAnswered, OutcomeOf;
    var b := CreatePairCode(d, env);
    assert begun.log <= b.log && begun.log[|ready.log|] == Began(PairCodeCall);
    assert b.log[|ready.log|] == Began(PairCodeCall);
  }

  lemma AnsweredGrows(d: Device, outcome: Outcome, env: Env)
    ensures d.log <= PairCodeAnswered(d, outcome, env).log
  {
    hide Posts, SetState;
    match outcome
    case Stale => SetStateGrows(d, Unprovisioned, env);
    case Failed =>
      var delay := NextDelay(d.own.pairRetryDelay, PAIR_RETRY_INITIAL, PAIR_RETRY_MAX);
      SetStateGrows(d.(own := d.own.(pairRetryDelay := delay, pairRetryLeft := delay)), Unprovisioned, env);
    case Accepted =>
      var bound := d.(own := d.own.(
        pairRetryDelay := 0,
        pairRetryLeft := 0,
        bindingGeneration := d.own.bindingGeneration + 1,
        pairToken := Fitted(env.pairCode.pairToken, MAX_TOKEN),
        pairPollInterval := ClampPoll(env.pairCode.pollAfter),
        pairTicks := 0,
        deviceToken := ""));
      var shown := Posts(Logged(bound, PairCodeShown(env.pairCode.code)), env.posts(ShowingCode));
      PostsGrow(Logged(bound, PairCodeShown(env.pairCode.code)), env.posts(ShowingCode));
      SetStateGrows(shown, AwaitingClaim, env);
  }

  /** Unprovisioned, online and left alone. */
  predicate Waiting(d: Device) {
    && Inv(d)
    && d.shared.state.Unprovisioned?
    && !d.shared.shuttingDown
    && d.shared.networkAvailable
  }

  /** One tick goes by noticing a loss that is over. */
  function LossTicks(d: Device): nat {
    if d.shared.lossPending then 1 else 0
  }

  function TicksToAttempt(d: Device): int {
    LossTicks(d) + if d.own.pairingRequested then 1 else d.own.pairRetryLeft
  }

  lemma BackoffBounded(k: nat)
    ensures 0 <= Backoff(k, PAIR_RETRY_INITIAL, PAIR_RETRY_MAX) <= PAIR_RETRY_MAX
  {
    if k > 0 {
      BackoffNext(k - 1, PAIR_RETRY_INITIAL, PAIR_RETRY_MAX);
    }
  }

  lemma WaitBounds(d: Device)
    requires Waiting(d)
    ensures 1 + LossTicks(d) <= TicksToAttempt(d) <= PAIR_RETRY_MAX + LossTicks(d)
  {
    BackoffBounded(FailuresOf(d.log));
    hide PhaseOf, LinkOf, FailuresOf, Backoff, RequestsOk, PollsOk;
  }

  lemma LastTickAttempts(d: Device, env: Env)
    requires d.shared.state.Unprovisioned? && !d.shared.shuttingDown && d.shared.networkAvailable
    requires !d.shared.lossPending && TicksToAttempt(d) == 1 && StaysUp(env)
    ensures Attempted(d, Tick(d, env))
  {
    hide CreatePairCode, SetState;
    if d.own.pairingRequested {
      var asked := d.(own := d.own.(conversationRequested := false));
      var cleared := Named(ClearAuth(asked.(own := asked.own.(pairingRequested := false)), env), "");
      SetStateGrows(cleared, Pairing, env);
      CreateAttempts(SetState(cleared, Pairing, env), env);
    } else {
      var later := d.(own := d.own.(pairRetryLeft := d.own.pairRetryLeft - 1));
      SetStateGrows(later, Pairing, env);
      CreateAttempts(SetState(later, Pairing, env), env);
    }
  }

  /** The network stays up and nobody shuts the device down; anything else may happen. */
  ghost predicate Calm(op: Op) {
    match op
    case TickOp(env) => StaysUp(env)
    case ShutdownOp(_) => false
    case Outside(e) => e != NetworkDown
    case _ => true
  }

  /** Between ticks nothing ends the wait or lengthens it. */
  lemma OthersKeepWaiting(d: Device, op: Op)
    requires Waiting(d) && Calm(op) && !op.TickOp?
    ensures Waiting(Step(d, op)) && TicksToAttempt(Step(d, op)) <= TicksToAttempt(d)
  {
    WaitBounds(d);
    StepKeeps(d, op);
    hide Inv, ApplyPair, ApplyRuntime, ApplyStop;
  }

  /** A tick of the wait counts down by one, up to the one that makes the call. */
  lemma TickCountsDown(d: Device, env: Env)
    requires Waiting(d) && TicksToAttempt(d) > 1
    ensures Waiting(Tick(d, env)) && TicksToAttempt(Tick(d, env)) == TicksToAttempt(d) - 1
  {
    WaitBounds(d);
    TickKeeps(d, env);
    hide Inv;
  }

  /** With the network up, a pair-code call is made by the time the countdown of ticks is over,
      whatever answers, requests and posts come between the ticks; 600 ticks are enough, and one
      more when the network has just come back. */
  lemma PairCodeAttemptComes(d: Device, ops: seq<Op>) returns (n: nat)
    requires Waiting(d) && TickCount(ops) >= TicksToAttempt(d)
    requires forall i :: 0 <= i < |ops| ==> Calm(ops[i])
    ensures 1 <= n <= |ops| && ops[n - 1].TickOp?
    ensures TickCount(ops[..n]) <= TicksToAttempt(d) <= PAIR_RETRY_MAX + LossTicks(d)
    ensures Attempted(Run(d, ops[..n - 1]), Run(d, ops[..n]))
  {
    WaitBounds(d);
    assert Run(d, ops[..0]) == d && TickCount(ops[..0]) == 0;
    assert ops[..|ops|] == ops;
    hide Run, TickCount, Step, Tick, Waiting, TicksToAttempt, Attempted;
    var i := 0;
    while !ops[i].TickOp? || TicksToAttempt(Run(d, ops[..i])) > 1
      invariant i < |ops| && Waiting(Run(d, ops[..i]))
      invariant 1 <= TicksToAttempt(Run(d, ops[..i]))
      invariant TicksToAttempt(Run(d, ops[..i])) + TickCount(ops[..i]) <= TicksToAttempt(d)
      decreases |ops| - i
    {
      OneMore(d, ops, i);
      if ops[i].TickOp? {
        TickCountsDown(Run(d, ops[..i]), ops[i].env);
        TickStep(Run(d, ops[..i]), ops[i].env);
      } else {
        OthersKeepWaiting(Run(d, ops[..i]), ops[i]);
      }
      i := i + 1;
      WaitBounds(Run(d, ops[..i]));
    }
    OneMore(d, ops, i);
    TickStep(Run(d, ops[..i]), ops[i].env);
    LastAttempt(Run(d, ops[..i]), ops[i].env);
    n := i + 1;
  }

  lemma TickStep(d: Device, env: Env)
    ensures Step(d, TickOp(env)) == Tick(d, env)
  {
    hide Tick;
  }

  lemma LastAttempt(d: Device, env: Env)
    requires Waiting(d) && TicksToAttempt(d) == 1 && StaysUp(env)
    ensures Attempted(d, Tick(d, env))
  {
    WaitBounds(d);
    LastTickAttempts(d, env);
    hide Inv, Attempted, Tick;
  }

  lemma RunOneMore(d: Device, envs: seq<Env>)
    requires envs != []
    ensures Run(d, Ticks(envs)) == Tick(Run(d, Ticks(envs[..|envs| - 1])), envs[|envs| - 1])
  {
    assert Ticks(envs)[..|envs| - 1] == Ticks(envs[..|envs| - 1]);
    hide Tick;
  }

  lemma {:induction false} Countdown(d: Device, envs: seq<Env>)
    requires Waiting(d) && !d.shared.lossPending && |envs| < TicksToAttempt(d)
    ensures Run(d, Ticks(envs)) == d.(own := d.own.(pairRetryLeft := d.own.pairRetryLeft - |envs|))
    decreases |envs|
  {
    hide Inv;
    if envs != [] {
      Countdown(d, envs[..|envs| - 1]);
      RunOneMore(d, envs);
    }
  }

  /** Left to its ticks alone, the device waits exactly its countdown. */
  lemma AttemptAfterTicks(d: Device, envs: seq<Env>)
    requires Waiting(d) && !d.shared.lossPending
    requires 0 < |envs| == TicksToAttempt(d) && StaysUp(envs[|envs| - 1])
    ensures var before := Run(d, Ticks(envs[..|envs| - 1]));
      before.log == d.log && Attempted(before, Run(d, Ticks(envs)))
  {
    WaitBounds(d);
    hide Inv, Tick, Attempted;
    Countdown(d, envs[..|envs| - 1]);
    RunOneMore(d, envs);
    LastTickAttempts(Run(d, Ticks(envs[..|envs| - 1])), envs[|envs| - 1]);
  }

  /** The wait after the k-th failure in a row doubles from 30 ticks and stops at 600. */
  lemma DelayFollowsFailures(d: Device)
    requires Inv(d)
    ensures FailuresOf(d.log) == 0 ==> d.own.pairRetryDelay == 0
    ensures FailuresOf(d.log) > 0 ==>
      d.own.pairRetryDelay == Least(600, 30 * Doubled(FailuresOf(d.log) - 1))
    ensures 0 <= d.own.pairRetryLeft <= d.own.pairRetryDelay
  {
    hide PhaseOf, LinkOf, FailuresOf, RequestsOk, PollsOk;
  }

  // ---- Polls come in time ----

  /** Left alone online, with nothing else to do and no poll outstanding. */
  predicate ReadyToPoll(d: Device) {
    && Inv(d)
    && !d.shared.shuttingDown
    && d.shared.networkAvailable
    && !d.shared.lossPending
    && !d.own.pairingRequested
    && !d.own.pollPending
    && (d.shared.state.AwaitingClaim? || (d.shared.state.Runtime? && !d.own.conversationRequested))
  }

  function PollTicks(d: Device): int {
    if d.shared.state.AwaitingClaim? then d.own.pairPollInterval * TICKS_PER_SECOND - d.own.pairTicks
    else d.own.runtimePollInterval * TICKS_PER_SECOND - d.own.runtimeTicks
  }

  function TicksToPoll(d: Device): int {
    if PollTicks(d) < 1 then 1 else PollTicks(d)
  }

  lemma PollBounds(d: Device)
    requires ReadyToPoll(d)
    ensures 1 <= TicksToPoll(d) <= POLL_MAX_SECONDS * TICKS_PER_SECOND
  {
    TimersKnown(d);
    PolledKnown(d);
    hide Inv;
  }

  lemma PolledKnown(d: Device)
    requires Inv(d)
    ensures Polled(d)
  {
    hide Books, PhaseOk, Quiet, Saves;
  }

  /** Nothing that takes the device away from polling in this state. */
  predicate LeavesPolling(s: State, op: Op) {
    match op
    case TickOp(env) => env.memory && env.submitted
    case Answered(_, a, _) => s.Runtime? ==> !AuthRejected(a.ret)
    case Dropped(_) => true
    case ShutdownOp(_) => false
    case RequestPairOp => false
    case RequestStartOp => !s.Runtime?
    case Outside(e) => e != NetworkDown
  }

  /** Between ticks the owner's fields stay, and so does the readiness to poll. */
  lemma OthersKeepReady(d: Device, op: Op)
    requires ReadyToPoll(d) && LeavesPolling(d.shared.state, op) && !op.TickOp?
    ensures ReadyToPoll(Step(d, op)) && Step(d, op).own == d.own
    ensures Step(d, op).shared.state == d.shared.state
  {
    StepKeeps(d, op);
    if op.Answered? && op.index < |d.inflight| {
      NoPollInFlight(d, op.index);
    }
    hide Inv, ApplyPair, ApplyRuntime, InvalidateBinding;
  }

  lemma NoPollInFlight(d: Device, i: nat)
    requires ReadyToPoll(d) && i < |d.inflight|
    ensures !Poll(d.inflight[i])
  {
    hide RequestsOk, RetryOk, Quiet, PhaseOk, Saves;
  }

  lemma TickCountsToPoll(d: Device, env: Env)
    requires ReadyToPoll(d) && TicksToPoll(d) > 1
    ensures ReadyToPoll(Tick(d, env)) && TicksToPoll(Tick(d, env)) == TicksToPoll(d) - 1
    ensures SameCredentials(d, Tick(d, env)) && Tick(d, env).shared.state == d.shared.state
  {
    TickKeeps(d, env);
    hide Inv;
  }

  predicate SameCredentials(a: Device, b: Device) {
    && a.own.serverBase == b.own.serverBase
    && a.own.deviceId == b.own.deviceId
    && a.own.pairToken == b.own.pairToken
    && a.own.deviceToken == b.own.deviceToken
  }

  /** Device b is where d has waited for its poll until now. */
  predicate PollingOn(d: Device, b: Device) {
    ReadyToPoll(b) && SameCredentials(d, b) && b.shared.state == d.shared.state
  }

  lemma PollWaits(d: Device, b: Device, op: Op)
    requires PollingOn(d, b) && LeavesPolling(d.shared.state, op)
    requires op.TickOp? ==> TicksToPoll(b) > 1
    ensures PollingOn(d, Step(b, op)) && 1 <= TicksToPoll(Step(b, op))
    ensures TicksToPoll(Step(b, op)) == TicksToPoll(b) - if op.TickOp? then 1 else 0
  {
    hide Inv, Tick;
    if op.TickOp? {
      TickCountsToPoll(b, op.env);
    } else {
      OthersKeepReady(b, op);
      SameWait(b, Step(b, op));
    }
    hide ReadyToPoll;
    PollBounds(Step(b, op));
    hide Step;
  }

  /** Online, the poll of the state goes out at exactly the tick that ends its interval, the
      600th at the latest, with the credential that goes with it, whatever comes between the ticks
      and leaves the device polling. */
  lemma PollComes(d: Device, ops: seq<Op>) returns (n: nat, r: Request)
    requires ReadyToPoll(d) && TickCount(ops) >= TicksToPoll(d)
    requires forall i :: 0 <= i < |ops| ==> LeavesPolling(d.shared.state, ops[i])
    ensures 1 <= n <= |ops| && ops[n - 1].TickOp?
    ensures TickCount(ops[..n]) == TicksToPoll(d) <= POLL_MAX_SECONDS * TICKS_PER_SECOND
    ensures Run(d, ops[..n - 1]).log + [Submitted(r)] <= Run(d, ops[..n]).log
    ensures r.kind == (if d.shared.state.AwaitingClaim? then PairPoll else DevicePoll) && OwnCredential(d, r)
  {
    hide Run, TickCount, Step, PollingOn, TicksToPoll, ReadyToPoll, OwnCredential, LeavesPolling, Tick;
    PollBounds(d);
    var i := PollWait(d, ops);
    OneMore(d, ops, i);
    n := i + 1;
    r := PollAtLast(d, Run(d, ops[..i]), ops[i]);
  }

  /** The operations before the tick that polls. */
  lemma PollWait(d: Device, ops: seq<Op>) returns (i: nat)
    requires ReadyToPoll(d) && TickCount(ops) >= TicksToPoll(d)
    requires forall i :: 0 <= i < |ops| ==> LeavesPolling(d.shared.state, ops[i])
    ensures i < |ops| && ops[i].TickOp? && PollingOn(d, Run(d, ops[..i]))
    ensures TicksToPoll(Run(d, ops[..i])) == 1 && TickCount(ops[..i]) + 1 == TicksToPoll(d)
  {
    PollBounds(d);
    assert Run(d, ops[..0]) == d && TickCount(ops[..0]) == 0;
    assert ops[..|ops|] == ops;
    assert PollingOn(d, d);
    hide Run, TickCount, Step, PollingOn, TicksToPoll, ReadyToPoll, LeavesPolling, Inv;
    i := 0;
    while !ops[i].TickOp? || TicksToPoll(Run(d, ops[..i])) > 1
      invariant i < |ops| && PollingOn(d, Run(d, ops[..i]))
      invariant 1 <= TicksToPoll(Run(d, ops[..i]))
      invariant TicksToPoll(Run(d, ops[..i])) + TickCount(ops[..i]) == TicksToPoll(d)
      decreases |ops| - i
    {
      OneMore(d, ops, i);
      PollWaits(d, Run(d, ops[..i]), ops[i]);
      i := i + 1;
    }
  }

  lemma SameWait(a: Device, b: Device)
    requires a.own == b.own && a.shared.state == b.shared.state
    ensures TicksToPoll(a) == TicksToPoll(b) && SameCredentials(a, b)
  {
  }

  lemma PollGoesOut(d: Device, env: Env, r: Request)
    requires !d.shared.shuttingDown && d.shared.networkAvailable && !d.shared.lossPending
    requires !d.own.pairingRequested && !d.own.pollPending && env.memory && env.submitted
    requires d.shared.state.AwaitingClaim? || (d.shared.state.Runtime? && !d.own.conversationRequested)
    requires PollTicks(d) <= 1
    requires r == Snapshot(d, if d.shared.state.AwaitingClaim? then PairPoll else DevicePoll)
    ensures d.log + [Submitted(r)] <= Tick(d, env).log
  {
    var reset :=
      if d.shared.state.AwaitingClaim? then d.(own := d.own.(pairTicks := 0))
      else d.(own := d.own.(runtimeTicks := 0));
    var asking := WithPoll(reset, true);
    PostsGrow(Logged(asking.(inflight := asking.inflight + [r]), Submitted(r)), env.posts(Submitting));
    hide Posts;
    assert Snapshot(reset, r.kind) == r;
  }

  lemma PollAtLast(d: Device, b: Device, op: Op) returns (r: Request)
    requires PollingOn(d, b) && TicksToPoll(b) == 1 && op.TickOp? && LeavesPolling(d.shared.state, op)
    ensures b.log + [Submitted(r)] <= Step(b, op).log
    ensures r.kind == (if d.shared.state.AwaitingClaim? then PairPoll else DevicePoll) && OwnCredential(d, r)
  {
    r := Snapshot(b, if b.shared.state.AwaitingClaim? then PairPoll else DevicePoll);
    PollGoesOut(b, op.env, r);
    hide Inv, Tick;
  }

  // ---- Renewals come in time ----

  predicate Harmless(e: Event) {
    e.NetworkUp? || e.RenewalDue?
  }

  /** Posts that neither end the conversation nor take the network away. */
  ghost predicate Gentle(env: Env) {
    forall p, i :: 0 <= i < |env.posts(p)| ==> Harmless(env.posts(p)[i])
  }

  predicate Unthreatened(d: Device) {
    && d.shared.state.InConversation?
    && !d.shared.shuttingDown
    && d.shared.networkAvailable
    && !d.shared.lossPending
    && !d.own.pairingRequested
    && d.shared.stopMail == NoMail
    && d.own.rtcChannel != ""
    && d.own.rtcUid != ""
  }

  /** In a conversation nobody is ending, a renewal has been asked for or waits for its turn. */
  predicate AwaitingRenewal(d: Device) {
    Unthreatened(d) && (d.own.renewalPending || d.shared.renewalRequested) && 0 <= d.own.renewalLeft
  }

  function TicksToRenewal(d: Device): int {
    if d.shared.renewalRequested || d.own.renewalLeft <= 1 then 1 else d.own.renewalLeft
  }

  /** Nothing that ends the conversation. */
  ghost predicate LeavesTalking(op: Op) {
    match op
    case TickOp(env) => Gentle(env)
    case Answered(_, a, _) => !AuthRejected(a.ret) && (a.ret == 0 ==> a.status != "unbound")
    case Dropped(_) => true
    case ShutdownOp(_) => false
    case RequestPairOp => false
    case RequestStartOp => true
    case Outside(e) => Harmless(e)
  }

  lemma {:induction false} GentlePosts(d: Device, es: seq<Event>)
    requires AwaitingRenewal(d) && forall i :: 0 <= i < |es| ==> Harmless(es[i])
    ensures AwaitingRenewal(Posts(d, es)) && TicksToRenewal(Posts(d, es)) <= TicksToRenewal(d)
    decreases |es|
  {
    if es != [] {
      GentlePosts(d, es[..|es| - 1]);
    }
  }

  lemma OthersKeepRenewal(d: Device, op: Op)
    requires AwaitingRenewal(d) && LeavesTalking(op) && !op.TickOp?
    ensures AwaitingRenewal(Step(d, op)) && TicksToRenewal(Step(d, op)) <= TicksToRenewal(d)
  {
    hide InvalidateBinding, ApplyPair;
  }

  lemma TickCountsToRenewal(d: Device, env: Env)
    requires AwaitingRenewal(d) && TicksToRenewal(d) > 1 && Gentle(env)
    ensures AwaitingRenewal(Tick(d, env)) && TicksToRenewal(Tick(d, env)) <= TicksToRenewal(d) - 1
  {
    var waited := RenewalWaited(d);
    assert AwaitingRenewal(waited) && TicksToRenewal(waited) == TicksToRenewal(d) - 1;
    PollKeepsRenewal(waited, env);
    hide StopConversation, RenewToken, TickPoll;
  }

  lemma PollKeepsRenewal(d: Device, env: Env)
    requires AwaitingRenewal(d) && Gentle(env)
    ensures AwaitingRenewal(TickPoll(d, env)) && TicksToRenewal(TickPoll(d, env)) <= TicksToRenewal(d)
  {
    var reset := d.(own := d.own.(runtimeTicks := 0));
    var asking := WithPoll(reset, true);
    var r := Snapshot(reset, DevicePoll);
    GentlePosts(asking, env.posts(Submitting));
    GentlePosts(Logged(asking.(inflight := asking.inflight + [r]), Submitted(r)), env.posts(Submitting));
    hide Posts;
  }

  lemma CompleteGrows(d: Device, env: Env)
    ensures d.log <= CompleteLocally(d, env).log
  {
    var ended := Logged(Named(ClearRenewal(d), ""), Stopped);
    PostsGrow(ended, env.posts(Stopping));
    SetStateGrows(Posts(ended, env.posts(Stopping)), Runtime, env);
    hide Posts, SetState;
  }

  lemma StopGrows(d: Device, reason: string, env: Env)
    ensures d.log <= StopConversation(d, reason, env).log
  {
    var done := CompleteLocally(d, env);
    CompleteGrows(d, env);
    var r := Snapshot(done, StopCall(d.own.conversationId, reason));
    PostsGrow(done, env.posts(Submitting));
    PostsGrow(Logged(done.(inflight := done.inflight + [r]), Submitted(r)), env.posts(Submitting));
    hide CompleteLocally, Posts;
  }

  lemma RenewedGrows(d: Device, outcome: Outcome, env: Env)
    ensures d.log <= RenewAnswered(d, outcome, env).log
  {
    StopGrows(d, "error", env);
    CompleteGrows(d, env);
    SetStateGrows(ClearAuth(d, env), Unprovisioned, env);
    SetStateGrows(ClearAuth(CompleteLocally(d, env), env), Unprovisioned, env);
    PostsGrow(Logged(d, TokenRenewed), env.posts(Renewing));
    hide StopConversation, CompleteLocally, SetState, Posts;
  }

  lemma RenewalGoesOut(d: Device, env: Env)
    requires AwaitingRenewal(d) && TicksToRenewal(d) == 1
    ensures Renewed(d, Tick(d, env))
  {
    var waited := RenewalWaited(RenewalDueNow(d));
    var begun := Logged(waited, Began(RenewCall));
    var called := Posts(begun, env.posts(DuringCall));
    PostsGrow(begun, env.posts(DuringCall));
    var outcome := OutcomeOf(called, waited.shared.networkGeneration, env.ret);
    RenewedGrows(Logged(called, Ended(RenewCall, outcome)), outcome, env);
    hide Posts, RenewAnswered, OutcomeOf;
    assert Tick(d, env) == RenewAnswered(Logged(called, Ended(RenewCall, outcome)), outcome, env);
    assert begun.log <= Tick(d, env).log && begun.log[|d.log|] == Began(RenewCall);
    assert Tick(d, env).log[|d.log|] == Began(RenewCall);
  }

  ghost predicate Renewed(a: Device, b: Device) {
    exists i :: |a.log| <= i < |b.log| && b.log[i] == Began(RenewCall)
  }

  lemma RenewalBounds(d: Device)
    requires Inv(d)
    ensures 1 <= TicksToRenewal(d) <= TOKEN_RETRY_MAX && 0 <= d.own.renewalLeft
  {
    TimersKnown(d);
    hide Inv;
  }

  /** A renewal asked for or pending is tried by the time its wait of ticks is over, the 100th
      at the latest, whatever comes in between and does not end the conversation. */
  lemma RenewalComes(d: Device, ops: seq<Op>) returns (n: nat)
    requires Inv(d) && AwaitingRenewal(d) && TickCount(ops) >= TicksToRenewal(d)
    requires forall i :: 0 <= i < |ops| ==> LeavesTalking(ops[i])
    ensures 1 <= n <= |ops| && ops[n - 1].TickOp?
    ensures TickCount(ops[..n]) <= TicksToRenewal(d) <= TOKEN_RETRY_MAX
    ensures Renewed(Run(d, ops[..n - 1]), Run(d, ops[..n]))
  {
    RenewalBounds(d);
    assert Run(d, ops[..0]) == d && TickCount(ops[..0]) == 0;
    assert ops[..|ops|] == ops;
    hide Inv, Run, TickCount, Step, Tick, AwaitingRenewal, TicksToRenewal, Renewed;
    var i := 0;
    while !ops[i].TickOp? || TicksToRenewal(Run(d, ops[..i])) > 1
      invariant i < |ops| && AwaitingRenewal(Run(d, ops[..i]))
      invariant 1 <= TicksToRenewal(Run(d, ops[..i]))
      invariant TicksToRenewal(Run(d, ops[..i])) + TickCount(ops[..i]) <= TicksToRenewal(d)
      decreases |ops| - i
    {
      var b := Run(d, ops[..i]);
      OneMore(d, ops, i);
      if ops[i].TickOp? {
        TickCountsToRenewal(b, ops[i].env);
        TickStep(b, ops[i].env);
      } else {
        OthersKeepRenewal(b, ops[i]);
      }
      i := i + 1;
      RenewalAhead(Run(d, ops[..i]));
    }
    OneMore(d, ops, i);
    TickStep(Run(d, ops[..i]), ops[i].env);
    RenewalGoesOut(Run(d, ops[..i]), ops[i].env);
    n := i + 1;
  }

  lemma RenewalAhead(d: Device)
    ensures 1 <= TicksToRenewal(d)
  {
  }
}
