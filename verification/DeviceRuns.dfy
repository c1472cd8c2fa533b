/** The promises of the device lifecycle over every run. */
module DeviceRuns {
  import opened DeviceHistory
  import opened DeviceProtocol
  import opened DeviceInvariants

  // ---- Every run keeps the invariant ----

  lemma InitKeeps(serverBase: string, deviceId: string, firmware: string, model: string, store: Slot,
                  readable: bool, env: Env)
    requires Configurable(serverBase, deviceId, firmware, model)
    ensures var r := Init(serverBase, deviceId, firmware, model, store, readable, env);
      && r.Ready?
      && Inv(r.device)
      && SameConfig(Blank(serverBase, deviceId, store), r.device)
      && (r.device.shared.state.Runtime? <==> readable && Restorable(store, serverBase, deviceId))
      && (r.device.shared.state.Runtime? ==> r.device.own.deviceToken == store.record.deviceToken)
  {
    var blank := Blank(serverBase, deviceId, store);
    assert Books(blank) && Quiet(blank) && PhaseOf(blank.log) == Idle;
    hide PhaseOf, LinkOf, FailuresOf, Books, SetState, Restorable;
    if readable && Restorable(store, serverBase, deviceId) {
      var named := blank.(own := blank.own.(deviceToken := store.record.deviceToken,
                                            runtimePollInterval := RESTORED_POLL_SECONDS));
      RestoredBooks(blank, named);
      SetStateFacts(named, Runtime, env);
      BooksApart(named, SetState(named, Runtime, env));
    } else {
      var erased :=
        if readable && store.Empty? then blank
        else blank.(store := if env.storeOk then Empty else env.leftover);
      RestoredBooks(blank, erased);
      SetStateFacts(erased, Unprovisioned, env);
      AwaitNetworkKeeps(erased, env);
    }
  }

  lemma RestoredBooks(a: Device, b: Device)
    requires Books(a) && |b.own.deviceToken| < MAX_TOKEN && a.inflight == []
    requires b.own.runtimePollInterval == 0 || PollSeconds(b.own.runtimePollInterval)
    requires b == a.(own := a.own.(deviceToken := b.own.deviceToken,
                                   runtimePollInterval := b.own.runtimePollInterval), store := b.store)
    ensures Books(b)
  {
    hide FailuresOf, Backoff;
  }

  lemma StepKeeps(d: Device, op: Op)
    requires Inv(d)
    ensures Inv(Step(d, op))
  {
    hide PhaseOf, LinkOf, FailuresOf, Tick, ServiceResult, Shutdown, Post;
    match op
    case TickOp(env) => TickKeeps(d, env);
    case Answered(i, a, env) =>
      if i < |d.inflight| {
        WithoutKeeps(d, i);
        ServiceResultKeeps(d.(inflight := Without(d.inflight, i)), d.inflight[i], a, env);
      }
    case Dropped(i) =>
      if i < |d.inflight| {
        WithoutKeeps(d, i);
      }
    case ShutdownOp(env) => ShutdownKeeps(d, env);
    case RequestPairOp => AskedKeeps(d);
    case RequestStartOp => StartRequestKeeps(d);
    case Outside(e) =>
      PostDrifts(d, e);
      CoreDrift(d, Post(d, e));
  }

  lemma WithoutKeeps(d: Device, i: nat)
    requires Inv(d) && i < |d.inflight|
    ensures var rest := Without(d.inflight, i);
      && Inv(d.(inflight := rest))
      && (Poll(d.inflight[i]) ==> forall j :: 0 <= j < |rest| ==> !Poll(rest[j]))
  {
    var rest := Without(d.inflight, i);
    assert forall j :: 0 <= j < |rest| ==> rest[j] == d.inflight[if j < i then j else j + 1];
    hide PhaseOf, LinkOf, FailuresOf, Backoff, Restorable, Without;
    assert Books(d.(inflight := rest));
    hide Books;
  }

  lemma StartRequestKeeps(d: Device)
    requires Inv(d)
    ensures Inv(RequestStart(d))
  {
    hide PhaseOf, LinkOf, FailuresOf, Backoff, Restorable;
  }

  lemma {:induction false} RunKeeps(d: Device, ops: seq<Op>)
    requires Inv(d)
    ensures Inv(Run(d, ops))
    decreases |ops|
  {
    if ops != [] {
      RunKeeps(d, ops[..|ops| - 1]);
      StepKeeps(Run(d, ops[..|ops| - 1]), ops[|ops| - 1]);
    }
    hide Inv, Step;
  }

  // ---- What no operation undoes ----

  predicate SameConfig(a: Device, b: Device) {
    a.own.serverBase == b.own.serverBase && a.own.deviceId == b.own.deviceId
  }

  /** Configuration and shutdown are never taken back; a loss is noted exactly when it was before
      or the network has been lost since. */
  predicate Onward(a: Device, b: Device) {
    && SameConfig(a, b)
    && a.shared.networkGeneration <= b.shared.networkGeneration
    && (a.shared.shuttingDown ==> b.shared.shuttingDown)
    && (b.shared.lossPending <==>
          a.shared.lossPending || a.shared.networkGeneration < b.shared.networkGeneration)
  }

  lemma SetStateOnward(d: Device, s: State, env: Env)
    ensures Onward(d, SetState(d, s, env))
  {
    if d.shared.state != s {
      var left :=
        if d.shared.state.InConversation? then Posts(WithMail(d, NoMail), env.posts(Leaving)) else d;
      PostsOnward(WithMail(d, NoMail), env.posts(Leaving));
      var e := Published(s, left.shared.stopMail, left.shared.renewalRequested, left.own.renewalPending);
      PostsOnward(Logged(left.(shared := left.shared.(state := s)), e), env.posts(Entered(s)));
      hide Posts;
    }
  }

  lemma PostsOnward(d: Device, es: seq<Event>)
    ensures Onward(d, Posts(d, es))
  {
    PostsDrift(d, es);
    hide Posts, PhaseOf, LinkOf, FailuresOf;
  }

  lemma CompleteOnward(d: Device, env: Env)
    ensures Onward(d, CompleteLocally(d, env))
  {
    var ended := Logged(Named(ClearRenewal(d), ""), Stopped);
    PostsOnward(ended, env.posts(Stopping));
    SetStateOnward(Posts(ended, env.posts(Stopping)), Runtime, env);
    hide Posts, SetState;
  }

  lemma StopOnward(d: Device, reason: string, env: Env)
    ensures Onward(d, StopConversation(d, reason, env))
  {
    var done := CompleteLocally(d, env);
    CompleteOnward(d, env);
    SubmitOnward(done, Snapshot(done, StopCall(d.own.conversationId, reason)), env);
    hide CompleteLocally, Submit;
  }

  lemma SubmitOnward(d: Device, r: Request, env: Env)
    ensures Onward(d, Submit(d, r, env))
  {
    PostsOnward(d, env.posts(Submitting));
    PostsOnward(Logged(d.(inflight := d.inflight + [r]), Submitted(r)), env.posts(Submitting));
    hide Posts;
  }

  lemma InvalidateOnward(d: Device, env: Env)
    ensures Onward(d, InvalidateBinding(d, env))
  {
    CompleteOnward(d, env);
    RestartOnward(d, env);
    RestartOnward(CompleteLocally(d, env), env);
    hide CompleteLocally, RestartPairing;
  }

  lemma RestartOnward(d: Device, env: Env)
    ensures Onward(d, RestartPairing(d, env))
  {
    SetStateOnward(ClearAuth(d, env), Unprovisioned, env);
    hide SetState;
  }

  lemma ServiceResultOnward(d: Device, r: Request, a: Answer, env: Env)
    ensures Onward(d, ServiceResult(d, r, a, env))
  {
    var back := if r.kind.StopCall? then d else WithPoll(d, false);
    InvalidateOnward(back, env);
    ApplyPairOnward(back, a, env);
    hide InvalidateBinding, ApplyPair;
  }

  lemma ApplyPairOnward(d: Device, a: Answer, env: Env)
    ensures Onward(d, ApplyPair(d, a, env))
  {
    hide SetState, Claimed, ClampPoll, AuthRejected;
    SetStateOnward(d, Unprovisioned, env);
    ClaimedOnward(d, a, env);
  }

  lemma ClaimedOnward(d: Device, a: Answer, env: Env)
    ensures Onward(d, Claimed(d, a, env))
  {
    var named :=
      if a.deviceToken == "" then d
      else d.(own := d.own.(bindingGeneration := d.own.bindingGeneration + 1,
                            deviceToken := Fitted(a.deviceToken, MAX_TOKEN)));
    SetStateOnward(PersistAuth(named, env), Runtime, env);
    hide SetState;
  }

  lemma CreateOnward(d: Device, env: Env)
    ensures Onward(d, CreatePairCode(d, env))
  {
    var ready := Posts(d, env.posts(GenerationRead));
    PostsOnward(d, env.posts(GenerationRead));
    SetStateOnward(ready, Unprovisioned, env);
    var begun := Logged(ready, Began(PairCodeCall));
    var called := Posts(begun, env.posts(DuringCall));
    PostsOnward(begun, env.posts(DuringCall));
    var outcome := OutcomeOf(called, d.shared.networkGeneration, env.ret);
    PairCodeAnsweredOnward(Logged(called, Ended(PairCodeCall, outcome)), outcome, env);
    hide Posts, SetState, PairCodeAnswered;
  }

  lemma PairCodeAnsweredOnward(d: Device, outcome: Outcome, env: Env)
    ensures Onward(d, PairCodeAnswered(d, outcome, env))
  {
    hide Posts, SetState;
    match outcome
    case Stale => SetStateOnward(d, Unprovisioned, env);
    case Failed =>
      var delay := NextDelay(d.own.pairRetryDelay, PAIR_RETRY_INITIAL, PAIR_RETRY_MAX);
      SetStateOnward(d.(own := d.own.(pairRetryDelay := delay, pairRetryLeft := delay)), Unprovisioned, env);
    case Accepted =>
      var bound := d.(own := d.own.(
        pairRetryDelay := 0,
        pairRetryLeft := 0,
        bindingGeneration := d.own.bindingGeneration + 1,
        pairToken := Fitted(env.pairCode.pairToken, MAX_TOKEN),
        pairPollInterval := ClampPoll(env.pairCode.pollAfter),
        pairTicks := 0,
        deviceToken := ""));
      var shown := Posts(Logged(bound, PairCodeShown(env.pairCode.code)), env.posts(ShowingCode));
      PostsOnward(Logged(bound, PairCodeShown(env.pairCode.code)), env.posts(ShowingCode));
      SetStateOnward(shown, AwaitingClaim, env);
  }

  lemma StartOnward(d: Device, env: Env)
    ensures Onward(d, StartConversation(d, env))
  {
    var ready := Posts(d, env.posts(GenerationRead));
    PostsOnward(d, env.posts(GenerationRead));
    var begun := Logged(ready, Began(StartCall));
    var called := Posts(begun, env.posts(DuringCall));
    PostsOnward(begun, env.posts(DuringCall));
    var outcome := OutcomeOf(called, d.shared.networkGeneration, env.ret);
    StartAnsweredOnward(Logged(called, Ended(StartCall, outcome)), outcome, env);
    hide Posts, StartAnswered;
  }

  lemma StartAnsweredOnward(d: Device, outcome: Outcome, env: Env)
    ensures Onward(d, StartAnswered(d, outcome, env))
  {
    RestartOnward(d, env);
    hide Posts, SetState, RestartPairing;
    var id := env.conversation.id;
    var clear := ClearRenewal(Named(d, id));
    var named := clear.(own := clear.own.(
      rtcChannel := Fitted(env.conversation.channel, MAX_CHANNEL),
      rtcUid := Fitted(env.conversation.uid, MAX_UID),
      agentUid := Fitted(env.conversation.agentUid, MAX_UID)));
    SetStateOnward(named, InConversation, env);
    var entered := SetState(named, InConversation, env);
    PostsOnward(Logged(entered, Started(id, d.own.deviceToken)), env.posts(Starting));
  }

  lemma RenewOnward(d: Device, env: Env)
    ensures Onward(d, RenewToken(d, env))
  {
    StopOnward(d, "error", env);
    var begun := Logged(d, Began(RenewCall));
    var called := Posts(begun, env.posts(DuringCall));
    PostsOnward(begun, env.posts(DuringCall));
    var outcome := OutcomeOf(called, d.shared.networkGeneration, env.ret);
    var ended := Logged(called, Ended(RenewCall, outcome));
    hide Posts, StopConversation, InvalidateBinding;
    InvalidateOnward(ended, env);
    StopOnward(ended, "error", env);
    PostsOnward(Logged(ended, TokenRenewed), env.posts(Renewing));
  }

  function Unnoted(d: Device): Device {
    d.(shared := d.shared.(lossPending := false))
  }

  /** A tick consumes the loss it finds; it takes nothing else back. */
  lemma TickOnward(d: Device, env: Env)
    ensures Onward(if d.shared.shuttingDown then d else Unnoted(d), Tick(d, env))
  {
    hide CompleteLocally, StopConversation, SetState, CreatePairCode, StartConversation, RenewToken;
    hide PollBinding;
    if d.shared.lossPending {
      CompleteOnward(Unrequested(Unnoted(d)), env);
    } else if d.own.pairingRequested {
      TickPairingOnward(d, env);
    } else {
      match d.shared.state
      case Unprovisioned =>
        var later := d.(own := d.own.(pairRetryLeft := d.own.pairRetryLeft - 1));
        SetStateOnward(later, Pairing, env);
        CreateOnward(SetState(later, Pairing, env), env);
      case Pairing =>
      case AwaitingClaim => PollOnward(d.(own := d.own.(pairTicks := 0)), PairPoll, env);
      case Runtime =>
        StartOnward(Unrequested(d), env);
        PollOnward(d.(own := d.own.(runtimeTicks := 0)), DevicePoll, env);
      case InConversation => TickInConversationOnward(d, env);
    }
    hide TickPairing, TickInConversation;
  }

  lemma TickPairingOnward(d: Device, env: Env)
    ensures Onward(d, TickPairing(d, env))
  {
    hide StopConversation, SetState, CreatePairCode;
    var asked := d.(own := d.own.(conversationRequested := false));
    StopOnward(asked, "user_requested", env);
    var stopped :=
      if d.shared.state.InConversation? then StopConversation(asked, "user_requested", env) else asked;
    var cleared := Named(ClearAuth(stopped.(own := stopped.own.(pairingRequested := false)), env), "");
    SetStateOnward(cleared, Pairing, env);
    CreateOnward(SetState(cleared, Pairing, env), env);
  }

  lemma PollOnward(d: Device, kind: Kind, env: Env)
    ensures Onward(d, PollBinding(d, kind, env))
  {
    SubmitOnward(WithPoll(d, true), Snapshot(d, kind), env);
    hide Submit;
  }

  lemma TickInConversationOnward(d: Device, env: Env)
    ensures Onward(d, TickInConversation(d, env))
  {
    hide StopConversation, RenewToken, TickPoll;
    StopOnward(WithMail(d, NoMail),
               if d.shared.stopMail == DeviceHangup then "device_hangup" else "error", env);
    var due := RenewalDueNow(d);
    var waited := RenewalWaited(due);
    TickPollOnward(due, env);
    TickPollOnward(waited, env);
    RenewOnward(waited, env);
  }

  lemma TickPollOnward(d: Device, env: Env)
    ensures Onward(d, TickPoll(d, env))
  {
    PollOnward(d.(own := d.own.(runtimeTicks := 0)), DevicePoll, env);
    hide PollBinding;
  }

  lemma StepOnward(d: Device, op: Op)
    ensures SameConfig(d, Step(d, op)) && (d.shared.shuttingDown ==> Step(d, op).shared.shuttingDown)
    ensures Onward(if op.TickOp? && !d.shared.shuttingDown then Unnoted(d) else d, Step(d, op))
  {
    hide Tick, ServiceResult, CompleteLocally, StopConversation;
    match op
    case TickOp(env) => TickOnward(d, env);
    case Answered(i, a, env) =>
      if i < |d.inflight| {
        ServiceResultOnward(d.(inflight := Without(d.inflight, i)), d.inflight[i], a, env);
      }
    case Dropped(i) =>
    case ShutdownOp(env) =>
      var closing := d.(own := d.own.(pairingRequested := false, conversationRequested := false),
                        shared := d.shared.(shuttingDown := true, stopMail := NoMail,
                                            renewalRequested := false));
      CompleteOnward(closing, env);
      StopOnward(closing, "device_hangup", env);
    case RequestPairOp =>
    case RequestStartOp =>
    case Outside(e) =>
  }

  lemma {:induction false} RunSameConfig(d: Device, ops: seq<Op>)
    ensures SameConfig(d, Run(d, ops)) && (d.shared.shuttingDown ==> Run(d, ops).shared.shuttingDown)
    decreases |ops|
  {
    if ops != [] {
      RunSameConfig(d, ops[..|ops| - 1]);
      StepOnward(Run(d, ops[..|ops| - 1]), ops[|ops| - 1]);
    }
    hide Step;
  }

  // ---- The promises ----

  /** A device started on any store, whatever its world then does. */
  lemma RunsAreSafe(serverBase: string, deviceId: string, firmware: string, model: string, store: Slot,
                    readable: bool, env: Env, ops: seq<Op>)
    requires Configurable(serverBase, deviceId, firmware, model)
    ensures var d := Run(Init(serverBase, deviceId, firmware, model, store, readable, env).device, ops);
      && Inv(d)
      && d.own.serverBase == serverBase
      && d.own.deviceId == deviceId
  {
    InitKeeps(serverBase, deviceId, firmware, model, store, readable, env);
    var d := Init(serverBase, deviceId, firmware, model, store, readable, env).device;
    hide Inv, Init;
    RunKeeps(d, ops);
    RunSameConfig(d, ops);
  }

  /** Every start of a conversation is paired with a stop, but for the one under way. */
  lemma StartsAndStops(d: Device)
    requires Inv(d)
    ensures Starts(d.log) == Stops(d.log) + if d.shared.state.InConversation? then 1 else 0
  {
    Accounting(d.log);
    hide Books, PhaseOf, LinkOf, FailuresOf;
  }

  /** After shutdown, no operation starts a conversation again. */
  lemma {:induction false} ShutdownIsFinal(d: Device, env: Env, ops: seq<Op>)
    requires Inv(d)
    ensures !Run(Shutdown(d, env), ops).shared.state.InConversation?
    ensures Starts(Run(Shutdown(d, env), ops).log) == Stops(Run(Shutdown(d, env), ops).log)
  {
    var off := Shutdown(d, env);
    ShutdownKeeps(d, env);
    RunKeeps(off, ops);
    RunSameConfig(off, ops);
    StartsAndStops(Run(off, ops));
    hide Books, Quiet, Shutdown, Run, PhaseOk;
  }

  /** Restarting the device on its store restores the binding it is using. */
  lemma RestartRestoresBinding(d: Device, firmware: string, model: string, env: Env)
    requires Inv(d) && Claimable(d.shared.state)
    requires |firmware| < MAX_VERSION && |model| < MAX_VERSION
    ensures var r := Init(d.own.serverBase, d.own.deviceId, firmware, model, d.store, true, env);
      && r.Ready?
      && r.device.shared.state == Runtime
      && r.device.own.deviceToken == d.own.deviceToken != ""
  {
    InitKeeps(d.own.serverBase, d.own.deviceId, firmware, model, d.store, true, env);
    hide Init, PhaseOf, LinkOf, FailuresOf, Restorable;
    var r := Init(d.own.serverBase, d.own.deviceId, firmware, model, d.store, true, env);
    assert Claimable(r.device.shared.state);
  }

  /** What a worker's answer may do when it is not for the binding now in force. */
  predicate OnlyReturned(d: Device, i: nat, b: Device)
    requires i < |d.inflight|
  {
    b == d.(inflight := Without(d.inflight, i),
            own := d.own.(pollPending := d.own.pollPending && !Poll(d.inflight[i])))
  }

  /** An answer that has any effect was asked for with the credential now in use, under the
      binding now in force, on the network now up; any other is dropped. */
  lemma AnswersNeedCurrentCredential(d: Device, i: nat, a: Answer, env: Env)
    requires Inv(d) && i < |d.inflight|
    ensures var r := d.inflight[i];
      OnlyReturned(d, i, Step(d, Answered(i, a, env))) ||
      (OwnCredential(d, r) && r.bindingGeneration == d.own.bindingGeneration &&
       Current(d, r.networkGeneration) && !d.shared.shuttingDown && !d.own.pairingRequested &&
       (if r.kind.PairPoll? then d.shared.state.AwaitingClaim? else Claimable(d.shared.state)))
  {
    hide PhaseOf, LinkOf, FailuresOf, Backoff, ApplyPair, ApplyRuntime, ApplyStop;
  }

  /** A credential once replaced never speaks for the device again: its requests stay stale. */
  lemma OldRequestsStayOld(d: Device, i: nat, a: Answer, env: Env)
    requires Inv(d) && i < |d.inflight| && !OwnCredential(d, d.inflight[i])
    ensures OnlyReturned(d, i, Step(d, Answered(i, a, env)))
  {
    AnswersNeedCurrentCredential(d, i, a, env);
    hide Step, Inv;
  }

  lemma {:induction false} OnePollOutstanding(d: Device, i: nat, j: nat)
    requires Inv(d) && i < |d.inflight| && j < |d.inflight| && Poll(d.inflight[i]) && Poll(d.inflight[j])
    ensures i == j && d.own.pollPending
  {
    hide PhaseOf, LinkOf, FailuresOf, Backoff, RequestsOk;
  }

  // ---- Network losses ----

  predicate NoTick(ops: seq<Op>) {
    forall i :: 0 <= i < |ops| ==> !ops[i].TickOp?
  }

  /** A loss at any moment of any step is noted when the step ends, even if the network is back by
      then: in a call, in a callback, or while the conversation is being opened. A note is there for
      no other reason, and only a tick takes it away. */
  lemma EveryLossIsNoted(d: Device, op: Op)
    ensures Step(d, op).shared.lossPending <==>
      || d.shared.networkGeneration < Step(d, op).shared.networkGeneration
      || (d.shared.lossPending && (op.TickOp? ==> d.shared.shuttingDown))
  {
    StepOnward(d, op);
    hide Step;
  }

  /** A network loss during step k of a run ends the conversation at the next tick, whatever happens
      in between, including the network's return. */
  lemma LossEndsConversation(d: Device, ops: seq<Op>, k: nat, n: nat)
    requires Inv(d) && k < n < |ops| && ops[n].TickOp? && NoTick(ops[k + 1..n])
    requires Run(d, ops[..k]).shared.networkGeneration < Run(d, ops[..k + 1]).shared.networkGeneration
    ensures Run(d, ops[..n]).shared.lossPending
    ensures !Run(d, ops[..n + 1]).shared.state.InConversation?
    ensures Starts(Run(d, ops[..n + 1]).log) == Stops(Run(d, ops[..n + 1]).log)
  {
    hide Inv, Step, Run;
    RunNext(d, ops, k);
    EveryLossIsNoted(Run(d, ops[..k]), ops[k]);
    LossStaysNoted(d, ops, k + 1, n);
    RunNext(d, ops, n);
    RunKeeps(d, ops[..n]);
    NotedEnds(Run(d, ops[..n]), ops[n].env);
    StepIsTick(Run(d, ops[..n]), ops[n].env);
  }

  lemma StepIsTick(d: Device, env: Env)
    ensures Step(d, TickOp(env)) == Tick(d, env)
  {
  }

  lemma RunNext(d: Device, ops: seq<Op>, k: nat)
    requires k < |ops|
    ensures Run(d, ops[..k + 1]) == Step(Run(d, ops[..k]), ops[k])
  {
    assert ops[..k + 1][..k] == ops[..k];
    hide Step;
  }

  lemma {:induction false} LossStaysNoted(d: Device, ops: seq<Op>, k: nat, n: nat)
    requires k <= n <= |ops| && NoTick(ops[k..n]) && Run(d, ops[..k]).shared.lossPending
    ensures Run(d, ops[..n]).shared.lossPending
    decreases n - k
  {
    hide Step, Run;
    if k < n {
      assert ops[k..n][..n - 1 - k] == ops[k..n - 1];
      assert ops[k..n][n - 1 - k] == ops[n - 1];
      LossStaysNoted(d, ops, k, n - 1);
      RunNext(d, ops, n - 1);
      EveryLossIsNoted(Run(d, ops[..n - 1]), ops[n - 1]);
    }
  }

  /** A tick that finds a loss leaves no conversation. */
  lemma NotedEnds(d: Device, env: Env)
    requires Inv(d) && d.shared.lossPending
    ensures !Tick(d, env).shared.state.InConversation?
    ensures Starts(Tick(d, env).log) == Stops(Tick(d, env).log)
  {
    TickKeeps(d, env);
    ConsumeLossKeeps(d, env);
    StartsAndStops(Tick(d, env));
    hide Core, Quiet, ConsumeLoss;
    assert d.shared.shuttingDown ==> !d.shared.state.InConversation? by {
      ShutAndTalking(d);
    }
  }

  lemma ShutAndTalking(d: Device)
    requires Inv(d)
    ensures d.shared.shuttingDown ==> !d.shared.state.InConversation?
    ensures d.shared.state.InConversation? && !d.shared.networkAvailable ==> d.shared.lossPending
  {
    hide Books, PhaseOk, Quiet, Saves;
  }

  /** A conversation is offline only with a loss noted for the next tick. */
  lemma OfflineConversationsAreNoted(d: Device, op: Op)
    requires Inv(d)
    ensures var b := Step(d, op);
      b.shared.state.InConversation? && !b.shared.networkAvailable ==> b.shared.lossPending
  {
    StepKeeps(d, op);
    ShutAndTalking(Step(d, op));
    hide Inv, Step;
  }

  // ---- A stop is not forgotten ----

  /** Once a stop is posted in a conversation, no operation leaves the device in that conversation
      without it. */
  lemma PostedStopStays(d: Device, op: Op)
    requires Inv(d) && d.shared.state.InConversation? && d.shared.stopMail != NoMail
    ensures Step(d, op).shared.state.InConversation? ==> Step(d, op).shared.stopMail != NoMail
  {
    match op
    case TickOp(env) => TickStopsPosted(d, env);
    case Answered(i, a, env) =>
      if i < |d.inflight| {
        WithoutKeeps(d, i);
        AnswerKeepsPosted(d.(inflight := Without(d.inflight, i)), d.inflight[i], a, env);
      }
    case Dropped(i) =>
    case ShutdownOp(env) => ShutdownKeeps(d, env);
    case RequestPairOp =>
    case RequestStartOp =>
    case Outside(e) =>
    hide Inv, Tick, ServiceResult, Shutdown;
  }

  lemma TickStopsPosted(d: Device, env: Env)
    requires Inv(d) && d.shared.state.InConversation? && d.shared.stopMail != NoMail
    ensures !Tick(d, env).shared.state.InConversation?
  {
    ShutAndTalking(d);
    if d.shared.lossPending {
      ConsumeLossKeeps(d, env);
    } else if d.own.pairingRequested {
      var asked := d.(own := d.own.(conversationRequested := false));
      StoppedToPair(d, asked, StopConversation(asked, "user_requested", env), env);
      PairingIsNoConversation(d, env);
    } else {
      assert Ending(WithMail(d, NoMail)) by { hide PhaseOf, LinkOf, FailuresOf, Backoff, Restorable; }
      StopConversationFacts(WithMail(d, NoMail),
                            if d.shared.stopMail == DeviceHangup then "device_hangup" else "error", env);
    }
    hide Inv, ConsumeLoss, TickPairing, StopConversation, Ending;
  }

  /** Pairing ends without a conversation, whatever it meets. */
  lemma PairingIsNoConversation(d: Device, env: Env)
    ensures !TickPairing(d, env).shared.state.InConversation?
  {
    hide StopConversation, SetState;
    var asked := d.(own := d.own.(conversationRequested := false));
    var stopped :=
      if d.shared.state.InConversation? then StopConversation(asked, "user_requested", env) else asked;
    var cleared := Named(ClearAuth(stopped.(own := stopped.own.(pairingRequested := false)), env), "");
    CreateIsNoConversation(SetState(cleared, Pairing, env), env);
    hide CreatePairCode;
  }

  lemma CreateIsNoConversation(d: Device, env: Env)
    ensures !CreatePairCode(d, env).shared.state.InConversation?
  {
    hide SetState, Posts;
    forall x: Device, s: State
      ensures SetState(x, s, env).shared.state == s
    {
      SetStateIs(x, s, env);
    }
  }

  lemma SetStateIs(d: Device, s: State, env: Env)
    ensures SetState(d, s, env).shared.state == s
  {
    if d.shared.state != s {
      var left :=
        if d.shared.state.InConversation? then Posts(WithMail(d, NoMail), env.posts(Leaving)) else d;
      var e := Published(s, left.shared.stopMail, left.shared.renewalRequested, left.own.renewalPending);
      PostsDrift(Logged(left.(shared := left.shared.(state := s)), e), env.posts(Entered(s)));
      hide Posts, PhaseOf, LinkOf, FailuresOf;
    }
  }

  lemma AnswerKeepsPosted(d: Device, r: Request, a: Answer, env: Env)
    requires d.shared.state.InConversation? && d.shared.stopMail != NoMail
    ensures var b := ServiceResult(d, r, a, env);
      b.shared.state.InConversation? ==> b.shared.stopMail != NoMail
  {
    var back := if r.kind.StopCall? then d else WithPoll(d, false);
    SetStateIs(ClearAuth(CompleteLocally(back, env), env), Unprovisioned, env);
    hide CompleteLocally, SetState, ApplyPair;
  }
}
