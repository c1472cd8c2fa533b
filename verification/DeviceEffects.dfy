/** What the operations of the device come to, in its fields and its history
    (components/mybot/src/core/mybot_device_lifecycle.c). */
module DeviceEffects {
  import opened DeviceHistory
  import opened DeviceProtocol
  import opened DeviceInvariants
  import opened DeviceRuns
  import opened DeviceLiveness

  // ---- What state changes leave alone ----

  /** The history of a goes on in b, with the entry somewhere in the new part. */
  predicate Since(a: Device, b: Device, e: Entry) {
    a.log <= b.log && e in b.log[|a.log|..]
  }

  lemma SinceThen(a: Device, b: Device, c: Device, e: Entry)
    requires a.log <= b.log && b.log + [e] <= c.log
    ensures Since(a, c, e)
  {
    assert c.log[|b.log|] == e;
    assert c.log[|a.log|..][|b.log| - |a.log|] == e;
  }

  predicate SameOwner(a: Device, b: Device) {
    b.own == a.own && b.store == a.store && b.inflight == a.inflight
  }

  lemma PostsOwner(d: Device, es: seq<Event>)
    ensures SameOwner(d, Posts(d, es)) && Posts(d, es).shared.state == d.shared.state
    ensures d.log <= Posts(d, es).log
  {
    PostsDrift(d, es);
    PostsGrow(d, es);
    hide Posts, PhaseOf, LinkOf, FailuresOf, LinkOk;
  }

  lemma SetStateOwner(d: Device, s: State, env: Env)
    ensures SameOwner(d, SetState(d, s, env)) && SetState(d, s, env).shared.state == s
    ensures d.log <= SetState(d, s, env).log
  {
    SetStateGrows(d, s, env);
    if d.shared.state != s {
      var quiet := WithMail(d, NoMail);
      var left := if d.shared.state.InConversation? then Posts(quiet, env.posts(Leaving)) else d;
      PostsOwner(quiet, env.posts(Leaving));
      var e := Published(s, left.shared.stopMail, left.shared.renewalRequested, left.own.renewalPending);
      var entered := Logged(left.(shared := left.shared.(state := s)), e);
      PostsOwner(entered, env.posts(Entered(s)));
      hide Posts;
    }
  }

  lemma CompleteOwner(d: Device, env: Env)
    ensures var b := CompleteLocally(d, env);
      && b.own == Named(ClearRenewal(d), "").own && b.store == d.store && b.inflight == d.inflight
      && b.shared.state == Runtime
      && d.log + [Stopped] <= b.log
  {
    var ended := Logged(Named(ClearRenewal(d), ""), Stopped);
    PostsOwner(ended, env.posts(Stopping));
    SetStateOwner(Posts(ended, env.posts(Stopping)), Runtime, env);
    hide Posts, SetState;
  }

  // ---- Answers ----

  /** The worker's answer is for the binding and the network there are, and nobody asks to pair. */
  predicate UpToDate(d: Device, i: nat)
    requires i < |d.inflight|
  {
    && !d.shared.shuttingDown && d.shared.networkAvailable && !d.own.pairingRequested
    && d.inflight[i].networkGeneration == d.shared.networkGeneration
    && d.inflight[i].bindingGeneration == d.own.bindingGeneration
  }

  predicate Bound(d: Device) {
    d.shared.state.Runtime? || d.shared.state.InConversation?
  }

  predicate Rejection(ret: int) {
    ret == 401 || ret == 403 || ret == 409
  }

  /** The interval nearest to the one asked for, from 3 to 60 seconds. */
  predicate Nearest(interval: int, asked: int) {
    && 3 <= interval <= 60
    && (3 <= asked <= 60 ==> interval == asked)
    && (asked < 3 ==> interval == 3)
    && (asked > 60 ==> interval == 60)
  }

  /** The device after a worker's request has come back. */
  function Back(d: Device, i: nat): Device
    requires i < |d.inflight|
  {
    d.(inflight := d.inflight[..i] + d.inflight[i + 1..],
       own := d.own.(pollPending := d.own.pollPending && d.inflight[i].kind.StopCall?))
  }

  /** The binding is given up: the credential erased, a new generation, and pairing asked for. */
  predicate Unbinds(d: Device, i: nat, b: Device, env: Env)
    requires i < |d.inflight|
  {
    && b.shared.state == Unprovisioned
    && b.own.pairingRequested
    && b.own.deviceToken == ""
    && b.own.bindingGeneration == d.own.bindingGeneration + 1
    && b.inflight == Back(d, i).inflight
    && b.store == (if env.storeOk then Empty else env.leftover)
    && Starts(b.log) == Stops(b.log)
    && (if d.shared.state.InConversation? then d.log + [Stopped] <= b.log else d.log <= b.log)
  }

  /** A bound device that is told it is unbound, or whose credential is rejected, gives up its binding
      and ends the conversation it may be in. */
  lemma RejectionUnbinds(d: Device, i: nat, a: Answer, env: Env)
    requires Inv(d) && i < |d.inflight| && UpToDate(d, i) && Bound(d)
    requires !d.inflight[i].kind.PairPoll?
    requires Rejection(a.ret) || (d.inflight[i].kind.DevicePoll? && a.ret == 0 && a.status == "unbound")
    ensures Unbinds(d, i, Step(d, Answered(i, a, env)), env)
  {
    var b := Step(d, Answered(i, a, env));
    StepKeeps(d, Answered(i, a, env));
    StartsAndStops(b);
    InvalidOwner(Back(d, i), env);
    Dispatched(d, i, a, env);
    UnboundText();
    hide Inv, Step, InvalidateBinding;
  }

  lemma UnboundText()
    ensures "unbound" != "bound"
  {
    assert |"unbound"| != |"bound"|;
  }

  lemma InvalidOwner(d: Device, env: Env)
    ensures var b := InvalidateBinding(d, env);
      && b.shared.state == Unprovisioned && b.own.pairingRequested && b.own.deviceToken == ""
      && b.own.bindingGeneration == d.own.bindingGeneration + 1 && b.inflight == d.inflight
      && b.store == (if env.storeOk then Empty else env.leftover)
      && (if d.shared.state.InConversation? then d.log + [Stopped] <= b.log else d.log <= b.log)
  {
    CompleteOwner(d, env);
    var stopped := if d.shared.state.InConversation? then CompleteLocally(d, env) else d;
    SetStateOwner(ClearAuth(stopped, env), Unprovisioned, env);
    hide CompleteLocally, SetState;
  }

  /** Where an answer in time is applied. */
  lemma Dispatched(d: Device, i: nat, a: Answer, env: Env)
    requires Inv(d) && i < |d.inflight| && UpToDate(d, i)
    ensures var b, back, kind := Step(d, Answered(i, a, env)), Back(d, i), d.inflight[i].kind;
      && (Bound(d) && kind.DevicePoll? ==> b == ApplyRuntime(back, a, env))
      && (Bound(d) && kind.StopCall? ==> b == ApplyStop(back, a, env))
      && (Bound(d) && kind.PairPoll? ==> b == back)
      && (d.shared.state.AwaitingClaim? && kind.PairPoll? ==> b == ApplyPair(back, a, env))
      && (d.shared.state.AwaitingClaim? && !kind.PairPoll? ==> b == back)
  {
    var r := d.inflight[i];
    hide Inv, ApplyRuntime, ApplyStop, ApplyPair;
    assert Without(d.inflight, i) == d.inflight[..i] + d.inflight[i + 1..];
  }

  /** Any other answer to a poll changes at most the interval, and any other answer to a stop nothing. */
  lemma BoundStays(d: Device, i: nat, a: Answer, env: Env)
    requires Inv(d) && i < |d.inflight| && UpToDate(d, i) && Bound(d)
    requires d.inflight[i].kind.PairPoll? ||
      !(Rejection(a.ret) || (d.inflight[i].kind.DevicePoll? && a.ret == 0 && a.status == "unbound"))
    ensures var b, back := Step(d, Answered(i, a, env)), Back(d, i);
      if d.inflight[i].kind.DevicePoll? && a.ret == 0 && a.status == "bound" then
        Nearest(b.own.runtimePollInterval, a.pollAfter) &&
        b == back.(own := back.own.(runtimePollInterval := b.own.runtimePollInterval))
      else b == back
  {
    Dispatched(d, i, a, env);
    hide Inv, Step, InvalidateBinding;
  }

  // ---- Answers while a claim is awaited ----

  /** The token after a claim: the one it carries, else the one from a claim that could not be stored. */
  function ClaimToken(d: Device, a: Answer): string {
    if a.deviceToken == "" then d.own.deviceToken else Fitted(a.deviceToken, 512)
  }

  function ClaimGeneration(d: Device, a: Answer): nat {
    d.own.bindingGeneration + if a.deviceToken == "" then 0 else 1
  }

  /** A claim, with a store that works, binds the device with the token it carries. */
  lemma ClaimBinds(d: Device, i: nat, a: Answer, env: Env)
    requires Inv(d) && i < |d.inflight| && UpToDate(d, i)
    requires d.shared.state.AwaitingClaim? && d.inflight[i].kind.PairPoll?
    requires a.ret == 0 && a.status == "bound" && (a.deviceToken != "" || d.own.deviceToken != "") && env.storeOk
    ensures var b := Step(d, Answered(i, a, env));
      && b.shared.state == Runtime
      && b.own.deviceToken == ClaimToken(d, a)
      && (0 < |a.deviceToken| < 512 ==> b.own.deviceToken == a.deviceToken)
      && b.own.bindingGeneration == ClaimGeneration(d, a)
      && Nearest(b.own.runtimePollInterval, a.pollAfter)
      && b.own.runtimeTicks == 0
      && b.store.Saved? && b.store.record == Record(1, d.own.serverBase, d.own.deviceId, b.own.deviceToken)
      && d.log <= b.log
  {
    Dispatched(d, i, a, env);
    ConfigFits(d);
    StatusTexts();
    hide Inv, Step;
    ClaimedOwner(Back(d, i), a, env);
    hide Claimed, Fitted;
  }

  lemma ConfigFits(d: Device)
    requires Inv(d)
    ensures |d.own.serverBase| < MAX_URL && |d.own.deviceId| < MAX_ID && |d.own.deviceToken| < MAX_TOKEN
  {
    hide PhaseOf, LinkOf, FailuresOf, RequestsOk, PollsOk;
  }

  lemma StatusTexts()
    ensures "pending" != "bound" && "pending" != "expired" && "pending" != "failed" && "pending" != "unbound"
    ensures "bound" != "expired" && "bound" != "failed" && "bound" != "unbound"
    ensures "expired" != "failed" && "expired" != "unbound" && "failed" != "unbound"
  {
    assert "pending"[0] == 'p' && "bound"[0] == 'b' && "expired"[0] == 'e' && "failed"[0] == 'f';
    assert "unbound"[0] == 'u';
  }

  lemma ClaimedOwner(d: Device, a: Answer, env: Env)
    requires (a.deviceToken != "" || d.own.deviceToken != "") && env.storeOk
    requires |d.own.serverBase| < MAX_URL && |d.own.deviceId| < MAX_ID && |d.own.deviceToken| < MAX_TOKEN
    ensures var b := Claimed(d, a, env);
      && b.shared.state == Runtime
      && b.own.deviceToken == ClaimToken(d, a)
      && b.own.bindingGeneration == ClaimGeneration(d, a)
      && Nearest(b.own.runtimePollInterval, a.pollAfter)
      && b.own.runtimeTicks == 0
      && b.store == Saved(Record(1, d.own.serverBase, d.own.deviceId, b.own.deviceToken))
      && d.log <= b.log
  {
    var token := ClaimToken(d, a);
    assert token != "";
    var named := d.(own := d.own.(bindingGeneration := ClaimGeneration(d, a), deviceToken := token));
    assert Fitted(token, MAX_TOKEN) == token;
    SetStateOwner(PersistAuth(named, env), Runtime, env);
    hide SetState;
  }

  /** Without the store, the claim leaves the device waiting, with the new token in memory only. */
  lemma ClaimUnsaved(d: Device, i: nat, a: Answer, env: Env)
    requires Inv(d) && i < |d.inflight| && UpToDate(d, i)
    requires d.shared.state.AwaitingClaim? && d.inflight[i].kind.PairPoll?
    requires a.ret == 0 && a.status == "bound"
    ensures var b, back := Step(d, Answered(i, a, env)), Back(d, i);
      && (a.deviceToken == "" && d.own.deviceToken == "" ==> b == back)
      && ((a.deviceToken != "" || d.own.deviceToken != "") && !env.storeOk ==>
            b == back.(own := back.own.(bindingGeneration := ClaimGeneration(d, a),
                                        deviceToken := ClaimToken(d, a)),
                       store := env.leftover))
  {
    Dispatched(d, i, a, env);
    StatusTexts();
    hide Inv, Step, SetState;
  }

  /** Every other answer while a claim is awaited: a rejection, or a code that has expired or failed, asks
      to pair anew; an unbinding starts over; a pending claim changes only the interval. */
  lemma ClaimNotYet(d: Device, i: nat, a: Answer, env: Env)
    requires Inv(d) && i < |d.inflight| && UpToDate(d, i)
    requires d.shared.state.AwaitingClaim? && d.inflight[i].kind.PairPoll?
    requires !(a.ret == 0 && a.status == "bound")
    ensures var b, back := Step(d, Answered(i, a, env)), Back(d, i);
      if Rejection(a.ret) || (a.ret == 0 && a.status in ["expired", "failed"]) then
        b == back.(own := back.own.(pairingRequested := true))
      else if a.ret == 0 && a.status == "unbound" then
        b.shared.state == Unprovisioned && b.own == back.own.(pairingRequested := true) &&
        b.store == d.store && b.inflight == back.inflight
      else if a.ret == 0 && a.status == "pending" then
        Nearest(b.own.pairPollInterval, a.pollAfter) &&
        b == back.(own := back.own.(pairPollInterval := b.own.pairPollInterval))
      else b == back
  {
    Dispatched(d, i, a, env);
    StatusTexts();
    SetStateOwner(Back(d, i), Unprovisioned, env);
    hide Inv, Step, SetState, Claimed;
  }

  // ---- Conversations ----

  /** No other thread acts. */
  ghost predicate Alone(env: Env) {
    forall p :: env.posts(p) == []
  }

  /** A tick with nothing more urgent to do: no loss, no request to pair. */
  predicate Settled(d: Device) {
    !d.shared.shuttingDown && !d.shared.lossPending && d.shared.networkAvailable && !d.own.pairingRequested
  }

  /** The conversation is the one the service named, field by field, and nothing is left of an older one. */
  predicate InTouch(d: Device, c: Conversation) {
    && d.shared.state == InConversation
    && d.own.conversationId == c.id
    && d.own.rtcChannel == Fitted(c.channel, 128)
    && d.own.rtcUid == Fitted(c.uid, 64)
    && d.own.agentUid == Fitted(c.agentUid, 64)
    && !d.own.renewalPending && d.own.renewalDelay == 0 && d.own.renewalLeft == 0
    && !d.own.conversationRequested
  }

  lemma EnteringOwner(d: Device, outcome: Outcome, env: Env)
    requires outcome.Accepted? && env.ret == 0 && 0 < |env.conversation.id| < 128
    requires !d.own.conversationRequested
    ensures var b := StartAnswered(d, outcome, env);
      && InTouch(b, env.conversation)
      && b.own.deviceToken == d.own.deviceToken && b.store == d.store && b.inflight == d.inflight
      && d.log <= b.log
      && Since(d, b, Started(env.conversation.id, d.own.deviceToken))
  {
    var id := env.conversation.id;
    var clear := ClearRenewal(Named(d, id));
    var named := clear.(own := clear.own.(
      rtcChannel := Fitted(env.conversation.channel, MAX_CHANNEL),
      rtcUid := Fitted(env.conversation.uid, MAX_UID),
      agentUid := Fitted(env.conversation.agentUid, MAX_UID)));
    var entered := SetState(named, InConversation, env);
    SetStateOwner(named, InConversation, env);
    var e := Started(id, d.own.deviceToken);
    PostsOwner(Logged(entered, e), env.posts(Starting));
    hide SetState, Posts, Fitted;
    var b := StartAnswered(d, outcome, env);
    SinceThen(d, entered, b, e);
  }

  /** The answer opens a conversation. */
  predicate Opens(outcome: Outcome, env: Env) {
    outcome.Accepted? && 0 < |env.conversation.id| < 128
  }

  lemma StartsOwner(d: Device, env: Env)
    requires !d.own.conversationRequested && d.shared.state.Runtime?
    ensures var b := StartConversation(d, env);
      && d.log <= b.log
      && (b.shared.state.InConversation? ==>
            && env.ret == 0 && 0 < |env.conversation.id| < 128
            && InTouch(b, env.conversation)
            && Since(d, b, Started(env.conversation.id, d.own.deviceToken)))
  {
    if env.memory {
      var ready := Posts(d, env.posts(GenerationRead));
      PostsOwner(d, env.posts(GenerationRead));
      if ready.shared.networkAvailable {
        StartCalled(d, ready, env);
      }
    }
    hide Posts, StartAnswered, InTouch;
  }

  lemma StartCalled(d: Device, ready: Device, env: Env)
    requires !d.own.conversationRequested && d.shared.state.Runtime? && SameOwner(d, ready)
    requires ready.shared.state.Runtime? && d.log <= ready.log
    ensures var called := Posts(Logged(ready, Began(StartCall)), env.posts(DuringCall));
      var outcome := OutcomeOf(called, d.shared.networkGeneration, env.ret);
      var b := StartAnswered(Logged(called, Ended(StartCall, outcome)), outcome, env);
      && d.log <= b.log
      && (b.shared.state.InConversation? <==> Opens(outcome, env))
      && (Opens(outcome, env) ==>
            && env.ret == 0
            && InTouch(b, env.conversation)
            && Since(d, b, Started(env.conversation.id, d.own.deviceToken)))
  {
    var begun := Logged(ready, Began(StartCall));
    var called := Posts(begun, env.posts(DuringCall));
    PostsOwner(begun, env.posts(DuringCall));
    var outcome := OutcomeOf(called, d.shared.networkGeneration, env.ret);
    var ended := Logged(called, Ended(StartCall, outcome));
    hide Posts, StartAnswered, InTouch;
    if Opens(outcome, env) {
      EnteringOwner(ended, outcome, env);
      var b := StartAnswered(ended, outcome, env);
      assert b.log[|d.log|..] == b.log[|d.log|..|ended.log|] + b.log[|ended.log|..];
      InTouchTalks(b, env.conversation);
    } else {
      StartRefused(ended, outcome, env);
    }
  }

  lemma InTouchTalks(d: Device, c: Conversation)
    requires InTouch(d, c)
    ensures d.shared.state.InConversation?
  {
  }

  lemma StartRefused(d: Device, outcome: Outcome, env: Env)
    requires !Opens(outcome, env) && d.shared.state.Runtime?
    ensures d.log <= StartAnswered(d, outcome, env).log
    ensures !StartAnswered(d, outcome, env).shared.state.InConversation?
  {
    SetStateOwner(ClearAuth(d, env), Unprovisioned, env);
    hide SetState, Posts;
  }

  lemma AlonePosts(d: Device, env: Env, p: Point)
    requires Alone(env)
    ensures Posts(d, env.posts(p)) == d
  {
  }

  lemma StartsAlone(d: Device, env: Env)
    requires !d.own.conversationRequested && d.shared.state.Runtime? && d.shared.networkAvailable
    requires Alone(env) && env.memory && env.ret == 0 && 0 < |env.conversation.id| < 128
    ensures StartConversation(d, env).shared.state.InConversation?
  {
    AlonePosts(d, env, GenerationRead);
    AlonePosts(Logged(d, Began(StartCall)), env, DuringCall);
    StartCalled(d, d, env);
    hide Posts, StartAnswered, InTouch;
  }

  /** A tick that takes a device from runtime into a conversation was asked to, and was answered; the
      conversation is then the one answered, told to the application with the device's token. */
  lemma TickStarts(d: Device, env: Env)
    requires Inv(d) && d.shared.state.Runtime? && Tick(d, env).shared.state.InConversation?
    ensures d.own.conversationRequested && Settled(d) && env.ret == 0
    ensures var b := Tick(d, env);
      && InTouch(b, env.conversation)
      && d.log <= b.log
      && Since(d, b, Started(env.conversation.id, d.own.deviceToken))
  {
    hide Inv, StartConversation, InTouch;
    StartsOwner(Unrequested(d), env);
    PairingIsNoConversation(d, env);
    hide TickPairing;
    PollOwner(d, env);
    hide TickPoll;
  }

  lemma PollOwner(d: Device, env: Env)
    ensures TickPoll(d, env).shared.state == d.shared.state
  {
    forall x: Device ensures Posts(x, env.posts(Submitting)).shared.state == x.shared.state {
      PostsOwner(x, env.posts(Submitting));
    }
    hide Posts;
  }

  /** Pressing start on a bound device with the network up starts the conversation the service names, at
      the next tick, if nothing comes in between. */
  lemma PressingStartTalks(d: Device, env: Env)
    requires Inv(d) && d.shared.state.Runtime? && Settled(d)
    requires Alone(env) && env.memory && env.ret == 0 && 0 < |env.conversation.id| < 128
    ensures var b := Step(Step(d, RequestStartOp), TickOp(env));
      InTouch(b, env.conversation) && Started(env.conversation.id, d.own.deviceToken) in b.log
  {
    var asked := Step(d, RequestStartOp);
    StepKeeps(d, RequestStartOp);
    StartsAlone(Unrequested(asked), env);
    hide Inv, StartConversation, InTouch;
    TickStarts(asked, env);
  }

  /** Offline, shutting down, unbound or already talking, pressing start does nothing. */
  lemma PressingStartInVain(d: Device)
    requires d.shared.shuttingDown || !d.shared.networkAvailable || !d.shared.state.Runtime?
    ensures Step(d, RequestStartOp) == d
  {
  }

  // ---- Ending a conversation ----

  /** The service is asked to stop the conversation, for this reason, with its credential. */
  predicate StopAsked(d: Device, b: Device, reason: string) {
    var n := |b.inflight|;
    && n > 0
    && b.inflight[n - 1].kind == StopCall(d.own.conversationId, reason)
    && b.inflight[n - 1].credential == d.own.deviceToken
    && b.inflight[n - 1].deviceId == d.own.deviceId && b.inflight[n - 1].serverBase == d.own.serverBase
    && Submitted(b.inflight[n - 1]) in b.log
  }

  lemma StopAlone(d: Device, reason: string, env: Env)
    requires d.shared.state.InConversation? && d.own.conversationId != "" && d.shared.networkAvailable
    requires Alone(env) && env.memory && env.submitted
    ensures var b := StopConversation(d, reason, env);
      && b.shared.state == Runtime && b.own == Named(ClearRenewal(d), "").own && b.store == d.store
      && |b.inflight| == |d.inflight| + 1 && StopAsked(d, b, reason)
      && d.log + [Stopped] <= b.log
      && b.shared.networkAvailable && b.shared.shuttingDown == d.shared.shuttingDown
  {
    AlonePosts(Logged(Named(ClearRenewal(d), ""), Stopped), env, Stopping);
    var ended := Logged(Named(ClearRenewal(d), ""), Stopped);
    CompleteOwner(d, env);
    SetAlone(ended, Runtime, env);
    var done := CompleteLocally(d, env);
    var r := Snapshot(done, StopCall(d.own.conversationId, reason));
    AlonePosts(Logged(done.(inflight := done.inflight + [r]), Submitted(r)), env, Submitting);
    hide Posts, SetState;
    assert StopConversation(d, reason, env) ==
      Logged(done.(inflight := done.inflight + [r]), Submitted(r));
  }

  lemma SetAlone(d: Device, s: State, env: Env)
    requires Alone(env)
    ensures var b := SetState(d, s, env);
      && b.shared.networkAvailable == d.shared.networkAvailable
      && b.shared.networkGeneration == d.shared.networkGeneration
      && b.shared.shuttingDown == d.shared.shuttingDown
      && b.shared.lossPending == d.shared.lossPending
  {
    hide Posts;
    if d.shared.state != s {
      var quiet := WithMail(d, NoMail);
      AlonePosts(quiet, env, Leaving);
      var left := if d.shared.state.InConversation? then quiet else d;
      var e := Published(s, left.shared.stopMail, left.shared.renewalRequested, left.own.renewalPending);
      AlonePosts(Logged(left.(shared := left.shared.(state := s)), e), env, Entered(s));
    }
  }

  lemma TalkingFacts(d: Device)
    requires Inv(d) && d.shared.state.InConversation?
    ensures d.own.conversationId != "" && d.own.deviceToken != "" && !d.shared.shuttingDown
  {
    hide PhaseOf, LinkOf, FailuresOf, Books, Restorable, LinkOk;
  }

  /** A stop posted in a conversation ends it at the next tick and asks the service to, saying who
      ended it. */
  lemma PostedStopEnds(d: Device, env: Env)
    requires Inv(d) && d.shared.state.InConversation? && Settled(d) && d.shared.stopMail != NoMail
    requires Alone(env) && env.memory && env.submitted
    ensures var b := Step(d, TickOp(env));
      && b.shared.state == Runtime && b.own.conversationId == "" && d.log + [Stopped] <= b.log
      && StopAsked(d, b, if d.shared.stopMail == DeviceHangup then "device_hangup" else "error")
  {
    TalkingFacts(d);
    hide Inv, StopConversation;
    StopAlone(WithMail(d, NoMail), if d.shared.stopMail == DeviceHangup then "device_hangup" else "error", env);
  }

  /** The button posts a hang-up, RTC a failure. */
  lemma PostsSayWho(d: Device)
    requires Inv(d) && d.shared.state.InConversation?
    ensures Step(d, Outside(HangupPressed)) == WithMail(d, DeviceHangup)
    ensures Step(d, Outside(ConversationEnded)) == WithMail(d, Failure)
    ensures d.shared.networkAvailable ==>
      Step(d, Outside(RenewalDue)) == d.(shared := d.shared.(renewalRequested := true))
  {
    TalkingFacts(d);
    hide Inv;
  }

  /** Shutting down in a conversation ends it; the service is asked to stop it exactly if the network has
      been up since. */
  lemma ShutdownEnds(d: Device, env: Env)
    requires Inv(d) && d.shared.state.InConversation?
    requires Alone(env) && env.memory && env.submitted
    ensures var b := Step(d, ShutdownOp(env));
      && b.shared.state == Runtime && b.shared.shuttingDown && d.log + [Stopped] <= b.log
      && (if d.shared.networkAvailable && !d.shared.lossPending then StopAsked(d, b, "device_hangup")
          else b.inflight == d.inflight)
  {
    TalkingFacts(d);
    hide Inv, StopConversation, CompleteLocally;
    var closing := d.(own := d.own.(pairingRequested := false, conversationRequested := false),
                      shared := d.shared.(shuttingDown := true, stopMail := NoMail,
                                          renewalRequested := false));
    if d.shared.networkAvailable && !d.shared.lossPending {
      StopAlone(closing, "device_hangup", env);
    } else {
      CompleteOwner(closing, env);
      CompleteAlone(closing, env);
    }
  }

  lemma CompleteAlone(d: Device, env: Env)
    requires Alone(env)
    ensures CompleteLocally(d, env).shared.shuttingDown == d.shared.shuttingDown
  {
    AlonePosts(Logged(Named(ClearRenewal(d), ""), Stopped), env, Stopping);
    SetAlone(Logged(Named(ClearRenewal(d), ""), Stopped), Runtime, env);
    hide Posts, SetState;
  }

  // ---- Pair codes ----

  /** The device waits for the claim of the code it shows, and holds no other credential. */
  predicate AwaitsClaim(d: Device, c: PairCode) {
    && d.shared.state == AwaitingClaim
    && d.own.pairToken == Fitted(c.pairToken, 512)
    && Nearest(d.own.pairPollInterval, c.pollAfter)
    && d.own.pairTicks == 0 && d.own.pairRetryDelay == 0 && d.own.pairRetryLeft == 0
    && d.own.deviceToken == ""
  }

  lemma AcceptedCode(d: Device, env: Env)
    ensures var b := PairCodeAnswered(d, Accepted, env);
      && AwaitsClaim(b, env.pairCode)
      && b.own.bindingGeneration == d.own.bindingGeneration + 1
      && b.store == d.store && b.inflight == d.inflight
      && d.log + [PairCodeShown(env.pairCode.code)] <= b.log
  {
    var bound := d.(own := d.own.(
      pairRetryDelay := 0,
      pairRetryLeft := 0,
      bindingGeneration := d.own.bindingGeneration + 1,
      pairToken := Fitted(env.pairCode.pairToken, MAX_TOKEN),
      pairPollInterval := ClampPoll(env.pairCode.pollAfter),
      pairTicks := 0,
      deviceToken := ""));
    var e := PairCodeShown(env.pairCode.code);
    PostsOwner(Logged(bound, e), env.posts(ShowingCode));
    SetStateOwner(Posts(Logged(bound, e), env.posts(ShowingCode)), AwaitingClaim, env);
    hide Posts, SetState, Fitted;
  }

  lemma OtherCode(d: Device, outcome: Outcome, env: Env)
    requires !outcome.Accepted?
    ensures var b := PairCodeAnswered(d, outcome, env);
      && b.shared.state == Unprovisioned
      && (outcome.Stale? ==> b.own == d.own.(pairingRequested := true))
      && (outcome.Failed? ==>
            && b.own == d.own.(pairRetryDelay := b.own.pairRetryDelay, pairRetryLeft := b.own.pairRetryDelay)
            && b.own.pairRetryDelay ==
                 if d.own.pairRetryDelay == 0 then 30 else if d.own.pairRetryDelay < 300
                 then 2 * d.own.pairRetryDelay else 600)
      && b.store == d.store && b.inflight == d.inflight && d.log <= b.log
  {
    SetStateOwner(d, Unprovisioned, env);
    var delay := NextDelay(d.own.pairRetryDelay, PAIR_RETRY_INITIAL, PAIR_RETRY_MAX);
    SetStateOwner(d.(own := d.own.(pairRetryDelay := delay, pairRetryLeft := delay)), Unprovisioned, env);
    hide SetState;
  }

  /** What asking for a pair code comes to: the claim of the code answered is awaited, or the device is
      unprovisioned and asks again, at once if the network failed, else after the delay. */
  ghost predicate PairCodeComes(d: Device, b: Device, env: Env) {
    && b.inflight == d.inflight && b.store == d.store && d.log <= b.log
    && (if b.shared.state == AwaitingClaim then
          env.ret == 0 && AwaitsClaim(b, env.pairCode) && Since(d, b, PairCodeShown(env.pairCode.code))
        else
          b.shared.state == Unprovisioned && b.own.deviceToken == d.own.deviceToken &&
          (b.own.pairingRequested || (b.own.pairRetryLeft == b.own.pairRetryDelay && env.ret != 0)))
    && (Alone(env) && d.shared.networkAvailable ==> (b.shared.state == AwaitingClaim <==> env.ret == 0))
  }

  lemma CreateComes(d: Device, env: Env)
    ensures PairCodeComes(d, CreatePairCode(d, env), env)
  {
    var ready := Posts(d, env.posts(GenerationRead));
    PostsOwner(d, env.posts(GenerationRead));
    SetStateOwner(ready, Unprovisioned, env);
    if Alone(env) {
      AlonePosts(d, env, GenerationRead);
      AlonePosts(Logged(d, Began(PairCodeCall)), env, DuringCall);
    }
    hide Posts, SetState, PairCodeAnswered;
    if ready.shared.networkAvailable {
      var begun := Logged(ready, Began(PairCodeCall));
      var called := Posts(begun, env.posts(DuringCall));
      PostsOwner(begun, env.posts(DuringCall));
      var outcome := OutcomeOf(called, d.shared.networkGeneration, env.ret);
      var ended := Logged(called, Ended(PairCodeCall, outcome));
      if outcome.Accepted? {
        AcceptedCode(ended, env);
        SinceThen(d, ended, CreatePairCode(d, env), PairCodeShown(env.pairCode.code));
      } else {
        OtherCode(ended, outcome, env);
      }
    }
  }

  /** The owner's request to pair gives up the binding at the next tick, ends the conversation there may
      be, as the user's wish, and asks for a code. */
  lemma AskingToPairPairs(d: Device, env: Env)
    requires Inv(d) && Settled(d) && Alone(env) && env.memory && env.submitted
    ensures var b := Step(Step(d, RequestPairOp), TickOp(env));
      && b.store == (if env.storeOk then Empty else env.leftover)
      && b.own.deviceToken == ""
      && b.own.bindingGeneration > d.own.bindingGeneration
      && (d.shared.state.InConversation? ==> Since(d, b, Stopped) && StopAsked(d, b, "user_requested"))
      && (if env.ret == 0 then AwaitsClaim(b, env.pairCode) else b.shared.state == Unprovisioned)
  {
    hide StopConversation, SetState, CreatePairCode, ClearAuth, StopAsked, AwaitsClaim, Inv, Since;
    var cleared := Cleared(d, env);
    ClearedIs(d, env);
    var pairing := SetState(cleared, Pairing, env);
    SetStateOwner(cleared, Pairing, env);
    SetAlone(cleared, Pairing, env);
    CreateComes(pairing, env);
    var b := Step(Step(d, RequestPairOp), TickOp(env));
    assert b == CreatePairCode(pairing, env);
    CreateGeneration(pairing, env);
    hide Step, Cleared;
    AwaitsNoToken(b, env.pairCode);
    if d.shared.state.InConversation? {
      LaterSince(d, cleared, b);
      LaterStop(d, cleared, b, "user_requested");
    }
  }

  /** The device just before it asks for a code. */
  function Cleared(d: Device, env: Env): Device {
    var asked := d.(own := d.own.(conversationRequested := false, pairingRequested := true));
    var stopped :=
      if d.shared.state.InConversation? then StopConversation(asked, "user_requested", env) else asked;
    Named(ClearAuth(stopped.(own := stopped.own.(pairingRequested := false)), env), "")
  }

  lemma ClearedIs(d: Device, env: Env)
    requires Inv(d) && Settled(d) && Alone(env) && env.memory && env.submitted
    ensures var c := Cleared(d, env);
      && c.store == (if env.storeOk then Empty else env.leftover)
      && c.own.deviceToken == "" && c.own.bindingGeneration == d.own.bindingGeneration + 1
      && c.shared.networkAvailable
      && (d.shared.state.InConversation? ==>
            d.log + [Stopped] <= c.log && StopAsked(d, c, "user_requested"))
  {
    hide StopConversation, StopAsked;
    var asked := d.(own := d.own.(conversationRequested := false, pairingRequested := true));
    if d.shared.state.InConversation? {
      TalkingFacts(d);
      hide Inv;
      StopAlone(asked, "user_requested", env);
      LaterStop(asked, StopConversation(asked, "user_requested", env), Cleared(d, env), "user_requested");
      SameStop(d, asked, Cleared(d, env), "user_requested");
    }
    hide Inv;
  }

  lemma AwaitsNoToken(d: Device, c: PairCode)
    ensures AwaitsClaim(d, c) ==> d.own.deviceToken == ""
  {
  }

  lemma LaterSince(a: Device, b: Device, c: Device)
    requires a.log + [Stopped] <= b.log <= c.log
    ensures Since(a, c, Stopped)
  {
    SinceThen(a, a, c, Stopped);
  }

  lemma LaterStop(a: Device, b: Device, c: Device, reason: string)
    requires StopAsked(a, b, reason) && c.inflight == b.inflight && b.log <= c.log
    ensures StopAsked(a, c, reason)
  {
  }

  lemma CreateGeneration(d: Device, env: Env)
    ensures CreatePairCode(d, env).own.bindingGeneration >= d.own.bindingGeneration
  {
    var ready := Posts(d, env.posts(GenerationRead));
    PostsOwner(d, env.posts(GenerationRead));
    SetStateOwner(ready, Unprovisioned, env);
    var begun := Logged(ready, Began(PairCodeCall));
    var called := Posts(begun, env.posts(DuringCall));
    PostsOwner(begun, env.posts(DuringCall));
    var outcome := OutcomeOf(called, d.shared.networkGeneration, env.ret);
    var ended := Logged(called, Ended(PairCodeCall, outcome));
    hide Posts, SetState, PairCodeAnswered;
    if outcome.Accepted? {
      AcceptedCode(ended, env);
    } else {
      OtherCode(ended, outcome, env);
    }
  }

  // ---- Token renewal ----

  /** A renewal is tried at this tick. */
  predicate RenewalNow(d: Device) {
    && d.shared.state.InConversation? && Settled(d) && d.shared.stopMail == NoMail
    && (d.shared.renewalRequested || (d.own.renewalPending && d.own.renewalLeft <= 1))
    && d.own.rtcChannel != "" && d.own.rtcUid != ""
  }

  /** The wait before the next try: 10 ticks after a new request, then doubling up to 100. */
  function NextWait(d: Device): int {
    if d.shared.renewalRequested || d.own.renewalDelay == 0 then 10
    else if d.own.renewalDelay < 50 then 2 * d.own.renewalDelay else 100
  }

  /** The renewed token is for the channel and the user of the conversation. */
  predicate ForUs(d: Device, t: RtcToken) {
    t.channel == d.own.rtcChannel && t.uid == d.own.rtcUid
  }

  ghost predicate RenewalDone(d: Device, b: Device, env: Env) {
    if Rejection(env.ret) then
      b.shared.state == Unprovisioned && b.own.pairingRequested && b.own.deviceToken == "" &&
      Since(d, b, Stopped) && b.inflight == d.inflight
    else if env.ret == 400 || env.ret == 410 || (env.ret == 0 && !ForUs(d, env.renewed)) then
      b.shared.state == Runtime && Since(d, b, Stopped) && StopAsked(d, b, "error")
    else if env.ret == 0 && env.renewalAccepted then
      b.shared.state == InConversation && Since(d, b, TokenRenewed) &&
      b.own == d.own.(renewalPending := false, renewalDelay := 0, renewalLeft := 0)
    else
      b.shared.state == InConversation &&
      b.own == d.own.(renewalPending := true, renewalDelay := NextWait(d), renewalLeft := NextWait(d))
  }

  /** What a renewal comes to: with a token for this conversation that RTC takes, it is done; with one
      that RTC refuses, and after a passing failure, it waits its turn; with a token for another
      conversation, and after 400 or 410, the conversation ends; a rejection gives up the binding. */
  lemma RenewalComesTo(d: Device, env: Env)
    requires Inv(d) && RenewalNow(d) && Alone(env) && env.memory && env.submitted
    ensures RenewalDone(d, Step(d, TickOp(env)), env)
  {
    TalkingFacts(d);
    RenewalInTime(d);
    hide Inv, Posts, RenewAnswered, RenewalDone;
    var waited := RenewalWaited(RenewalDueNow(d));
    var begun := Logged(waited, Began(RenewCall));
    AlonePosts(begun, env, DuringCall);
    var outcome := OutcomeOf(begun, d.shared.networkGeneration, env.ret);
    var ended := Logged(begun, Ended(RenewCall, outcome));
    assert Step(d, TickOp(env)) == RenewToken(waited, env);
    assert RenewToken(waited, env) == RenewAnswered(ended, outcome, env);
    RenewalAnswer(d, waited, ended, outcome, env);
  }

  lemma RenewalInTime(d: Device)
    requires Inv(d)
    ensures 0 <= d.own.renewalLeft
  {
    hide PhaseOf, LinkOf, FailuresOf, RequestsOk, PollsOk;
  }

  /** The renewal has been called for, and answered. */
  predicate Tried(d: Device, ended: Device) {
    var waited := RenewalWaited(RenewalDueNow(d));
    && RenewalNow(d) && 0 <= d.own.renewalLeft && d.own.conversationId != ""
    && ended.own == waited.own && ended.shared == waited.shared && ended.store == d.store
    && ended.inflight == d.inflight && d.log <= ended.log
  }

  lemma RenewalAnswer(d: Device, waited: Device, ended: Device, outcome: Outcome, env: Env)
    requires waited == RenewalWaited(RenewalDueNow(d)) && Tried(d, ended)
    requires Alone(env) && env.memory && env.submitted
    requires outcome == if env.ret == 0 then Accepted else Failed
    ensures RenewalDone(d, RenewAnswered(ended, outcome, env), env)
  {
    hide Posts, InvalidateBinding, StopConversation, StopAsked, Tried, ScheduleRenewal, ForUs;
    if Rejection(env.ret) {
      RejectedRenewal(d, ended, env);
    } else if env.ret == 400 || env.ret == 410 || (env.ret == 0 && !ForUs(d, env.renewed)) {
      EndingRenewal(d, ended, env);
      NotForUs(d, ended, env);
    } else {
      NotForUs(d, ended, env);
      LivingRenewal(d, ended, env);
    }
  }

  lemma NotForUs(d: Device, ended: Device, env: Env)
    requires Tried(d, ended)
    ensures ForUs(d, env.renewed) <==>
      env.renewed.channel == ended.own.rtcChannel && env.renewed.uid == ended.own.rtcUid
  {
  }

  lemma RejectedRenewal(d: Device, ended: Device, env: Env)
    requires Tried(d, ended)
    ensures var b := InvalidateBinding(ended, env);
      && b.shared.state == Unprovisioned && b.own.pairingRequested && b.own.deviceToken == ""
      && Since(d, b, Stopped) && b.inflight == d.inflight
  {
    hide InvalidateBinding, Since;
    InvalidOwner(ended, env);
    SinceThen(d, ended, InvalidateBinding(ended, env), Stopped);
  }

  lemma EndingRenewal(d: Device, ended: Device, env: Env)
    requires Tried(d, ended) && Alone(env) && env.memory && env.submitted
    ensures var b := StopConversation(ended, "error", env);
      b.shared.state == Runtime && Since(d, b, Stopped) && StopAsked(d, b, "error")
  {
    hide StopConversation, StopAsked, Since;
    StopAlone(ended, "error", env);
    var b := StopConversation(ended, "error", env);
    SinceThen(d, ended, b, Stopped);
    SameStop(d, ended, b, "error");
  }

  lemma LivingRenewal(d: Device, ended: Device, env: Env)
    requires Tried(d, ended) && Alone(env)
    ensures var b := ScheduleRenewal(ended);
      && b.shared.state == InConversation
      && b.own == d.own.(renewalPending := true, renewalDelay := NextWait(d), renewalLeft := NextWait(d))
    ensures var told := Posts(Logged(ended, TokenRenewed), env.posts(Renewing));
      && told == Logged(ended, TokenRenewed) && Since(d, told, TokenRenewed)
      && told.shared.state == InConversation
      && ScheduleRenewal(told).own == ScheduleRenewal(ended).own
      && ScheduleRenewal(told).shared == ended.shared
      && told.own.(renewalPending := false, renewalDelay := 0, renewalLeft := 0) ==
           d.own.(renewalPending := false, renewalDelay := 0, renewalLeft := 0)
  {
    hide Posts;
    AlonePosts(Logged(ended, TokenRenewed), env, Renewing);
    SinceThen(d, ended, Logged(ended, TokenRenewed), TokenRenewed);
  }

  lemma SameStop(a: Device, b: Device, c: Device, reason: string)
    requires a.own.conversationId == b.own.conversationId && a.own.deviceToken == b.own.deviceToken
    requires a.own.deviceId == b.own.deviceId && a.own.serverBase == b.own.serverBase
    ensures StopAsked(b, c, reason) ==> StopAsked(a, c, reason)
  {
  }

  // ---- When a start fails ----

  /** A start that the service rejects gives up the binding; one it fails, or answers without a usable
      id, leaves the device bound and no longer asking. */
  lemma FailedStartComesTo(d: Device, env: Env)
    requires Inv(d) && d.shared.state.Runtime? && Settled(d) && d.own.conversationRequested
    requires Alone(env) && env.memory && !(env.ret == 0 && 0 < |env.conversation.id| < 128)
    ensures var b := Step(d, TickOp(env));
      if Rejection(env.ret) then
        b.shared.state == Unprovisioned && b.own.pairingRequested && b.own.deviceToken == "" &&
        b.own.bindingGeneration == d.own.bindingGeneration + 1
      else b.shared.state == Runtime && b.own == d.own.(conversationRequested := false) && b.store == d.store
  {
    hide Inv, Posts, StartAnswered;
    var asked := Unrequested(d);
    AlonePosts(asked, env, GenerationRead);
    var begun := Logged(asked, Began(StartCall));
    AlonePosts(begun, env, DuringCall);
    var outcome := OutcomeOf(begun, d.shared.networkGeneration, env.ret);
    var ended := Logged(begun, Ended(StartCall, outcome));
    assert Step(d, TickOp(env)) == StartAnswered(ended, outcome, env);
    UnansweredStart(ended, outcome, env);
  }

  lemma UnansweredStart(d: Device, outcome: Outcome, env: Env)
    requires outcome == (if env.ret == 0 then Accepted else Failed)
    requires !(env.ret == 0 && 0 < |env.conversation.id| < 128)
    ensures var b := StartAnswered(d, outcome, env);
      if Rejection(env.ret) then
        b.shared.state == Unprovisioned && b.own.pairingRequested && b.own.deviceToken == "" &&
        b.own.bindingGeneration == d.own.bindingGeneration + 1
      else b == d
  {
    SetStateOwner(ClearAuth(d, env), Unprovisioned, env);
    hide SetState, Posts;
  }

  // ---- Starting up ----

  /** Start-up takes a binding from the store exactly if a whole record of this format, for this server
      and device, with a token, can be read; whatever else is there is erased, and pairing asked for. */
  lemma StartUpRestores(serverBase: string, deviceId: string, firmware: string, model: string, store: Slot,
                        readable: bool, env: Env)
    requires 0 < |serverBase| < 640 && 0 < |deviceId| < 128 && |firmware| < 64 && |model| < 64
    ensures var r := Init(serverBase, deviceId, firmware, model, store, readable, env);
      && r.Ready?
      && var d := r.device;
      if readable && store.Saved? && store.record.version == 1 && store.record.serverBase == serverBase &&
         store.record.deviceId == deviceId && 0 < |store.record.deviceToken| < 512 then
        d.shared.state == Runtime && d.own.deviceToken == store.record.deviceToken && d.store == store &&
        d.own.runtimePollInterval == 30 && !d.own.pairingRequested
      else
        d.shared.state == Unprovisioned && d.own.deviceToken == "" && d.own.pairingRequested &&
        d.store == (if (readable && store.Empty?) || env.storeOk then Empty else env.leftover)
  {
    var blank := Blank(serverBase, deviceId, store);
    hide SetState;
    SetStateOwner(blank.(own := blank.own.(deviceToken := if store.Saved? then store.record.deviceToken else "",
                                           runtimePollInterval := RESTORED_POLL_SECONDS)), Runtime, env);
    SetStateOwner(blank, Unprovisioned, env);
    SetStateOwner(blank.(store := if env.storeOk then Empty else env.leftover), Unprovisioned, env);
  }

  /** Without a server, a device id or room for what is given, there is no device. */
  lemma StartUpRejects(serverBase: string, deviceId: string, firmware: string, model: string, store: Slot,
                       readable: bool, env: Env)
    requires serverBase == "" || deviceId == "" || |serverBase| >= 640 || |deviceId| >= 128 ||
      |firmware| >= 64 || |model| >= 64
    ensures Init(serverBase, deviceId, firmware, model, store, readable, env) == Rejected
  {
  }

  // ---- Without the network ----

  /** A tick that finds a loss, or no network, drops a start asked for and a stop posted, and touches
      nothing else of a device that is not talking. */
  lemma OfflineTick(d: Device, env: Env)
    requires Inv(d) && !d.shared.shuttingDown && !d.shared.state.InConversation?
    requires d.shared.lossPending || !d.shared.networkAvailable
    ensures Step(d, TickOp(env)) ==
      d.(own := d.own.(conversationRequested := false),
         shared := d.shared.(lossPending := false, stopMail := NoMail))
  {
    hide Inv;
  }

  /** In a conversation, a tick that finds a loss ends it without asking the service. */
  lemma LostTick(d: Device, env: Env)
    requires Inv(d) && d.shared.state.InConversation? && d.shared.lossPending
    ensures var b := Step(d, TickOp(env));
      && b.shared.state == Runtime && b.inflight == d.inflight && d.log + [Stopped] <= b.log
      && !b.own.conversationRequested && b.own.conversationId == "" && b.own.deviceToken == d.own.deviceToken
  {
    TalkingFacts(d);
    hide Inv, CompleteLocally;
    CompleteOwner(Unrequested(Unnoted(d)), env);
  }

  // ---- Polls that cannot be handed over ----

  /** A poll due that the worker refuses, or for which there is no memory, is not outstanding: the device
      polls again when its interval is over. */
  lemma RefusedPollIsNotOut(d: Device, env: Env)
    requires Inv(d) && Settled(d) && !d.own.pollPending && (!env.submitted || !env.memory) && Alone(env)
    requires d.shared.state.AwaitingClaim? || (d.shared.state.Runtime? && !d.own.conversationRequested)
    ensures var b := Step(d, TickOp(env));
      && !b.own.pollPending && b.inflight == d.inflight && b.shared == d.shared && b.log == d.log
      && b.own == d.own.(pairTicks := b.own.pairTicks, runtimeTicks := b.own.runtimeTicks)
      && (if d.shared.state.AwaitingClaim? then
            b.own.pairTicks == if d.own.pairTicks + 1 >= 10 * d.own.pairPollInterval then 0 else d.own.pairTicks + 1
          else
            b.own.runtimeTicks ==
              if d.own.runtimeTicks + 1 >= 10 * d.own.runtimePollInterval then 0 else d.own.runtimeTicks + 1)
  {
    hide Inv, Posts;
    forall x: Device ensures Posts(x, env.posts(Submitting)) == x {
      AlonePosts(x, env, Submitting);
    }
  }

  /** However a conversation ends, nothing of it is left in the device. */
  predicate Forgotten(d: Device) {
    && d.own.conversationId == "" && d.own.rtcChannel == "" && d.own.rtcUid == "" && d.own.agentUid == ""
    && !d.own.renewalPending && d.own.renewalDelay == 0 && d.own.renewalLeft == 0
  }

  lemma EndingForgets(d: Device, env: Env)
    ensures Forgotten(CompleteLocally(d, env))
  {
    CompleteOwner(d, env);
    hide CompleteLocally;
  }

  lemma OwnKept(env: Env)
    ensures forall d, p :: Posts(d, env.posts(p)).own == d.own
    ensures forall d, p :: Posts(d, env.posts(p)).shared.state == d.shared.state
    ensures forall d, s :: SetState(d, s, env).own == d.own
    ensures forall d, s :: SetState(d, s, env).shared.state == s
  {
    forall d, p ensures Posts(d, env.posts(p)).own == d.own
      && Posts(d, env.posts(p)).shared.state == d.shared.state {
      PostsOwner(d, env.posts(p));
    }
    forall d, s ensures SetState(d, s, env).own == d.own && SetState(d, s, env).shared.state == s {
      SetStateOwner(d, s, env);
    }
    hide Posts, SetState;
  }

  lemma StopForgets(d: Device, reason: string, env: Env)
    ensures Forgotten(StopConversation(d, reason, env))
  {
    OwnKept(env);
    EndingForgets(d, env);
    hide Posts, SetState, CompleteLocally;
  }

  lemma InvalidForgets(d: Device, env: Env)
    requires d.shared.state.InConversation?
    ensures Forgotten(InvalidateBinding(d, env))
  {
    OwnKept(env);
    EndingForgets(d, env);
    hide Posts, SetState, CompleteLocally;
  }

  lemma CreateForgets(d: Device, env: Env)
    requires Forgotten(d)
    ensures Forgotten(CreatePairCode(d, env))
  {
    OwnKept(env);
    hide Posts, SetState, OutcomeOf, Fitted, ClampPoll, NextDelay;
  }

  lemma PairingForgets(d: Device, env: Env)
    requires d.shared.state.InConversation?
    ensures Forgotten(TickPairing(d, env))
  {
    OwnKept(env);
    var asked := d.(own := d.own.(conversationRequested := false));
    StopForgets(asked, "user_requested", env);
    var stopped := StopConversation(asked, "user_requested", env);
    hide Posts, SetState, StopConversation, CreatePairCode;
    var cleared := Named(ClearAuth(stopped.(own := stopped.own.(pairingRequested := false)), env), "");
    CreateForgets(SetState(cleared, Pairing, env), env);
  }

  lemma RenewalForgets(d: Device, env: Env)
    requires d.shared.state.InConversation? && !RenewToken(d, env).shared.state.InConversation?
    ensures Forgotten(RenewToken(d, env))
  {
    OwnKept(env);
    StopForgets(d, "error", env);
    var called := Posts(Logged(d, Began(RenewCall)), env.posts(DuringCall));
    var outcome := OutcomeOf(called, d.shared.networkGeneration, env.ret);
    var ended := Logged(called, Ended(RenewCall, outcome));
    hide Posts, SetState, StopConversation, InvalidateBinding, OutcomeOf;
    StopForgets(ended, "error", env);
    InvalidForgets(ended, env);
  }

  lemma TalkingTickForgets(d: Device, env: Env)
    requires d.shared.state.InConversation? && !TickInConversation(d, env).shared.state.InConversation?
    ensures Forgotten(TickInConversation(d, env))
  {
    var waited := RenewalWaited(RenewalDueNow(d));
    StopForgets(WithMail(d, NoMail), if d.shared.stopMail == DeviceHangup then "device_hangup" else "error", env);
    PollOwner(RenewalDueNow(d), env);
    PollOwner(waited, env);
    hide StopConversation, TickPoll, RenewToken;
    if !RenewToken(waited, env).shared.state.InConversation? {
      RenewalForgets(waited, env);
    }
  }

  /** Whatever an operation does, when it takes a device out of a conversation nothing of it is left. */
  lemma EndedConversationsAreForgotten(d: Device, op: Op)
    requires Inv(d) && d.shared.state.InConversation? && !Step(d, op).shared.state.InConversation?
    ensures Forgotten(Step(d, op))
  {
    hide Inv, TickPairing, TickInConversation, CompleteLocally, StopConversation, InvalidateBinding, ApplyPair;
    hide Forgotten;
    match op
    case TickOp(env) =>
      EndingForgets(Unrequested(Unnoted(d)), env);
      PairingForgets(d, env);
      if !TickInConversation(d, env).shared.state.InConversation? {
        TalkingTickForgets(d, env);
      }
    case Answered(i, a, env) =>
      if i < |d.inflight| {
        var rest := d.(inflight := Without(d.inflight, i));
        InvalidForgets(rest, env);
        InvalidForgets(WithPoll(rest, false), env);
      }
    case ShutdownOp(env) =>
      var closing := d.(own := d.own.(pairingRequested := false, conversationRequested := false),
                        shared := d.shared.(shuttingDown := true, stopMail := NoMail,
                                            renewalRequested := false));
      EndingForgets(closing, env);
      StopForgets(closing, "device_hangup", env);
    case _ =>
  }
}
