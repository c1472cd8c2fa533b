/** What every run of the device lifecycle keeps. */
module DeviceInvariants {
  import opened DeviceHistory
  import opened DeviceProtocol

  // ---- The invariant ----

  function Doubled(k: nat): nat {
    if k == 0 then 1 else 2 * Doubled(k - 1)
  }

  function Least(a: int, b: int): int {
    if a < b then a else b
  }

  /** The delay after k failures in a row: doubling from initial, up to maximum. */
  function Backoff(k: nat, initial: int, maximum: int): int {
    if k == 0 then 0 else Least(maximum, initial * Doubled(k - 1))
  }

  predicate Poll(r: Request) {
    !r.kind.StopCall?
  }

  predicate OwnCredential(d: Device, r: Request) {
    && r.serverBase == d.own.serverBase
    && r.deviceId == d.own.deviceId
    && r.credential == if r.kind.PairPoll? then d.own.pairToken else d.own.deviceToken
  }

  /** A request made under the current binding carries the current credential. */
  predicate RequestsOk(d: Device) {
    forall i :: 0 <= i < |d.inflight| ==>
      && d.inflight[i].bindingGeneration <= d.own.bindingGeneration
      && d.inflight[i].networkGeneration <= d.shared.networkGeneration
      && (d.inflight[i].bindingGeneration == d.own.bindingGeneration ==> OwnCredential(d, d.inflight[i]))
  }

  /** At most one poll is with the worker, and then the device knows. */
  predicate PollsOk(d: Device) {
    && (forall i, j :: 0 <= i < j < |d.inflight| ==> !Poll(d.inflight[i]) || !Poll(d.inflight[j]))
    && (forall i :: 0 <= i < |d.inflight| && Poll(d.inflight[i]) ==> d.own.pollPending)
  }

  predicate RetryOk(d: Device) {
    && 0 <= d.own.pairRetryLeft <= d.own.pairRetryDelay
    && d.own.pairRetryDelay == Backoff(FailuresOf(d.log), PAIR_RETRY_INITIAL, PAIR_RETRY_MAX)
  }

  predicate ConfigOk(d: Device) {
    0 < |d.own.serverBase| < MAX_URL && 0 < |d.own.deviceId| < MAX_ID && |d.own.deviceToken| < MAX_TOKEN
  }

  predicate PollSeconds(interval: int) {
    POLL_MIN_SECONDS <= interval <= POLL_MAX_SECONDS
  }

  /** Intervals once set are in range, counters only count up, and renewal waits are bounded. */
  predicate TimersOk(o: Owned) {
    && (o.pairPollInterval == 0 || PollSeconds(o.pairPollInterval))
    && (o.runtimePollInterval == 0 || PollSeconds(o.runtimePollInterval))
    && 0 <= o.pairTicks
    && 0 <= o.runtimeTicks
    && 0 <= o.renewalLeft <= o.renewalDelay <= TOKEN_RETRY_MAX
  }

  predicate Books(d: Device) {
    RequestsOk(d) && PollsOk(d) && RetryOk(d) && ConfigOk(d) && TimersOk(d.own)
  }

  /** Whoever polls has its interval. */
  predicate Polled(d: Device) {
    && (d.shared.state.AwaitingClaim? ==> PollSeconds(d.own.pairPollInterval))
    && (Claimable(d.shared.state) ==> PollSeconds(d.own.runtimePollInterval))
  }

  predicate LinkOk(d: Device) {
    var l := LinkOf(d.log);
    && l.up == d.shared.networkAvailable
    && l.progress != BadCall
    && (l.progress.Calling? && l.progress.steady ==> l.up)
  }

  predicate Quiet(d: Device) {
    LinkOk(d) && !LinkOf(d.log).progress.Calling?
  }

  predicate Resting(p: Phase) {
    p.Idle? || p.Hung?
  }

  predicate Claimable(s: State) {
    s.Runtime? || s.InConversation?
  }

  /** The stored credential is the one in use. */
  predicate Saves(d: Device) {
    && d.own.deviceToken != ""
    && Restorable(d.store, d.own.serverBase, d.own.deviceId)
    && d.store.record.deviceToken == d.own.deviceToken
  }

  predicate PhaseOk(d: Device) {
    if d.shared.state.InConversation? then
      d.own.conversationId != "" && PhaseOf(d.log) == Talking(d.own.conversationId, d.own.deviceToken)
    else Resting(PhaseOf(d.log)) && !d.own.renewalPending
  }

  /** An unprovisioned device is going to ask for a pair code. */
  predicate Lively(d: Device) {
    && d.shared.state != Pairing
    && (d.shared.state.Unprovisioned? && !d.shared.shuttingDown ==>
          d.own.pairingRequested || d.own.pairRetryLeft > 0)
  }

  predicate LossNoted(d: Device) {
    d.shared.state.InConversation? ==>
      !d.shared.shuttingDown && (!d.shared.networkAvailable ==> d.shared.lossPending)
  }

  predicate Core(d: Device) {
    && Books(d)
    && LinkOk(d)
    && PhaseOk(d)
    && (Claimable(d.shared.state) ==> Saves(d))
    && Lively(d)
    && LossNoted(d)
    && Polled(d)
  }

  /** Holds between any two operations. */
  predicate Inv(d: Device) {
    Core(d) && Quiet(d)
  }

  // ---- Other threads ----

  /** The network has moved on as it may, and nothing else but mail and state has changed. */
  predicate Later(a: Shared, b: Shared) {
    && a.shuttingDown == b.shuttingDown
    && a.networkGeneration <= b.networkGeneration
    && (a.lossPending ==> b.lossPending)
    && (a.networkGeneration < b.networkGeneration ==> b.lossPending)
    && (a.networkGeneration == b.networkGeneration ==>
          b.lossPending == a.lossPending && (a.networkAvailable ==> b.networkAvailable))
  }

  /** Nothing the control owner keeps has changed. */
  predicate Apart(a: Device, b: Device) {
    && b.own == a.own
    && b.store == a.store
    && b.inflight == a.inflight
    && Later(a.shared, b.shared)
    && FailuresOf(a.log) == FailuresOf(b.log)
  }

  function Through(p: Progress, still: bool): Progress {
    if p.Calling? then Calling(p.call, p.steady && still) else p
  }

  /** What posts alone can do. */
  predicate Drift(a: Device, b: Device) {
    && Apart(a, b)
    && b.shared.state == a.shared.state
    && PhaseOf(a.log) == PhaseOf(b.log)
    && (a.shared.shuttingDown || !a.shared.state.InConversation? ==>
          && b.shared.stopMail == a.shared.stopMail
          && b.shared.renewalRequested == a.shared.renewalRequested)
    && (LinkOk(a) ==>
          && LinkOk(b)
          && LinkOf(b.log).progress ==
               Through(LinkOf(a.log).progress, a.shared.networkGeneration == b.shared.networkGeneration))
  }

  lemma LoggedFacts(d: Device, e: Entry)
    ensures PhaseOf(Logged(d, e).log) == NextPhase(PhaseOf(d.log), e)
    ensures LinkOf(Logged(d, e).log) == NextLink(LinkOf(d.log), e)
    ensures FailuresOf(Logged(d, e).log) == NextFailures(FailuresOf(d.log), e)
  {
    PhaseOfSnoc(d.log, e);
    LinkOfSnoc(d.log, e);
    FailuresOfSnoc(d.log, e);
  }

  lemma PostDrifts(d: Device, e: Event)
    ensures Drift(d, Post(d, e))
  {
    LoggedFacts(d, Network(true));
    LoggedFacts(d, Network(false));
    hide PhaseOf, LinkOf, FailuresOf;
  }

  lemma DriftTransitive(a: Device, b: Device, c: Device)
    requires Drift(a, b) && Drift(b, c)
    ensures Drift(a, c)
  {
    hide PhaseOf, LinkOf, FailuresOf;
  }

  lemma {:induction false} PostsDrift(d: Device, es: seq<Event>)
    ensures Drift(d, Posts(d, es))
    decreases |es|
  {
    if es != [] {
      PostsDrift(d, es[..|es| - 1]);
      PostDrifts(Posts(d, es[..|es| - 1]), es[|es| - 1]);
      hide Drift, Post;
      DriftTransitive(d, Posts(d, es[..|es| - 1]), Posts(d, es));
    }
    hide Post, PhaseOf, LinkOf, FailuresOf;
  }

  lemma BooksApart(a: Device, b: Device)
    requires Books(a) && Apart(a, b)
    ensures Books(b)
  {
    hide FailuresOf, Backoff;
  }

  // ---- State changes ----

  lemma SetStateFacts(d: Device, s: State, env: Env)
    requires Quiet(d) && Resting(PhaseOf(d.log))
    requires s.InConversation? ==>
      !d.shared.state.InConversation? && d.shared.stopMail == NoMail &&
      !d.shared.renewalRequested && !d.own.renewalPending
    ensures var b := SetState(d, s, env);
      && Apart(d, b)
      && b.shared.state == s
      && Quiet(b)
      && LinkOf(b.log).progress == LinkOf(d.log).progress
      && PhaseOf(b.log) == (if s.InConversation? then Entering else PhaseOf(d.log))
  {
    hide PhaseOf, LinkOf, FailuresOf, Posts;
    if d.shared.state != s {
      var left :=
        if d.shared.state.InConversation? then Posts(WithMail(d, NoMail), env.posts(Leaving)) else d;
      PostsDrift(WithMail(d, NoMail), env.posts(Leaving));
      var e := Published(s, left.shared.stopMail, left.shared.renewalRequested, left.own.renewalPending);
      var moved := left.(shared := left.shared.(state := s));
      LoggedFacts(moved, e);
      PostsDrift(Logged(moved, e), env.posts(Entered(s)));
    }
  }

  lemma CoreDrift(a: Device, b: Device)
    requires Core(a) && Drift(a, b)
    ensures Core(b)
    ensures Quiet(a) ==> Inv(b)
  {
    BooksApart(a, b);
    hide Books, PhaseOf, LinkOf, FailuresOf;
  }

  lemma LaterTransitive(a: Shared, b: Shared, c: Shared)
    requires Later(a, b) && Later(b, c)
    ensures Later(a, c)
  {
  }

  // ---- Credentials ----

  /** Moving to a fresh binding generation frees the credentials of every request in flight. */
  lemma Rebound(a: Device, b: Device)
    requires RequestsOk(a) && b.inflight == a.inflight
    requires b.own.bindingGeneration > a.own.bindingGeneration
    requires b.shared.networkGeneration >= a.shared.networkGeneration
    ensures RequestsOk(b)
  {
  }

  lemma RestartPairingKeeps(d: Device, env: Env)
    requires Books(d) && Quiet(d) && Resting(PhaseOf(d.log)) && !d.own.renewalPending
    ensures Inv(RestartPairing(d, env))
  {
    var cleared := ClearAuth(d, env);
    Rebound(d, cleared);
    SetStateFacts(cleared, Unprovisioned, env);
    hide PhaseOf, LinkOf, FailuresOf, SetState, RequestsOk, Backoff;
    assert Books(cleared);
    BooksApart(cleared, SetState(cleared, Unprovisioned, env));
    BooksAsked(SetState(cleared, Unprovisioned, env));
  }

  lemma BooksAsked(d: Device)
    requires Books(d)
    ensures Books(AskedToPair(d))
  {
    hide FailuresOf, Backoff;
  }

  lemma AwaitNetworkKeeps(d: Device, env: Env)
    requires Books(d) && Quiet(d) && Resting(PhaseOf(d.log)) && !d.own.renewalPending
    ensures Inv(AwaitNetwork(d, env))
  {
    SetStateFacts(d, Unprovisioned, env);
    hide PhaseOf, LinkOf, FailuresOf, SetState;
    BooksApart(d, SetState(d, Unprovisioned, env));
    BooksAsked(SetState(d, Unprovisioned, env));
    hide Books;
  }

  // ---- Retry delays ----

  lemma DoubledPositive(k: nat)
    ensures Doubled(k) >= 1
  {
  }

  /** Each failure doubles the delay, up to the maximum. */
  lemma BackoffNext(k: nat, initial: int, maximum: int)
    requires 0 < initial <= maximum && maximum % 2 == 0
    ensures NextDelay(Backoff(k, initial, maximum), initial, maximum) == Backoff(k + 1, initial, maximum)
    ensures 0 < Backoff(k + 1, initial, maximum) <= maximum
  {
    DoubledPositive(k);
    assert initial * Doubled(k) >= initial;
    if k > 0 {
      DoubledPositive(k - 1);
      assert initial * Doubled(k - 1) >= initial;
      assert initial * Doubled(k) == 2 * (initial * Doubled(k - 1));
    }
  }

  lemma NextDelayBounds(current: int, initial: int, maximum: int)
    requires 0 <= current <= maximum && 0 < initial <= maximum
    ensures 0 < NextDelay(current, initial, maximum) <= maximum
  {
  }

  // ---- Pair codes ----

  predicate ReadyToPair(d: Device) {
    && Resting(PhaseOf(d.log))
    && !d.own.renewalPending
    && !d.shared.shuttingDown
  }

  lemma CreatePairCodeKeeps(d: Device, env: Env)
    requires Books(d) && Quiet(d) && ReadyToPair(d) && !d.shared.state.InConversation?
    ensures Inv(CreatePairCode(d, env))
  {
    var ready := Posts(d, env.posts(GenerationRead));
    PostsDrift(d, env.posts(GenerationRead));
    BooksApart(d, ready);
    hide Books, PhaseOf, LinkOf, FailuresOf, Posts, AwaitNetwork, PairCodeAnswered;
    if !ready.shared.networkAvailable {
      AwaitNetworkKeeps(ready, env);
    } else {
      var begun := Logged(ready, Began(PairCodeCall));
      LoggedFacts(ready, Began(PairCodeCall));
      var called := Posts(begun, env.posts(DuringCall));
      PostsDrift(begun, env.posts(DuringCall));
      var outcome := OutcomeOf(called, d.shared.networkGeneration, env.ret);
      LoggedFacts(called, Ended(PairCodeCall, outcome));
      BooksLogged(ready, Began(PairCodeCall));
      BooksApart(begun, called);
      PairCodeAnsweredKeeps(called, outcome, env);
    }
  }

  lemma BooksLogged(d: Device, e: Entry)
    requires Books(d) && FailuresOf(Logged(d, e).log) == FailuresOf(d.log)
    ensures Books(Logged(d, e))
  {
    hide FailuresOf, Backoff;
  }

  lemma PairCodeAnsweredKeeps(d: Device, outcome: Outcome, env: Env)
    requires Books(d) && ReadyToPair(d) && !d.shared.state.InConversation?
    requires var e := Logged(d, Ended(PairCodeCall, outcome));
      && Quiet(e)
      && PhaseOf(e.log) == PhaseOf(d.log)
      && FailuresOf(e.log) == NextFailures(FailuresOf(d.log), Ended(PairCodeCall, outcome))
      && (outcome.Accepted? ==> LinkOf(e.log).progress == Granted(PairCodeCall))
    ensures Inv(PairCodeAnswered(Logged(d, Ended(PairCodeCall, outcome)), outcome, env))
  {
    var e := Logged(d, Ended(PairCodeCall, outcome));
    hide PhaseOf, LinkOf, FailuresOf;
    match outcome
    case Stale =>
      BooksLogged(d, Ended(PairCodeCall, outcome));
      AwaitNetworkKeeps(e, env);
    case Failed =>
      BackoffNext(FailuresOf(d.log), PAIR_RETRY_INITIAL, PAIR_RETRY_MAX);
      var delay := NextDelay(e.own.pairRetryDelay, PAIR_RETRY_INITIAL, PAIR_RETRY_MAX);
      var waiting := e.(own := e.own.(pairRetryDelay := delay, pairRetryLeft := delay));
      hide Backoff, SetState;
      assert Books(waiting);
      SetStateFacts(waiting, Unprovisioned, env);
      BooksApart(waiting, SetState(waiting, Unprovisioned, env));
      hide Books;
    case Accepted =>
      AcceptedKeeps(e, env);
  }

  lemma AcceptedKeeps(d: Device, env: Env)
    requires RequestsOk(d) && PollsOk(d) && ConfigOk(d) && Quiet(d) && ReadyToPair(d)
    requires !d.shared.state.InConversation?
    requires FailuresOf(d.log) == 0 && LinkOf(d.log).progress == Granted(PairCodeCall)
    requires TimersOk(d.own)
    ensures Inv(PairCodeAnswered(d, Accepted, env))
  {
    var bound := d.(own := d.own.(
      pairRetryDelay := 0,
      pairRetryLeft := 0,
      bindingGeneration := d.own.bindingGeneration + 1,
      pairToken := Fitted(env.pairCode.pairToken, MAX_TOKEN),
      pairPollInterval := ClampPoll(env.pairCode.pollAfter),
      pairTicks := 0,
      deviceToken := ""));
    hide PhaseOf, LinkOf, FailuresOf, SetState, Posts, RequestsOk;
    Rebound(d, bound);
    assert Books(bound);
    hide Books;
    ShownKeeps(bound, PairCodeShown(env.pairCode.code), env);
  }

  lemma ShownKeeps(d: Device, e: Entry, env: Env)
    requires Books(d) && Quiet(d) && ReadyToPair(d) && !d.shared.state.InConversation?
    requires PollSeconds(d.own.pairPollInterval)
    requires e.PairCodeShown? && LinkOf(d.log).progress == Granted(PairCodeCall)
    ensures Inv(SetState(Posts(Logged(d, e), env.posts(ShowingCode)), AwaitingClaim, env))
  {
    hide PhaseOf, LinkOf, FailuresOf, SetState, Posts, Books;
    LoggedFacts(d, e);
    BooksLogged(d, e);
    var shown := Posts(Logged(d, e), env.posts(ShowingCode));
    PostsDrift(Logged(d, e), env.posts(ShowingCode));
    BooksApart(Logged(d, e), shown);
    SetStateFacts(shown, AwaitingClaim, env);
    BooksApart(shown, SetState(shown, AwaitingClaim, env));
  }

  // ---- Conversations ----

  /** A conversation to end: the invariant, but for a network loss being consumed
      or a shutdown under way. */
  predicate Ending(d: Device) {
    && Books(d)
    && Quiet(d)
    && PhaseOk(d)
    && Saves(d)
    && Polled(d)
    && d.shared.state.InConversation?
  }

  lemma CompleteLocallyFacts(d: Device, env: Env)
    requires Ending(d)
    ensures var b := CompleteLocally(d, env);
      && Inv(b)
      && Apart(Named(ClearRenewal(d), ""), b)
      && b.shared.state == Runtime
      && PhaseOf(b.log) == Hung(d.own.conversationId, d.own.deviceToken)
  {
    var clear := Named(ClearRenewal(d), "");
    hide PhaseOf, LinkOf, FailuresOf, SetState, Posts, Restorable;
    assert Books(clear) by { hide Backoff; }
    LoggedFacts(clear, Stopped);
    BooksLogged(clear, Stopped);
    var ended := Logged(clear, Stopped);
    var torn := Posts(ended, env.posts(Stopping));
    PostsDrift(ended, env.posts(Stopping));
    BooksApart(ended, torn);
    hide Books;
    SetStateFacts(torn, Runtime, env);
    BooksApart(torn, SetState(torn, Runtime, env));
    LaterTransitive(ended.shared, torn.shared, CompleteLocally(d, env).shared);
    hide Later;
  }

  /** The worker takes one more request of the current binding. */
  lemma SubmitKeeps(d: Device, r: Request, env: Env)
    requires Inv(d)
    requires r == Snapshot(d, r.kind)
    requires if Poll(r) then d.own.pollPending && forall i :: 0 <= i < |d.inflight| ==> !Poll(d.inflight[i])
             else PhaseOf(d.log) == Hung(r.kind.conversation, r.credential)
    ensures var b := Submit(d, r, env);
      Inv(b) && Later(d.shared, b.shared) && b.own == d.own && b.store == d.store &&
      b.shared.state == d.shared.state &&
      b.inflight == (if env.submitted then d.inflight + [r] else d.inflight)
  {
    hide PhaseOf, LinkOf, FailuresOf, Posts, Restorable;
    var more := if env.submitted then d.(inflight := d.inflight + [r]) else d;
    var queued := if env.submitted then Logged(more, Submitted(r)) else d;
    assert Books(more) by { hide Backoff; }
    LoggedFacts(more, Submitted(r));
    if env.submitted {
      BooksLogged(more, Submitted(r));
    }
    hide Books;
    assert Core(queued);
    PostsDrift(queued, env.posts(Submitting));
    CoreDrift(queued, Posts(queued, env.posts(Submitting)));
  }

  lemma StopConversationFacts(d: Device, reason: string, env: Env)
    requires Ending(d)
    ensures var b := StopConversation(d, reason, env);
      && Inv(b)
      && b.own == Named(ClearRenewal(d), "").own
      && b.store == d.store
      && Later(d.shared, b.shared)
      && b.shared.state == Runtime
      && (b.inflight == d.inflight ||
          b.inflight == d.inflight + [
            Snapshot(b, StopCall(d.own.conversationId, reason)).(networkGeneration := d.shared.networkGeneration)])
  {
    CompleteLocallyFacts(d, env);
    var done := CompleteLocally(d, env);
    hide Inv, Ending, CompleteLocally, Submit;
    if d.own.conversationId != "" && Current(done, d.shared.networkGeneration) && env.memory {
      SubmitKeeps(done, Snapshot(done, StopCall(d.own.conversationId, reason)), env);
      LaterTransitive(d.shared, done.shared, StopConversation(d, reason, env).shared);
    }
  }

  lemma InvalidateKeeps(d: Device, env: Env)
    requires Inv(d)
    ensures Inv(InvalidateBinding(d, env))
  {
    if d.shared.state.InConversation? {
      CompleteLocallyFacts(d, env);
      RestartPairingKeeps(CompleteLocally(d, env), env);
    } else {
      RestartPairingKeeps(d, env);
    }
  }

  /** An HTTP call of the control owner, begun online. */
  lemma CallFacts(d: Device, c: Call, es: seq<Event>, generation: nat, ret: int)
    requires Inv(d) && d.shared.networkAvailable && generation <= d.shared.networkGeneration
    ensures var called := Posts(Logged(d, Began(c)), es);
      var outcome := OutcomeOf(called, generation, ret);
      var b := Logged(called, Ended(c, outcome));
      && FailuresOf(b.log) == NextFailures(FailuresOf(d.log), Ended(c, outcome))
      && (!c.PairCodeCall? ==> Inv(b))
      && Apart(d, called)
      && b.shared.state == d.shared.state
      && (!d.shared.state.InConversation? ==> b.shared.stopMail == d.shared.stopMail)
      && (outcome.Accepted? ==> LinkOf(b.log).progress == Granted(c) && b.shared.networkAvailable && ret == 0)
  {
    hide PhaseOf, LinkOf, FailuresOf, Posts, Books, PhaseOk, Lively, LossNoted, Saves;
    var begun := Logged(d, Began(c));
    LoggedFacts(d, Began(c));
    var called := Posts(begun, es);
    PostsDrift(begun, es);
    var outcome := OutcomeOf(called, generation, ret);
    LoggedFacts(called, Ended(c, outcome));
    CallCore(d, begun, called, c, outcome);
    hide Core;
  }

  lemma CallCore(d: Device, begun: Device, called: Device, c: Call, outcome: Outcome)
    requires Core(d) && begun == Logged(d, Began(c)) && LinkOk(begun) && Drift(begun, called)
    requires LinkOk(Logged(called, Ended(c, outcome)))
    ensures !c.PairCodeCall? ==> Core(Logged(called, Ended(c, outcome)))
  {
    LoggedFacts(d, Began(c));
    LoggedFacts(called, Ended(c, outcome));
    hide Core, LinkOk, Drift, PhaseOf, LinkOf, FailuresOf;
    CoreLogged(d, Began(c));
    CoreDrift(begun, called);
    if !c.PairCodeCall? {
      CoreLogged(called, Ended(c, outcome));
    }
  }

  lemma StartConversationKeeps(d: Device, env: Env)
    requires Inv(d) && d.shared.state.Runtime? && d.shared.stopMail == NoMail && !d.shared.shuttingDown
    ensures Inv(StartConversation(d, env))
  {
    if env.memory {
      var ready := Posts(d, env.posts(GenerationRead));
      PostsDrift(d, env.posts(GenerationRead));
      CoreDrift(d, ready);
      hide Core, Quiet, PhaseOf, LinkOf, FailuresOf, Posts, StartAnswered;
      if ready.shared.networkAvailable {
        CallFacts(ready, StartCall, env.posts(DuringCall), d.shared.networkGeneration, env.ret);
        var called := Posts(Logged(ready, Began(StartCall)), env.posts(DuringCall));
        var outcome := OutcomeOf(called, d.shared.networkGeneration, env.ret);
        StartAnsweredKeeps(Logged(called, Ended(StartCall, outcome)), outcome, env);
      }
    }
  }

  /** Calls of the control owner, beginning and ending, leave the rest of the invariant alone. */
  lemma CoreLogged(d: Device, e: Entry)
    requires Core(d) && LinkOk(Logged(d, e))
    requires PhaseOf(Logged(d, e).log) == PhaseOf(d.log) && FailuresOf(Logged(d, e).log) == FailuresOf(d.log)
    ensures Core(Logged(d, e))
  {
    BooksLogged(d, e);
    hide Books, PhaseOf, LinkOf, FailuresOf, Saves;
  }

  lemma StartAnsweredKeeps(d: Device, outcome: Outcome, env: Env)
    requires Inv(d) && d.shared.state.Runtime? && d.shared.stopMail == NoMail && !d.shared.shuttingDown
    requires outcome.Accepted? ==>
      d.shared.networkAvailable && LinkOf(d.log).progress == Granted(StartCall) && env.ret == 0
    ensures Inv(StartAnswered(d, outcome, env))
  {
    var id := env.conversation.id;
    hide PhaseOf, LinkOf, FailuresOf, Posts, SetState;
    if outcome.Stale? {
    } else if AuthRejected(env.ret) {
      RestartPairingKeeps(d, env);
    } else if outcome.Accepted? && 0 < |id| < MAX_ID {
      hide Restorable;
      var clear := ClearRenewal(Named(d, id));
      var named := clear.(own := clear.own.(
        rtcChannel := Fitted(env.conversation.channel, MAX_CHANNEL),
        rtcUid := Fitted(env.conversation.uid, MAX_UID),
        agentUid := Fitted(env.conversation.agentUid, MAX_UID)));
      assert Books(named) by { hide Backoff; }
      SetStateFacts(named, InConversation, env);
      var entered := SetState(named, InConversation, env);
      BooksApart(named, entered);
      hide Books;
      var e := Started(id, d.own.deviceToken);
      LoggedFacts(entered, e);
      BooksLogged(entered, e);
      var started := Logged(entered, e);
      assert Core(started);
      PostsDrift(started, env.posts(Starting));
      CoreDrift(started, Posts(started, env.posts(Starting)));
    }
  }

  lemma RenewTokenKeeps(d: Device, env: Env)
    requires Inv(d) && d.shared.state.InConversation? && d.shared.networkAvailable
    ensures Inv(RenewToken(d, env))
  {
    if d.own.rtcChannel == "" || d.own.rtcUid == "" {
      StopConversationFacts(d, "error", env);
    } else {
      CallFacts(d, RenewCall, env.posts(DuringCall), d.shared.networkGeneration, env.ret);
      var called := Posts(Logged(d, Began(RenewCall)), env.posts(DuringCall));
      var outcome := OutcomeOf(called, d.shared.networkGeneration, env.ret);
      hide Inv, PhaseOf, LinkOf, FailuresOf, Posts, RenewAnswered, Later;
      RenewAnsweredKeeps(Logged(called, Ended(RenewCall, outcome)), outcome, env);
    }
  }

  lemma RenewAnsweredKeeps(d: Device, outcome: Outcome, env: Env)
    requires Inv(d) && d.shared.state.InConversation?
    requires outcome.Accepted? ==> LinkOf(d.log).progress == Granted(RenewCall)
    ensures Inv(RenewAnswered(d, outcome, env))
  {
    hide InvalidateBinding, StopConversation, ScheduleRenewal, Posts, PhaseOf, LinkOf, FailuresOf;
    InvalidateKeeps(d, env);
    EndingOk(d);
    hide Inv, Ending;
    StopConversationFacts(d, "error", env);
    ScheduleKeeps(d);
    if outcome.Accepted? {
      RenewedKeeps(d, env);
    }
  }

  lemma EndingOk(d: Device)
    requires Inv(d) && d.shared.state.InConversation?
    ensures Ending(d)
  {
  }

  lemma RenewedKeeps(d: Device, env: Env)
    requires Inv(d) && d.shared.state.InConversation? && LinkOf(d.log).progress == Granted(RenewCall)
    ensures var heard := Posts(Logged(d, TokenRenewed), env.posts(Renewing));
      && Inv(ScheduleRenewal(heard))
      && Inv(heard.(own := heard.own.(renewalPending := false, renewalDelay := 0, renewalLeft := 0)))
  {
    hide Core, PhaseOf, LinkOf, FailuresOf, Posts;
    var told := Logged(d, TokenRenewed);
    LoggedFacts(d, TokenRenewed);
    CoreLogged(d, TokenRenewed);
    var heard := Posts(told, env.posts(Renewing));
    PostsDrift(told, env.posts(Renewing));
    CoreDrift(told, heard);
    hide Quiet, LinkOk, Drift;
    TimersKnown(heard);
    ScheduleKeeps(heard);
    RenewalFieldsKeep(heard, heard.(own := heard.own.(renewalPending := false, renewalDelay := 0,
                                                      renewalLeft := 0)));
  }

  lemma ScheduleKeeps(d: Device)
    requires Inv(d) && d.shared.state.InConversation?
    ensures Inv(ScheduleRenewal(d))
  {
    TimersKnown(d);
    NextDelayBounds(d.own.renewalDelay, TOKEN_RETRY_INITIAL, TOKEN_RETRY_MAX);
    hide Inv;
    RenewalFieldsKeep(d, ScheduleRenewal(d));
  }

  lemma TimersKnown(d: Device)
    requires Inv(d)
    ensures TimersOk(d.own)
  {
    hide RequestsOk, PollsOk, RetryOk, Quiet, PhaseOk, Saves;
  }

  /** Renewal timing is free within its bounds while talking. */
  lemma RenewalFieldsKeep(d: Device, b: Device)
    requires Inv(d) && d.shared.state.InConversation?
    requires b == d.(own := d.own.(renewalPending := b.own.renewalPending, renewalDelay := b.own.renewalDelay,
                                   renewalLeft := b.own.renewalLeft),
                     shared := d.shared.(renewalRequested := b.shared.renewalRequested))
    requires TimersOk(b.own)
    ensures Inv(b)
  {
    hide PhaseOf, LinkOf, FailuresOf, Backoff, Restorable;
  }

  // ---- Answers ----

  lemma PollBindingKeeps(d: Device, kind: Kind, env: Env)
    requires Inv(d) && !kind.StopCall?
    ensures Inv(PollBinding(d, kind, env))
  {
    if !d.own.pollPending && env.memory {
      var asking := WithPoll(d, true);
      PollFieldKeeps(d, true);
      assert forall i :: 0 <= i < |d.inflight| ==> !Poll(d.inflight[i]);
      hide Inv, Submit;
      SubmitKeeps(asking, Snapshot(asking, kind), env);
      assert Snapshot(d, kind) == Snapshot(asking, kind);
      if !env.submitted {
        PollFieldKeeps(Submit(asking, Snapshot(d, kind), env), false);
      }
    }
  }

  lemma PollFieldKeeps(d: Device, pending: bool)
    requires Inv(d)
    requires !pending ==> forall i :: 0 <= i < |d.inflight| ==> !Poll(d.inflight[i])
    ensures Inv(WithPoll(d, pending))
  {
    hide PhaseOf, LinkOf, FailuresOf, Backoff, Restorable;
  }

  lemma ClaimedKeeps(d: Device, a: Answer, env: Env)
    requires Inv(d) && d.shared.state.AwaitingClaim? && !d.shared.shuttingDown
    ensures Inv(Claimed(d, a, env))
  {
    var named :=
      if a.deviceToken == "" then d
      else d.(own := d.own.(bindingGeneration := d.own.bindingGeneration + 1,
                            deviceToken := Fitted(a.deviceToken, MAX_TOKEN)));
    hide PhaseOf, LinkOf, FailuresOf, SetState, Restorable;
    if a.deviceToken != "" {
      Rebound(d, named);
    }
    assert Books(named) by { hide RequestsOk, Backoff; }
    hide Books;
    if named.own.deviceToken != "" {
      PersistKeeps(named, env);
      if env.storeOk {
        hide Quiet, PersistAuth;
        SavedEnters(PersistAuth(named, env), a.pollAfter, env);
      }
    }
  }

  lemma SavedEnters(d: Device, pollAfter: int, env: Env)
    requires Books(d) && Quiet(d) && Resting(PhaseOf(d.log)) && !d.own.renewalPending && Saves(d)
    ensures var b := SetState(d, Runtime, env);
      Inv(b.(own := b.own.(runtimePollInterval := ClampPoll(pollAfter), runtimeTicks := 0)))
  {
    assert TimersOk(d.own);
    hide PhaseOf, LinkOf, FailuresOf, SetState, Restorable, Books;
    SetStateFacts(d, Runtime, env);
    var b := SetState(d, Runtime, env);
    BooksApart(d, b);
    BooksPolls(b, ClampPoll(pollAfter), 0, b.own.pairPollInterval, b.own.pairTicks);
  }

  lemma PersistKeeps(d: Device, env: Env)
    requires Books(d) && d.own.deviceToken != ""
    ensures Books(PersistAuth(d, env))
    ensures env.storeOk ==> Saves(PersistAuth(d, env))
  {
    hide FailuresOf, Backoff;
  }

  /** Poll timing has no part in the books. */
  lemma BooksPolls(d: Device, runtimeInterval: int, runtimeTicks: int, pairInterval: int, pairTicks: int)
    requires Books(d) && 0 <= runtimeTicks && 0 <= pairTicks
    requires runtimeInterval == d.own.runtimePollInterval || PollSeconds(runtimeInterval)
    requires pairInterval == d.own.pairPollInterval || PollSeconds(pairInterval)
    ensures Books(d.(own := d.own.(runtimePollInterval := runtimeInterval, runtimeTicks := runtimeTicks,
                                   pairPollInterval := pairInterval, pairTicks := pairTicks)))
  {
    hide FailuresOf, Backoff;
  }

  lemma PollTimesKeep(d: Device, runtimeInterval: int, runtimeTicks: int, pairInterval: int, pairTicks: int)
    requires Inv(d) && 0 <= runtimeTicks && 0 <= pairTicks
    requires runtimeInterval == d.own.runtimePollInterval || PollSeconds(runtimeInterval)
    requires pairInterval == d.own.pairPollInterval || PollSeconds(pairInterval)
    ensures Inv(d.(own := d.own.(runtimePollInterval := runtimeInterval, runtimeTicks := runtimeTicks,
                                 pairPollInterval := pairInterval, pairTicks := pairTicks)))
  {
    BooksPolls(d, runtimeInterval, runtimeTicks, pairInterval, pairTicks);
    hide Books, PhaseOf, LinkOf, FailuresOf, Restorable;
  }

  lemma AskedKeeps(d: Device)
    requires Inv(d)
    ensures Inv(AskedToPair(d))
  {
    BooksAsked(d);
    hide Books, PhaseOf, LinkOf, FailuresOf, Restorable;
  }

  lemma ApplyPairKeeps(d: Device, a: Answer, env: Env)
    requires Inv(d) && d.shared.state.AwaitingClaim? && !d.shared.shuttingDown
    ensures Inv(ApplyPair(d, a, env))
  {
    AskedKeeps(d);
    TimersKnown(d);
    PollTimesKeep(d, d.own.runtimePollInterval, d.own.runtimeTicks, ClampPoll(a.pollAfter), d.own.pairTicks);
    ClaimedKeeps(d, a, env);
    AwaitNetworkKeeps(d, env);
    hide Inv, Claimed, AwaitNetwork;
  }

  lemma ServiceResultKeeps(d: Device, r: Request, a: Answer, env: Env)
    requires Inv(d)
    requires Poll(r) ==> forall i :: 0 <= i < |d.inflight| ==> !Poll(d.inflight[i])
    ensures Inv(ServiceResult(d, r, a, env))
  {
    var back := if r.kind.StopCall? then d else WithPoll(d, false);
    if Poll(r) {
      PollFieldKeeps(d, false);
    }
    if !Discarded(back, r) {
      if r.kind.PairPoll? && back.shared.state.AwaitingClaim? {
        ApplyPairKeeps(back, a, env);
      } else {
        InvalidateKeeps(back, env);
        TimersKnown(back);
        PollTimesKeep(back, ClampPoll(a.pollAfter), back.own.runtimeTicks,
                      back.own.pairPollInterval, back.own.pairTicks);
      }
    }
    hide Inv, InvalidateBinding, ApplyPair, WithPoll;
  }

  // ---- Operations ----

  lemma TickKeeps(d: Device, env: Env)
    requires Inv(d)
    ensures Inv(Tick(d, env))
  {
    if d.shared.shuttingDown {
    } else if d.shared.lossPending {
      ConsumeLossKeeps(d, env);
    } else if !d.shared.networkAvailable {
      UnrequestedKeeps(d);
    } else if d.own.pairingRequested {
      TickPairingKeeps(d, env);
    } else {
      match d.shared.state
      case Unprovisioned => TickUnprovisionedKeeps(d, env);
      case Pairing =>
      case AwaitingClaim =>
        var o := d.own;
        TimersKnown(d);
        PollTimesKeep(d, o.runtimePollInterval, o.runtimeTicks, o.pairPollInterval, o.pairTicks + 1);
        PollTimesKeep(d, o.runtimePollInterval, o.runtimeTicks, o.pairPollInterval, 0);
        PollBindingKeeps(d.(own := o.(pairTicks := 0)), PairPoll, env);
      case Runtime =>
        UnrequestedKeeps(d);
        if d.own.conversationRequested {
          StartConversationKeeps(Unrequested(d), env);
        }
        TickPollKeeps(d, env);
      case InConversation => TickInConversationKeeps(d, env);
    }
    hide Inv, ConsumeLoss, Unrequested, TickPairing, TickUnprovisioned, TickPoll, TickInConversation;
    hide PollBinding, StartConversation;
  }

  lemma UnrequestedKeeps(d: Device)
    requires Inv(d)
    ensures Inv(Unrequested(d)) && Unrequested(d).shared == d.shared.(stopMail := NoMail)
  {
    hide PhaseOf, LinkOf, FailuresOf, Backoff, Restorable;
  }

  lemma ConsumeLossKeeps(d: Device, env: Env)
    requires Inv(d)
    ensures Inv(ConsumeLoss(d, env)) && !ConsumeLoss(d, env).shared.state.InConversation?
  {
    var seen := Unrequested(d.(shared := d.shared.(lossPending := false)));
    hide PhaseOf, LinkOf, FailuresOf, CompleteLocally, Restorable;
    assert Books(seen) by { hide Backoff; }
    hide Books;
    if d.shared.state.InConversation? {
      CompleteLocallyFacts(seen, env);
    }
  }

  lemma TickPairingKeeps(d: Device, env: Env)
    requires Inv(d) && !d.shared.shuttingDown
    ensures Inv(TickPairing(d, env))
  {
    var asked := d.(own := d.own.(conversationRequested := false));
    var stopped :=
      if d.shared.state.InConversation? then StopConversation(asked, "user_requested", env) else asked;
    StoppedToPair(d, asked, stopped, env);
    hide Inv, ReadyToPair, SetState, StopConversation, CreatePairCode;
    var cleared := Named(ClearAuth(stopped.(own := stopped.own.(pairingRequested := false)), env), "");
    ClearedToPair(stopped, env);
    TurnToPair(cleared, env);
  }

  lemma StoppedToPair(d: Device, asked: Device, stopped: Device, env: Env)
    requires Inv(d) && !d.shared.shuttingDown && asked == d.(own := d.own.(conversationRequested := false))
    requires stopped ==
      if d.shared.state.InConversation? then StopConversation(asked, "user_requested", env) else asked
    ensures Inv(stopped) && !stopped.shared.state.InConversation? && !stopped.shared.shuttingDown
  {
    assert Inv(asked) by { hide PhaseOf, LinkOf, FailuresOf, Backoff, Restorable; }
    if d.shared.state.InConversation? {
      StopConversationFacts(asked, "user_requested", env);
    }
    hide Core, Books, Quiet, StopConversation;
  }

  lemma ClearedToPair(d: Device, env: Env)
    requires Inv(d) && !d.shared.state.InConversation? && !d.shared.shuttingDown
    ensures var b := Named(ClearAuth(d.(own := d.own.(pairingRequested := false)), env), "");
      Books(b) && Quiet(b) && ReadyToPair(b) && !b.shared.state.InConversation?
  {
    hide PhaseOf, LinkOf, FailuresOf, Saves;
    var b := Named(ClearAuth(d.(own := d.own.(pairingRequested := false)), env), "");
    Rebound(d, b);
    assert Books(b) by { hide RequestsOk, Backoff; }
    hide Books;
  }

  lemma TurnToPair(d: Device, env: Env)
    requires Books(d) && Quiet(d) && ReadyToPair(d) && !d.shared.state.InConversation?
    ensures Inv(CreatePairCode(SetState(d, Pairing, env), env))
  {
    hide Books, PhaseOf, LinkOf, FailuresOf, SetState, CreatePairCode;
    SetStateFacts(d, Pairing, env);
    BooksApart(d, SetState(d, Pairing, env));
    CreatePairCodeKeeps(SetState(d, Pairing, env), env);
  }

  lemma TickUnprovisionedKeeps(d: Device, env: Env)
    requires Inv(d) && d.shared.state.Unprovisioned? && !d.shared.shuttingDown
    ensures Inv(TickUnprovisioned(d, env))
  {
    if d.own.pairRetryLeft > 0 {
      var later := d.(own := d.own.(pairRetryLeft := d.own.pairRetryLeft - 1));
      hide PhaseOf, LinkOf, FailuresOf, SetState, CreatePairCode, Restorable;
      assert Books(later) by { hide Backoff; }
      hide Books;
      if later.own.pairRetryLeft == 0 {
        TurnToPair(later, env);
      }
    }
  }

  lemma TickPollKeeps(d: Device, env: Env)
    requires Inv(d)
    ensures Inv(TickPoll(d, env))
  {
    var o := d.own;
    TimersKnown(d);
    PollTimesKeep(d, o.runtimePollInterval, o.runtimeTicks + 1, o.pairPollInterval, o.pairTicks);
    PollTimesKeep(d, o.runtimePollInterval, 0, o.pairPollInterval, o.pairTicks);
    PollBindingKeeps(d.(own := o.(runtimeTicks := 0)), DevicePoll, env);
    hide Inv, PollBinding;
  }

  lemma TickInConversationKeeps(d: Device, env: Env)
    requires Inv(d) && d.shared.state.InConversation? && d.shared.networkAvailable
    ensures Inv(TickInConversation(d, env))
  {
    if d.shared.stopMail != NoMail {
      TakenMailEnds(d);
      StopConversationFacts(WithMail(d, NoMail),
                            if d.shared.stopMail == DeviceHangup then "device_hangup" else "error", env);
    } else {
      WaitedKeeps(d);
      TickPollKeeps(RenewalDueNow(d), env);
      TickPollKeeps(RenewalWaited(RenewalDueNow(d)), env);
      RenewTokenKeeps(RenewalWaited(RenewalDueNow(d)), env);
    }
    hide Inv, Ending, StopConversation, TickPoll, RenewToken, RenewalDueNow, RenewalWaited;
  }

  lemma TakenMailEnds(d: Device)
    requires Inv(d) && d.shared.state.InConversation?
    ensures Ending(WithMail(d, NoMail))
  {
    hide PhaseOf, LinkOf, FailuresOf, Backoff, Restorable;
  }

  lemma WaitedKeeps(d: Device)
    requires Inv(d) && d.shared.state.InConversation?
    ensures Inv(RenewalDueNow(d)) && Inv(RenewalWaited(RenewalDueNow(d)))
    ensures var waited := RenewalWaited(RenewalDueNow(d));
      waited.shared.state == d.shared.state && waited.shared.networkAvailable == d.shared.networkAvailable
  {
    TimersKnown(d);
    hide Inv;
    var due := RenewalDueNow(d);
    RenewalFieldsKeep(d, due);
    RenewalFieldsKeep(due, RenewalWaited(due));
  }

  lemma ShutdownKeeps(d: Device, env: Env)
    requires Inv(d)
    ensures Inv(Shutdown(d, env))
    ensures Shutdown(d, env).shared.shuttingDown && !Shutdown(d, env).shared.state.InConversation?
  {
    var closing := d.(own := d.own.(pairingRequested := false, conversationRequested := false),
                      shared := d.shared.(shuttingDown := true, stopMail := NoMail,
                                          renewalRequested := false));
    hide PhaseOf, LinkOf, FailuresOf, Restorable, CompleteLocally, StopConversation;
    assert Books(closing) by { hide Backoff; }
    hide Books;
    if d.shared.state.InConversation? {
      CompleteLocallyFacts(closing, env);
      StopConversationFacts(closing, "device_hangup", env);
    }
  }
}
