/** The device lifecycle as the program runs it: one object updated in place, whose atomics
    other threads post into while it waits (components/mybot/src/core/mybot_device_lifecycle.c). */
module DeviceLifecycle {
  import opened DeviceHistory
  import P = DeviceProtocol
  import I = DeviceInvariants
  import R = DeviceRuns

  class Lifecycle {
    // The plain members, which only the control owner touches.
    var own: P.Owned

    // Atomics.
    var state: State
    var stopRequest: StopMail
    var renewalRequested: bool
    var shuttingDown: bool
    var networkAvailable: bool
    var lossPending: bool
    var networkGeneration: nat

    // The credential store and the worker's queue.
    var store: P.Slot
    var worker: seq<Request>

    ghost var log: seq<Entry>

    ghost function View(): P.Device
      reads this
    {
      P.Device(
        own,
        P.Shared(state, stopRequest, renewalRequested, shuttingDown, networkAvailable, lossPending,
                 networkGeneration),
        store, worker, log)
    }

    // ---- Posts of other threads ----

    method SetNetworkAvailable(available: bool)
      modifies this
      ensures View() == P.Post(old(View()), if available then P.NetworkUp else P.NetworkDown)
    {
      var wasAvailable := networkAvailable;
      networkAvailable := available;
      log := log + [Network(available)];
      if !available && wasAvailable {
        networkGeneration := networkGeneration + 1;
        lossPending := true;
      }
    }

    method NotifyConversationEnded()
      modifies this
      ensures View() == P.Post(old(View()), P.ConversationEnded)
    {
      if shuttingDown {
        return;
      }
      if state == InConversation {
        stopRequest := Failure;
      }
    }

    method RequestRtcTokenRenewal()
      modifies this
      ensures View() == P.Post(old(View()), P.RenewalDue)
    {
      if shuttingDown || !networkAvailable {
        return;
      }
      if state != InConversation {
        return;
      }
      renewalRequested := true;
    }

    method RequestStop()
      modifies this
      ensures View() == P.Post(old(View()), P.HangupPressed)
    {
      if shuttingDown {
        return;
      }
      if state != InConversation {
        return;
      }
      stopRequest := DeviceHangup;
    }

    /** What the other threads do at one point of the owner's step. */
    method Await(events: seq<P.Event>)
      modifies this
      ensures View() == P.Posts(old(View()), events)
    {
      var i := 0;
      while i < |events|
        invariant 0 <= i <= |events|
        invariant View() == P.Posts(old(View()), events[..i])
      {
        match events[i] {
          case NetworkUp => SetNetworkAvailable(true);
          case NetworkDown => SetNetworkAvailable(false);
          case ConversationEnded => NotifyConversationEnded();
          case RenewalDue => RequestRtcTokenRenewal();
          case HangupPressed => RequestStop();
        }
        assert events[..i + 1][..i] == events[..i];
        i := i + 1;
      }
      assert events[..i] == events;
    }

    predicate NetworkRequestIsCurrent(generation: nat)
      reads this
      ensures NetworkRequestIsCurrent(generation) == P.Current(View(), generation)
    {
      networkAvailable && networkGeneration == generation
    }

    // ---- State and credentials ----

    method SetState(newState: State, env: P.Env)
      modifies this
      ensures View() == P.SetState(old(View()), newState, env)
    {
      if state == newState {
        return;
      }
      if state == InConversation {
        stopRequest := NoMail;
        Await(env.posts(P.Leaving));
      }
      state := newState;
      log := log + [Published(newState, stopRequest, renewalRequested, own.renewalPending)];
      Await(env.posts(P.Entered(newState)));
    }

    method PersistDeviceAuth(env: P.Env) returns (ok: bool)
      modifies this
      ensures View() == P.PersistAuth(old(View()), env) && ok == env.storeOk
    {
      var record := P.Record(P.AUTH_VERSION, P.Fitted(own.serverBase, P.MAX_URL),
                             P.Fitted(own.deviceId, P.MAX_ID), P.Fitted(own.deviceToken, P.MAX_TOKEN));
      store := if env.storeOk then P.Saved(record) else env.leftover;
      ok := env.storeOk;
    }

    method ClearDeviceAuth(env: P.Env)
      modifies this
      ensures View() == P.ClearAuth(old(View()), env)
    {
      own := own.(bindingGeneration := own.bindingGeneration + 1, deviceToken := "");
      store := if env.storeOk then P.Empty else env.leftover;
    }

    method RestartPairing(env: P.Env)
      modifies this
      ensures View() == P.RestartPairing(old(View()), env)
    {
      ClearDeviceAuth(env);
      SetState(Unprovisioned, env);
      own := own.(pairingRequested := true);
    }

    // ---- Pair codes ----

    method CreatePairCode(env: P.Env)
      modifies this
      ensures View() == P.CreatePairCode(old(View()), env)
    {
      var generation := networkGeneration;
      Await(env.posts(P.GenerationRead));
      if !networkAvailable {
        SetState(Unprovisioned, env);
        own := own.(pairingRequested := true);
        return;
      }
      log := log + [Began(PairCodeCall)];
      Await(env.posts(P.DuringCall));
      log := log + [Ended(PairCodeCall, P.OutcomeOf(View(), generation, env.ret))];
      if !NetworkRequestIsCurrent(generation) {
        SetState(Unprovisioned, env);
        own := own.(pairingRequested := true);
        return;
      }
      if env.ret != 0 {
        own := own.(
          pairRetryDelay := P.NextDelay(own.pairRetryDelay, P.PAIR_RETRY_INITIAL, P.PAIR_RETRY_MAX));
        own := own.(pairRetryLeft := own.pairRetryDelay);
        SetState(Unprovisioned, env);
        return;
      }
      TakePairCode(env);
    }

    method TakePairCode(env: P.Env)
      modifies this
      ensures View() == P.PairCodeAnswered(old(View()), Accepted, env)
    {
      own := own.(
        pairRetryDelay := 0,
        pairRetryLeft := 0,
        bindingGeneration := own.bindingGeneration + 1,
        pairToken := P.Fitted(env.pairCode.pairToken, P.MAX_TOKEN),
        pairPollInterval := P.ClampPoll(env.pairCode.pollAfter),
        pairTicks := 0,
        deviceToken := "");
      log := log + [PairCodeShown(env.pairCode.code)];
      Await(env.posts(P.ShowingCode));
      SetState(AwaitingClaim, env);
    }

    // ---- Background requests ----

    function CreateServiceRequest(kind: Kind): (r: Request)
      reads this
      ensures r == P.Snapshot(View(), kind)
    {
      Request(kind, networkGeneration, own.bindingGeneration, own.serverBase, own.deviceId,
              if kind.PairPoll? then own.pairToken else own.deviceToken)
    }

    method SubmitServiceRequest(request: Request, env: P.Env) returns (ok: bool)
      modifies this
      ensures View() == P.Submit(old(View()), request, env) && ok == env.submitted
    {
      if env.submitted {
        worker := worker + [request];
        log := log + [Submitted(request)];
      }
      Await(env.posts(P.Submitting));
      ok := env.submitted;
    }

    method PollBinding(kind: Kind, env: P.Env)
      modifies this
      ensures View() == P.PollBinding(old(View()), kind, env)
    {
      if own.pollPending {
        return;
      }
      if !env.memory {
        return;
      }
      var request := CreateServiceRequest(kind);
      own := own.(pollPending := true);
      var ok := SubmitServiceRequest(request, env);
      if !ok {
        own := own.(pollPending := false);
      }
    }

    // ---- Conversations ----

    method ClearRtcTokenRenewal()
      modifies this
      ensures View() == P.ClearRenewal(old(View()))
    {
      renewalRequested := false;
      own := own.(
        renewalPending := false,
        renewalDelay := 0,
        renewalLeft := 0,
        rtcChannel := "",
        rtcUid := "",
        agentUid := "");
    }

    method ScheduleRtcTokenRetry()
      modifies this
      ensures View() == P.ScheduleRenewal(old(View()))
    {
      own := own.(
        renewalDelay := P.NextDelay(own.renewalDelay, P.TOKEN_RETRY_INITIAL, P.TOKEN_RETRY_MAX));
      own := own.(renewalLeft := own.renewalDelay);
    }

    method CompleteConversationLocally(env: P.Env)
      modifies this
      ensures View() == P.CompleteLocally(old(View()), env)
    {
      ClearRtcTokenRenewal();
      own := own.(conversationId := "");
      log := log + [Stopped];
      Await(env.posts(P.Stopping));
      SetState(Runtime, env);
    }

    method StopConversation(reason: string, env: P.Env)
      modifies this
      ensures View() == P.StopConversation(old(View()), reason, env)
    {
      var id := own.conversationId;
      var generation := networkGeneration;
      CompleteConversationLocally(env);
      if id == "" {
        return;
      }
      if !NetworkRequestIsCurrent(generation) {
        return;
      }
      if !env.memory {
        return;
      }
      var request := CreateServiceRequest(StopCall(id, reason));
      var _ := SubmitServiceRequest(request, env);
    }

    method StartConversation(env: P.Env)
      modifies this
      ensures View() == P.StartConversation(old(View()), env)
    {
      if !env.memory {
        return;
      }
      var generation := networkGeneration;
      Await(env.posts(P.GenerationRead));
      if !networkAvailable {
        return;
      }
      log := log + [Began(StartCall)];
      Await(env.posts(P.DuringCall));
      log := log + [Ended(StartCall, P.OutcomeOf(View(), generation, env.ret))];
      if !NetworkRequestIsCurrent(generation) {
        return;
      }
      if P.AuthRejected(env.ret) {
        RestartPairing(env);
        return;
      }
      if env.ret != 0 {
        return;
      }
      EnterConversation(env);
    }

    method EnterConversation(env: P.Env)
      requires env.ret == 0
      modifies this
      ensures View() == P.StartAnswered(old(View()), Accepted, env)
    {
      var response := env.conversation;
      if |response.id| >= P.MAX_ID || response.id == "" {
        return;
      }
      own := own.(conversationId := response.id);
      ClearRtcTokenRenewal();
      own := own.(
        rtcChannel := P.Fitted(response.channel, P.MAX_CHANNEL),
        rtcUid := P.Fitted(response.uid, P.MAX_UID),
        agentUid := P.Fitted(response.agentUid, P.MAX_UID));
      ghost var token := own.deviceToken;
      SetState(InConversation, env);
      log := log + [Started(response.id, token)];
      Await(env.posts(P.Starting));
    }

    method RenewRtcToken(env: P.Env)
      modifies this
      ensures View() == P.RenewToken(old(View()), env)
    {
      if own.rtcChannel == "" || own.rtcUid == "" {
        StopConversation("error", env);
        return;
      }
      var generation := networkGeneration;
      log := log + [Began(RenewCall)];
      Await(env.posts(P.DuringCall));
      log := log + [Ended(RenewCall, P.OutcomeOf(View(), generation, env.ret))];
      if !NetworkRequestIsCurrent(generation) {
        return;
      }
      TakeRtcToken(env);
    }

    method TakeRtcToken(env: P.Env)
      modifies this
      ensures View() == P.RenewAnswered(old(View()), if env.ret != 0 then Failed else Accepted, env)
    {
      if P.AuthRejected(env.ret) {
        InvalidateRuntimeBinding(env);
        return;
      }
      if env.ret == 400 || env.ret == 410 {
        StopConversation("error", env);
        return;
      }
      if env.ret != 0 {
        ScheduleRtcTokenRetry();
        return;
      }
      if env.renewed.channel != own.rtcChannel || env.renewed.uid != own.rtcUid {
        StopConversation("error", env);
        return;
      }
      log := log + [TokenRenewed];
      Await(env.posts(P.Renewing));
      if !env.renewalAccepted {
        ScheduleRtcTokenRetry();
        return;
      }
      own := own.(renewalPending := false, renewalDelay := 0, renewalLeft := 0);
    }

    // ---- Answers ----

    method InvalidateRuntimeBinding(env: P.Env)
      modifies this
      ensures View() == P.InvalidateBinding(old(View()), env)
    {
      if state == InConversation {
        CompleteConversationLocally(env);
      }
      RestartPairing(env);
    }

    method ApplyBindingPair(answer: P.Answer, env: P.Env)
      modifies this
      ensures View() == P.ApplyPair(old(View()), answer, env)
    {
      if P.AuthRejected(answer.ret) {
        own := own.(pairingRequested := true);
        return;
      }
      if answer.ret != 0 {
        return;
      }
      if answer.status == "pending" {
        own := own.(pairPollInterval := P.ClampPoll(answer.pollAfter));
      } else if answer.status == "bound" {
        ApplyBound(answer, env);
      } else if answer.status == "expired" || answer.status == "failed" {
        own := own.(pairingRequested := true);
      } else if answer.status == "unbound" {
        SetState(Unprovisioned, env);
        own := own.(pairingRequested := true);
      }
    }

    method ApplyBound(answer: P.Answer, env: P.Env)
      modifies this
      ensures View() == P.Claimed(old(View()), answer, env)
    {
      if answer.deviceToken != "" {
        own := own.(
          bindingGeneration := own.bindingGeneration + 1,
          deviceToken := P.Fitted(answer.deviceToken, P.MAX_TOKEN));
      }
      if own.deviceToken == "" {
        return;
      }
      var ok := PersistDeviceAuth(env);
      if !ok {
        return;
      }
      SetState(Runtime, env);
      own := own.(runtimePollInterval := P.ClampPoll(answer.pollAfter), runtimeTicks := 0);
    }

    method ApplyBindingRuntime(answer: P.Answer, env: P.Env)
      modifies this
      ensures View() == P.ApplyRuntime(old(View()), answer, env)
    {
      if P.AuthRejected(answer.ret) {
        InvalidateRuntimeBinding(env);
        return;
      }
      if answer.ret != 0 {
        return;
      }
      if answer.status == "bound" {
        own := own.(runtimePollInterval := P.ClampPoll(answer.pollAfter));
      } else if answer.status == "unbound" {
        InvalidateRuntimeBinding(env);
      }
    }

    method ApplyStopResult(answer: P.Answer, env: P.Env)
      modifies this
      ensures View() == P.ApplyStop(old(View()), answer, env)
    {
      if P.AuthRejected(answer.ret) {
        InvalidateRuntimeBinding(env);
      }
    }

    method ServiceResult(request: Request, answer: P.Answer, env: P.Env)
      modifies this
      ensures View() == P.ServiceResult(old(View()), request, answer, env)
    {
      if !request.kind.StopCall? {
        own := own.(pollPending := false);
      }
      if shuttingDown || !NetworkRequestIsCurrent(request.networkGeneration) ||
         own.bindingGeneration != request.bindingGeneration || own.pairingRequested {
        return;
      }
      if request.kind.PairPoll? && state == AwaitingClaim {
        ApplyBindingPair(answer, env);
      } else if state == Runtime || state == InConversation {
        if request.kind.DevicePoll? {
          ApplyBindingRuntime(answer, env);
        } else if request.kind.StopCall? {
          ApplyStopResult(answer, env);
        }
      }
    }

    // ---- The tick ----

    method TickRuntimeBindingPoll(env: P.Env)
      modifies this
      ensures View() == P.TickPoll(old(View()), env)
    {
      own := own.(runtimeTicks := own.runtimeTicks + 1);
      if own.runtimeTicks >= own.runtimePollInterval * P.TICKS_PER_SECOND {
        own := own.(runtimeTicks := 0);
        PollBinding(DevicePoll, env);
      }
    }

    method Tick(env: P.Env)
      modifies this
      ensures View() == P.Tick(old(View()), env)
    {
      if shuttingDown {
        return;
      }
      if lossPending {
        lossPending := false;
        own := own.(conversationRequested := false);
        stopRequest := NoMail;
        if state == InConversation {
          CompleteConversationLocally(env);
        }
        return;
      }
      if !networkAvailable {
        own := own.(conversationRequested := false);
        stopRequest := NoMail;
        return;
      }
      if own.pairingRequested {
        TickPairing(env);
        return;
      }
      match state {
        case Unprovisioned => TickUnprovisioned(env);
        case Pairing =>
        case AwaitingClaim => TickAwaitingClaim(env);
        case Runtime =>
          if own.conversationRequested {
            own := own.(conversationRequested := false);
            stopRequest := NoMail;
            StartConversation(env);
          } else {
            TickRuntimeBindingPoll(env);
          }
        case InConversation => TickInConversation(env);
      }
    }

    method TickPairing(env: P.Env)
      modifies this
      ensures View() == P.TickPairing(old(View()), env)
    {
      own := own.(conversationRequested := false);
      if state == InConversation {
        StopConversation("user_requested", env);
      }
      own := own.(pairingRequested := false);
      ClearDeviceAuth(env);
      own := own.(conversationId := "");
      SetState(Pairing, env);
      CreatePairCode(env);
    }

    method TickUnprovisioned(env: P.Env)
      modifies this
      ensures View() == P.TickUnprovisioned(old(View()), env)
    {
      if own.pairRetryLeft > 0 {
        own := own.(pairRetryLeft := own.pairRetryLeft - 1);
        if own.pairRetryLeft == 0 {
          SetState(Pairing, env);
          CreatePairCode(env);
        }
      }
    }

    method TickAwaitingClaim(env: P.Env)
      modifies this
      ensures View() == P.TickAwaitingClaim(old(View()), env)
    {
      own := own.(pairTicks := own.pairTicks + 1);
      if own.pairTicks >= own.pairPollInterval * P.TICKS_PER_SECOND {
        own := own.(pairTicks := 0);
        PollBinding(PairPoll, env);
      }
    }

    method TickInConversation(env: P.Env)
      modifies this
      ensures View() == P.TickInConversation(old(View()), env)
    {
      hide P.StopConversation, P.RenewToken, P.TickPoll;
      var request := stopRequest;
      stopRequest := NoMail;
      if request != NoMail {
        var reason := if request == DeviceHangup then "device_hangup" else "error";
        StopConversation(reason, env);
        return;
      }
      if renewalRequested {
        renewalRequested := false;
        own := own.(renewalPending := true, renewalDelay := 0, renewalLeft := 0);
      }
      if own.renewalPending {
        if own.renewalLeft > 0 {
          own := own.(renewalLeft := own.renewalLeft - 1);
        }
        if own.renewalLeft == 0 {
          RenewRtcToken(env);
          return;
        }
      }
      TickRuntimeBindingPoll(env);
    }

    // ---- Other operations of the owner ----

    method Shutdown(env: P.Env)
      modifies this
      ensures View() == P.Shutdown(old(View()), env)
    {
      hide P.StopConversation, P.CompleteLocally;
      shuttingDown := true;
      own := own.(pairingRequested := false, conversationRequested := false);
      stopRequest := NoMail;
      renewalRequested := false;
      if state == InConversation && networkAvailable && !lossPending {
        StopConversation("device_hangup", env);
      } else if state == InConversation {
        CompleteConversationLocally(env);
      }
    }

    method RequestPair()
      modifies this
      ensures View() == P.RequestPair(old(View()))
    {
      if shuttingDown {
        return;
      }
      own := own.(pairingRequested := true);
    }

    method RequestStart()
      modifies this
      ensures View() == P.RequestStart(old(View()))
    {
      if shuttingDown || !networkAvailable {
        return;
      }
      if state != Runtime {
        return;
      }
      own := own.(conversationRequested := true);
    }

    /** A device on the given store, for a configuration that has been checked. */
    constructor (server: string, id: string, slot: P.Slot, readable: bool, env: P.Env)
      requires 0 < |server| < P.MAX_URL && 0 < |id| < P.MAX_ID
      ensures P.Ready(View()) == P.Init(server, id, "", "", slot, readable, env)
    {
      own, store := P.Blank(server, id, slot).own, slot;
      state, stopRequest, renewalRequested := Unprovisioned, NoMail, false;
      shuttingDown, networkAvailable, lossPending, networkGeneration := false, true, false, 0;
      worker, log := [], [];
      new;
      var loaded := LoadDeviceAuth(readable, env);
      if loaded {
        own := own.(runtimePollInterval := P.RESTORED_POLL_SECONDS);
        SetState(Runtime, env);
      } else {
        SetState(Unprovisioned, env);
        own := own.(pairingRequested := true);
      }
    }

    /** No device for a configuration that is empty or does not fit. */
    static method Create(server: string, id: string, firmware: string, model: string, slot: P.Slot,
                         readable: bool, env: P.Env) returns (l: Lifecycle?)
      ensures l == null <==> P.Init(server, id, firmware, model, slot, readable, env).Rejected?
      ensures l != null ==>
        fresh(l) && P.Ready(l.View()) == P.Init(server, id, firmware, model, slot, readable, env)
      ensures l != null ==>
        I.Inv(l.View()) && (l.state == Runtime <==> readable && P.Restorable(slot, server, id))
    {
      if !P.Configurable(server, id, firmware, model) {
        return null;
      }
      R.InitKeeps(server, id, firmware, model, slot, readable, env);
      hide I.Inv, P.SetState, P.Restorable;
      l := new Lifecycle(server, id, slot, readable, env);
    }

    /** Reads the stored credential; a value that does not fit this device is erased. */
    method LoadDeviceAuth(readable: bool, env: P.Env) returns (ok: bool)
      modifies this
      ensures ok == (readable && P.Restorable(old(store), own.serverBase, own.deviceId))
      ensures View() == if ok then
          old(View()).(own := old(View()).own.(deviceToken := old(store).record.deviceToken))
        else if readable && old(store).Empty? then old(View())
        else old(View()).(store := if env.storeOk then P.Empty else env.leftover)
    {
      if readable && store.Empty? {
        return false;
      }
      if !readable || store.Junk? || store.record.version != P.AUTH_VERSION ||
         |store.record.serverBase| >= P.MAX_URL || |store.record.deviceId| >= P.MAX_ID ||
         |store.record.deviceToken| >= P.MAX_TOKEN || store.record.serverBase != own.serverBase ||
         store.record.deviceId != own.deviceId || store.record.deviceToken == "" {
        store := if env.storeOk then P.Empty else env.leftover;
        return false;
      }
      own := own.(deviceToken := store.record.deviceToken);
      return true;
    }

    // ---- Whole runs ----

    method Perform(op: P.Op)
      modifies this
      ensures View() == P.Step(old(View()), op)
    {
      match op {
        case TickOp(env) => Tick(env);
        case Answered(i, answer, env) =>
          if i < |worker| {
            var request := worker[i];
            worker := P.Without(worker, i);
            ServiceResult(request, answer, env);
          }
        case Dropped(i) =>
          if i < |worker| {
            worker := P.Without(worker, i);
          }
        case ShutdownOp(env) => Shutdown(env);
        case RequestPairOp => RequestPair();
        case RequestStartOp => RequestStart();
        case Outside(e) => Await([e]);
      }
    }
  
    /** A whole run of operations, each step of it safe. */
    method Serve(ops: seq<P.Op>)
      requires I.Inv(View())
      modifies this
      ensures View() == P.Run(old(View()), ops)
      ensures I.Inv(View())
    {
      hide I.Inv, P.Step;
      for i := 0 to |ops|
        invariant View() == P.Run(old(View()), ops[..i])
        invariant I.Inv(View())
      {
        R.StepKeeps(View(), ops[i]);
        Perform(ops[i]);
        assert ops[..i + 1][..i] == ops[..i];
      }
      assert ops[..|ops|] == ops;
    }
  }
}
