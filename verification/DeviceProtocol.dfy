/** The device lifecycle as a transition system
    (components/mybot/src/core/mybot_device_lifecycle.c).

    Each operation of the control owner maps a device, what the world answers, and what the
    other threads do meanwhile, to the next device. The other threads act at the named
    points: while an HTTP call or a callback runs, and in the gaps between two atomic accesses. */
module DeviceProtocol {
  import opened DeviceHistory

  const AUTH_VERSION := 1
  const PAIR_RETRY_INITIAL := 30
  const PAIR_RETRY_MAX := 600
  const TOKEN_RETRY_INITIAL := 10
  const TOKEN_RETRY_MAX := 100
  const POLL_MIN_SECONDS := 3
  const POLL_MAX_SECONDS := 60
  const RESTORED_POLL_SECONDS := 30
  const TICKS_PER_SECOND := 10
  const MAX_URL := 640
  const MAX_TOKEN := 512
  const MAX_ID := 128
  const MAX_CHANNEL := 128
  const MAX_UID := 64
  const MAX_VERSION := 64

  datatype Record = Record(version: int, serverBase: string, deviceId: string, deviceToken: string)

  /** Junk: a value of the wrong length, or with a string that does not end. */
  datatype Slot = Empty | Junk | Saved(record: Record)

  /** What only the control owner reads and writes. */
  datatype Owned = Owned(
    serverBase: string,
    deviceId: string,
    pairToken: string,
    pairPollInterval: int,
    pairTicks: int,
    pairRetryDelay: int,
    pairRetryLeft: int,
    deviceToken: string,
    runtimePollInterval: int,
    runtimeTicks: int,
    pollPending: bool,
    bindingGeneration: nat,
    conversationId: string,
    rtcChannel: string,
    rtcUid: string,
    agentUid: string,
    conversationRequested: bool,
    renewalPending: bool,
    renewalDelay: int,
    renewalLeft: int,
    pairingRequested: bool)

  /** The atomics, which other threads read and post into. */
  datatype Shared = Shared(
    state: State,
    stopMail: StopMail,
    renewalRequested: bool,
    shuttingDown: bool,
    networkAvailable: bool,
    lossPending: bool,
    networkGeneration: nat)

  /** The device, with its stored credential, the requests its worker holds, and its history. */
  datatype Device = Device(
    own: Owned,
    shared: Shared,
    store: Slot,
    inflight: seq<Request>,
    log: seq<Entry>)

  // ---- The world ----

  /** What other threads post. */
  datatype Event = NetworkUp | NetworkDown | ConversationEnded | RenewalDue | HangupPressed

  datatype Point =
    | GenerationRead
    | DuringCall
    | Stopping
    | Leaving
    | Entered(state: State)
    | Starting
    | ShowingCode
    | Submitting
    | Renewing

  datatype PairCode = PairCode(code: string, pairToken: string, pollAfter: int)

  datatype Conversation = Conversation(id: string, channel: string, uid: string, agentUid: string)

  datatype RtcToken = RtcToken(channel: string, uid: string, token: string)

  /** One step's surroundings: posts at each point, the answer of the HTTP call the step
      makes, and the success of allocation, queueing, storage and the renewal callback. */
  datatype Env = Env(
    posts: Point -> seq<Event>,
    ret: int,
    pairCode: PairCode,
    conversation: Conversation,
    renewed: RtcToken,
    memory: bool,
    submitted: bool,
    renewalAccepted: bool,
    storeOk: bool,
    leftover: Slot)

  /** What the worker brings back for a request. */
  datatype Answer = Answer(ret: int, status: string, deviceToken: string, pollAfter: int)

  // ---- Helpers ----

  /** A string copied into a buffer of the given size, keeping room for its end. */
  function Fitted(s: string, capacity: nat): (r: string)
    requires capacity > 0
    ensures r <= s && |r| < capacity && (r == s || |r| == capacity - 1)
  {
    if |s| < capacity then s else s[..capacity - 1]
  }

  predicate AuthRejected(ret: int) {
    ret == 401 || ret == 403 || ret == 409
  }

  /** The allowed interval nearest to the one asked for. */
  function ClampPoll(seconds: int): (r: int)
    ensures POLL_MIN_SECONDS <= r <= POLL_MAX_SECONDS
    ensures r == seconds || (seconds < r == POLL_MIN_SECONDS) || (POLL_MAX_SECONDS == r < seconds)
  {
    if seconds < POLL_MIN_SECONDS then POLL_MIN_SECONDS
    else if seconds > POLL_MAX_SECONDS then POLL_MAX_SECONDS
    else seconds
  }

  function NextDelay(current: int, initial: int, maximum: int): int {
    if current == 0 then initial else if current < maximum / 2 then current * 2 else maximum
  }

  function Logged(d: Device, e: Entry): Device {
    d.(log := d.log + [e])
  }

  predicate Current(d: Device, generation: nat) {
    d.shared.networkAvailable && d.shared.networkGeneration == generation
  }

  function OutcomeOf(d: Device, generation: nat, ret: int): Outcome {
    if !Current(d, generation) then Stale else if ret != 0 then Failed else Accepted
  }

  // ---- Posts ----

  function WithMail(d: Device, mail: StopMail): Device {
    d.(shared := d.shared.(stopMail := mail))
  }

  function AskedToPair(d: Device): Device {
    d.(own := d.own.(pairingRequested := true))
  }

  function Post(d: Device, e: Event): Device {
    match e
    case NetworkUp => Logged(d.(shared := d.shared.(networkAvailable := true)), Network(true))
    case NetworkDown =>
      var off := Logged(d.(shared := d.shared.(networkAvailable := false)), Network(false));
      if d.shared.networkAvailable then
        off.(shared := off.shared.(networkGeneration := off.shared.networkGeneration + 1,
                                   lossPending := true))
      else off
    case ConversationEnded =>
      if d.shared.shuttingDown || !d.shared.state.InConversation? then d else WithMail(d, Failure)
    case RenewalDue =>
      if d.shared.shuttingDown || !d.shared.networkAvailable || !d.shared.state.InConversation? then d
      else d.(shared := d.shared.(renewalRequested := true))
    case HangupPressed =>
      if d.shared.shuttingDown || !d.shared.state.InConversation? then d else WithMail(d, DeviceHangup)
  }

  function Posts(d: Device, es: seq<Event>): Device {
    if es == [] then d else Post(Posts(d, es[..|es| - 1]), es[|es| - 1])
  }

  // ---- State and credentials ----

  function SetState(d: Device, s: State, env: Env): Device {
    if d.shared.state == s then d
    else
      var left :=
        if d.shared.state.InConversation? then Posts(WithMail(d, NoMail), env.posts(Leaving)) else d;
      var entered := Logged(
        left.(shared := left.shared.(state := s)),
        Published(s, left.shared.stopMail, left.shared.renewalRequested, left.own.renewalPending));
      Posts(entered, env.posts(Entered(s)))
  }

  function ClearAuth(d: Device, env: Env): Device {
    d.(own := d.own.(bindingGeneration := d.own.bindingGeneration + 1, deviceToken := ""),
       store := if env.storeOk then Empty else env.leftover)
  }

  function RestartPairing(d: Device, env: Env): Device {
    AskedToPair(SetState(ClearAuth(d, env), Unprovisioned, env))
  }

  function PersistAuth(d: Device, env: Env): Device {
    d.(store :=
      if env.storeOk then
        Saved(Record(AUTH_VERSION, Fitted(d.own.serverBase, MAX_URL), Fitted(d.own.deviceId, MAX_ID),
                     Fitted(d.own.deviceToken, MAX_TOKEN)))
      else env.leftover)
  }

  // ---- Pair codes ----

  function AwaitNetwork(d: Device, env: Env): Device {
    AskedToPair(SetState(d, Unprovisioned, env))
  }

  function CreatePairCode(d: Device, env: Env): Device {
    var ready := Posts(d, env.posts(GenerationRead));
    if !ready.shared.networkAvailable then AwaitNetwork(ready, env)
    else
      var called := Posts(Logged(ready, Began(PairCodeCall)), env.posts(DuringCall));
      var outcome := OutcomeOf(called, d.shared.networkGeneration, env.ret);
      PairCodeAnswered(Logged(called, Ended(PairCodeCall, outcome)), outcome, env)
  }

  function PairCodeAnswered(d: Device, outcome: Outcome, env: Env): Device {
    match outcome
    case Stale => AwaitNetwork(d, env)
    case Failed =>
      var delay := NextDelay(d.own.pairRetryDelay, PAIR_RETRY_INITIAL, PAIR_RETRY_MAX);
      SetState(d.(own := d.own.(pairRetryDelay := delay, pairRetryLeft := delay)), Unprovisioned, env)
    case Accepted =>
      var bound := d.(own := d.own.(
        pairRetryDelay := 0,
        pairRetryLeft := 0,
        bindingGeneration := d.own.bindingGeneration + 1,
        pairToken := Fitted(env.pairCode.pairToken, MAX_TOKEN),
        pairPollInterval := ClampPoll(env.pairCode.pollAfter),
        pairTicks := 0,
        deviceToken := ""));
      var shown := Posts(Logged(bound, PairCodeShown(env.pairCode.code)), env.posts(ShowingCode));
      SetState(shown, AwaitingClaim, env)
  }

  // ---- Background requests ----

  function Snapshot(d: Device, kind: Kind): Request {
    Request(kind, d.shared.networkGeneration, d.own.bindingGeneration, d.own.serverBase, d.own.deviceId,
            if kind.PairPoll? then d.own.pairToken else d.own.deviceToken)
  }

  /** The queueing callback: on success the worker owns the request. */
  function Submit(d: Device, r: Request, env: Env): Device {
    var queued :=
      if env.submitted then Logged(d.(inflight := d.inflight + [r]), Submitted(r)) else d;
    Posts(queued, env.posts(Submitting))
  }

  function WithPoll(d: Device, pending: bool): Device {
    d.(own := d.own.(pollPending := pending))
  }

  function PollBinding(d: Device, kind: Kind, env: Env): Device {
    if d.own.pollPending || !env.memory then d
    else
      var sent := Submit(WithPoll(d, true), Snapshot(d, kind), env);
      if env.submitted then sent else WithPoll(sent, false)
  }

  // ---- Conversations ----

  function ClearRenewal(d: Device): Device {
    d.(own := d.own.(renewalPending := false, renewalDelay := 0, renewalLeft := 0,
                     rtcChannel := "", rtcUid := "", agentUid := ""),
       shared := d.shared.(renewalRequested := false))
  }

  function Named(d: Device, id: string): Device {
    d.(own := d.own.(conversationId := id))
  }

  function CompleteLocally(d: Device, env: Env): Device {
    var ended := Logged(Named(ClearRenewal(d), ""), Stopped);
    SetState(Posts(ended, env.posts(Stopping)), Runtime, env)
  }

  function StopConversation(d: Device, reason: string, env: Env): Device {
    var done := CompleteLocally(d, env);
    if d.own.conversationId == "" || !Current(done, d.shared.networkGeneration) || !env.memory then done
    else Submit(done, Snapshot(done, StopCall(d.own.conversationId, reason)), env)
  }

  function StartConversation(d: Device, env: Env): Device {
    if !env.memory then d
    else
      var ready := Posts(d, env.posts(GenerationRead));
      if !ready.shared.networkAvailable then ready
      else
        var called := Posts(Logged(ready, Began(StartCall)), env.posts(DuringCall));
        var outcome := OutcomeOf(called, d.shared.networkGeneration, env.ret);
        StartAnswered(Logged(called, Ended(StartCall, outcome)), outcome, env)
  }

  function StartAnswered(d: Device, outcome: Outcome, env: Env): Device {
    var id := env.conversation.id;
    if outcome.Stale? then d
    else if AuthRejected(env.ret) then RestartPairing(d, env)
    else if outcome.Failed? then d
    else if |id| >= MAX_ID || id == "" then d
    else
      var clear := ClearRenewal(Named(d, id));
      var named := clear.(own := clear.own.(
        rtcChannel := Fitted(env.conversation.channel, MAX_CHANNEL),
        rtcUid := Fitted(env.conversation.uid, MAX_UID),
        agentUid := Fitted(env.conversation.agentUid, MAX_UID)));
      var entered := SetState(named, InConversation, env);
      Posts(Logged(entered, Started(id, d.own.deviceToken)), env.posts(Starting))
  }

  function ScheduleRenewal(d: Device): Device {
    var delay := NextDelay(d.own.renewalDelay, TOKEN_RETRY_INITIAL, TOKEN_RETRY_MAX);
    d.(own := d.own.(renewalDelay := delay, renewalLeft := delay))
  }

  function RenewToken(d: Device, env: Env): Device {
    if d.own.rtcChannel == "" || d.own.rtcUid == "" then StopConversation(d, "error", env)
    else
      var called := Posts(Logged(d, Began(RenewCall)), env.posts(DuringCall));
      var outcome := OutcomeOf(called, d.shared.networkGeneration, env.ret);
      RenewAnswered(Logged(called, Ended(RenewCall, outcome)), outcome, env)
  }

  function RenewAnswered(d: Device, outcome: Outcome, env: Env): Device {
    if outcome.Stale? then d
    else if AuthRejected(env.ret) then InvalidateBinding(d, env)
    else if env.ret == 400 || env.ret == 410 then StopConversation(d, "error", env)
    else if outcome.Failed? then ScheduleRenewal(d)
    else if env.renewed.channel != d.own.rtcChannel || env.renewed.uid != d.own.rtcUid then
      StopConversation(d, "error", env)
    else
      var told := Posts(Logged(d, TokenRenewed), env.posts(Renewing));
      if !env.renewalAccepted then ScheduleRenewal(told)
      else told.(own := told.own.(renewalPending := false, renewalDelay := 0, renewalLeft := 0))
  }

  // ---- Answers ----

  function InvalidateBinding(d: Device, env: Env): Device {
    RestartPairing(if d.shared.state.InConversation? then CompleteLocally(d, env) else d, env)
  }

  function ApplyPair(d: Device, a: Answer, env: Env): Device {
    if AuthRejected(a.ret) then AskedToPair(d)
    else if a.ret != 0 then d
    else if a.status == "pending" then d.(own := d.own.(pairPollInterval := ClampPoll(a.pollAfter)))
    else if a.status == "bound" then Claimed(d, a, env)
    else if a.status == "expired" || a.status == "failed" then AskedToPair(d)
    else if a.status == "unbound" then AwaitNetwork(d, env)
    else d
  }

  function Claimed(d: Device, a: Answer, env: Env): Device {
    var named :=
      if a.deviceToken == "" then d
      else d.(own := d.own.(bindingGeneration := d.own.bindingGeneration + 1,
                            deviceToken := Fitted(a.deviceToken, MAX_TOKEN)));
    if named.own.deviceToken == "" then named
    else
      var saved := PersistAuth(named, env);
      if !env.storeOk then saved
      else
        var bound := SetState(saved, Runtime, env);
        bound.(own := bound.own.(runtimePollInterval := ClampPoll(a.pollAfter), runtimeTicks := 0))
  }

  function ApplyRuntime(d: Device, a: Answer, env: Env): Device {
    if AuthRejected(a.ret) then InvalidateBinding(d, env)
    else if a.ret != 0 then d
    else if a.status == "bound" then d.(own := d.own.(runtimePollInterval := ClampPoll(a.pollAfter)))
    else if a.status == "unbound" then InvalidateBinding(d, env)
    else d
  }

  function ApplyStop(d: Device, a: Answer, env: Env): Device {
    if AuthRejected(a.ret) then InvalidateBinding(d, env) else d
  }

  predicate Discarded(d: Device, r: Request) {
    d.shared.shuttingDown || !Current(d, r.networkGeneration) ||
    d.own.bindingGeneration != r.bindingGeneration || d.own.pairingRequested
  }

  function ServiceResult(d: Device, r: Request, a: Answer, env: Env): Device {
    var back := if r.kind.StopCall? then d else WithPoll(d, false);
    if Discarded(back, r) then back
    else if r.kind.PairPoll? && back.shared.state.AwaitingClaim? then ApplyPair(back, a, env)
    else if back.shared.state.Runtime? || back.shared.state.InConversation? then
      match r.kind
      case PairPoll => back
      case DevicePoll => ApplyRuntime(back, a, env)
      case StopCall(_, _) => ApplyStop(back, a, env)
    else back
  }

  // ---- Operations ----

  function Unrequested(d: Device): Device {
    WithMail(d.(own := d.own.(conversationRequested := false)), NoMail)
  }

  function Tick(d: Device, env: Env): Device {
    if d.shared.shuttingDown then d
    else if d.shared.lossPending then ConsumeLoss(d, env)
    else if !d.shared.networkAvailable then Unrequested(d)
    else if d.own.pairingRequested then TickPairing(d, env)
    else
      match d.shared.state
      case Unprovisioned => TickUnprovisioned(d, env)
      case Pairing => d
      case AwaitingClaim => TickAwaitingClaim(d, env)
      case Runtime => TickRuntime(d, env)
      case InConversation => TickInConversation(d, env)
  }

  function ConsumeLoss(d: Device, env: Env): Device {
    var seen := Unrequested(d.(shared := d.shared.(lossPending := false)));
    if d.shared.state.InConversation? then CompleteLocally(seen, env) else seen
  }

  function TickPairing(d: Device, env: Env): Device {
    var asked := d.(own := d.own.(conversationRequested := false));
    var stopped :=
      if d.shared.state.InConversation? then StopConversation(asked, "user_requested", env) else asked;
    var cleared := Named(ClearAuth(stopped.(own := stopped.own.(pairingRequested := false)), env), "");
    CreatePairCode(SetState(cleared, Pairing, env), env)
  }

  function TickUnprovisioned(d: Device, env: Env): Device {
    if d.own.pairRetryLeft <= 0 then d
    else
      var later := d.(own := d.own.(pairRetryLeft := d.own.pairRetryLeft - 1));
      if later.own.pairRetryLeft > 0 then later
      else CreatePairCode(SetState(later, Pairing, env), env)
  }

  function TickAwaitingClaim(d: Device, env: Env): Device {
    if d.own.pairTicks + 1 >= d.own.pairPollInterval * TICKS_PER_SECOND then
      PollBinding(d.(own := d.own.(pairTicks := 0)), PairPoll, env)
    else d.(own := d.own.(pairTicks := d.own.pairTicks + 1))
  }

  function TickRuntime(d: Device, env: Env): Device {
    if d.own.conversationRequested then
      StartConversation(Unrequested(d), env)
    else TickPoll(d, env)
  }

  function TickPoll(d: Device, env: Env): Device {
    if d.own.runtimeTicks + 1 >= d.own.runtimePollInterval * TICKS_PER_SECOND then
      PollBinding(d.(own := d.own.(runtimeTicks := 0)), DevicePoll, env)
    else d.(own := d.own.(runtimeTicks := d.own.runtimeTicks + 1))
  }

  function TickInConversation(d: Device, env: Env): Device {
    if d.shared.stopMail != NoMail then
      StopConversation(WithMail(d, NoMail),
                       if d.shared.stopMail == DeviceHangup then "device_hangup" else "error", env)
    else
      var due := RenewalDueNow(d);
      if !due.own.renewalPending then TickPoll(due, env)
      else
        var waited := RenewalWaited(due);
        if waited.own.renewalLeft == 0 then RenewToken(waited, env) else TickPoll(waited, env)
  }

  /** A renewal asked for is taken from the mailbox, to be tried at once. */
  function RenewalDueNow(d: Device): Device {
    if d.shared.renewalRequested then
      d.(own := d.own.(renewalPending := true, renewalDelay := 0, renewalLeft := 0),
         shared := d.shared.(renewalRequested := false))
    else d
  }

  function RenewalWaited(d: Device): Device {
    if d.own.renewalLeft > 0 then d.(own := d.own.(renewalLeft := d.own.renewalLeft - 1)) else d
  }

  function Shutdown(d: Device, env: Env): Device {
    var closing := d.(own := d.own.(pairingRequested := false, conversationRequested := false),
                      shared := d.shared.(shuttingDown := true, stopMail := NoMail,
                                          renewalRequested := false));
    if !d.shared.state.InConversation? then closing
    else if d.shared.networkAvailable && !d.shared.lossPending then
      StopConversation(closing, "device_hangup", env)
    else CompleteLocally(closing, env)
  }

  function RequestPair(d: Device): Device {
    if d.shared.shuttingDown then d else AskedToPair(d)
  }

  function RequestStart(d: Device): Device {
    if d.shared.shuttingDown || !d.shared.networkAvailable || !d.shared.state.Runtime? then d
    else d.(own := d.own.(conversationRequested := true))
  }

  // ---- Start-up ----

  /** The stored credential fits this server and device. */
  predicate Restorable(slot: Slot, serverBase: string, deviceId: string) {
    && slot.Saved?
    && slot.record.version == AUTH_VERSION
    && |slot.record.serverBase| < MAX_URL
    && |slot.record.deviceId| < MAX_ID
    && |slot.record.deviceToken| < MAX_TOKEN
    && slot.record.serverBase == serverBase
    && slot.record.deviceId == deviceId
    && slot.record.deviceToken != ""
  }

  predicate Configurable(serverBase: string, deviceId: string, firmware: string, model: string) {
    && 0 < |serverBase| < MAX_URL
    && 0 < |deviceId| < MAX_ID
    && |firmware| < MAX_VERSION
    && |model| < MAX_VERSION
  }

  datatype Result = Rejected | Ready(device: Device)

  function Blank(serverBase: string, deviceId: string, store: Slot): Device {
    Device(
      Owned(serverBase, deviceId, "", 0, 0, 0, 0, "", 0, 0, false, 0, "", "", "", "",
            false, false, 0, 0, false),
      Shared(Unprovisioned, NoMail, false, false, true, false, 0),
      store, [], [])
  }

  /** readable: whether the store could be read at all. */
  function Init(serverBase: string, deviceId: string, firmware: string, model: string, store: Slot,
                readable: bool, env: Env): Result
  {
    if !Configurable(serverBase, deviceId, firmware, model) then Rejected
    else
      var blank := Blank(serverBase, deviceId, store);
      if readable && Restorable(store, serverBase, deviceId) then
        Ready(SetState(
          blank.(own := blank.own.(deviceToken := store.record.deviceToken,
                                   runtimePollInterval := RESTORED_POLL_SECONDS)),
          Runtime, env))
      else
        var erased :=
          if readable && store.Empty? then blank
          else blank.(store := if env.storeOk then Empty else env.leftover);
        Ready(AskedToPair(SetState(erased, Unprovisioned, env)))
  }

  // ---- Runs ----

  datatype Op =
    | TickOp(env: Env)
    | Answered(index: nat, answer: Answer, env: Env)
    | Dropped(index: nat)
    | ShutdownOp(env: Env)
    | RequestPairOp
    | RequestStartOp
    | Outside(event: Event)

  function Without(rs: seq<Request>, i: nat): seq<Request>
    requires i < |rs|
  {
    rs[..i] + rs[i + 1..]
  }

  /** The worker answers or drops any request it holds, in any order. */
  function Step(d: Device, op: Op): Device {
    match op
    case TickOp(env) => Tick(d, env)
    case Answered(i, a, env) =>
      if i < |d.inflight| then
        ServiceResult(d.(inflight := Without(d.inflight, i)), d.inflight[i], a, env)
      else d
    case Dropped(i) => if i < |d.inflight| then d.(inflight := Without(d.inflight, i)) else d
    case ShutdownOp(env) => Shutdown(d, env)
    case RequestPairOp => RequestPair(d)
    case RequestStartOp => RequestStart(d)
    case Outside(e) => Post(d, e)
  }

  function Run(d: Device, ops: seq<Op>): Device {
    if ops == [] then d else Step(Run(d, ops[..|ops| - 1]), ops[|ops| - 1])
  }
}
