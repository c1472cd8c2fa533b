/** Device commands in the application (components/mybot/src/core/mybot_app.c): which are
    executed, in which conversation, and how repeats are suppressed. */
module AppCommands {
  import opened Options
  import CD = CommandDecoder

  const HISTORY := 16
  const UID_CAPACITY := 64
  const CHANNEL_CAPACITY := 128
  const MESSAGE_BYTES := 1024

  // ---- The history of accepted commands ----

  /** The last ids accepted; an empty slot holds the empty id. */
  datatype Ring = Ring(ids: seq<string>, next: nat)

  function Cleared(): Ring {
    Ring(seq(HISTORY, i => ""), 0)
  }

  predicate RingShape(r: Ring) {
    |r.ids| == HISTORY && r.next < HISTORY
  }

  /** A repeat of a remembered id is refused; any other is remembered in place of the oldest. */
  function Remember(r: Ring, id: string): (Ring, bool)
    requires RingShape(r)
  {
    if id in r.ids then (r, false)
    else (Ring(r.ids[r.next := id], (r.next + 1) % HISTORY), true)
  }

  /** Where the last sixteen begin. */
  function Oldest(accepted: seq<string>): (k: nat)
    ensures k <= |accepted| && |accepted| - k <= HISTORY
  {
    if |accepted| <= HISTORY then 0 else |accepted| - HISTORY
  }

  function Recent(accepted: seq<string>): seq<string> {
    accepted[Oldest(accepted)..]
  }

  /** The ring holds the last ids accepted, each at its position modulo the ring's size. */
  predicate Holds(r: Ring, accepted: seq<string>) {
    && RingShape(r)
    && r.next == |accepted| % HISTORY
    && (forall k :: |accepted| - HISTORY <= k < |accepted| && 0 <= k ==> r.ids[k % HISTORY] == accepted[k])
    && (forall s :: |accepted| <= s < HISTORY ==> r.ids[s] == "")
  }

  /** Equal ids are more than sixteen places apart. */
  predicate Spaced(accepted: seq<string>) {
    forall i, j :: 0 <= i < j < |accepted| && accepted[i] == accepted[j] ==> j - i > HISTORY
  }

  lemma ClearedHolds()
    ensures Holds(Cleared(), []) && Spaced([])
  {
  }

  /** The position of the newest id that a slot holds, once something was put there. */
  function LatestAt(n: nat, s: nat): int {
    n - 1 - (n - 1 - s) % HISTORY
  }

  lemma SlotOf(n: nat, s: nat)
    requires s < HISTORY
    ensures n > HISTORY ==> n - HISTORY <= LatestAt(n, s) < n && LatestAt(n, s) % HISTORY == s
  {
  }

  lemma RecentAt(accepted: seq<string>, k: nat)
    requires Oldest(accepted) <= k < |accepted|
    ensures accepted[k] in Recent(accepted)
  {
    assert Recent(accepted)[k - Oldest(accepted)] == accepted[k];
  }

  lemma SlotIsRecent(r: Ring, accepted: seq<string>, s: nat)
    requires Holds(r, accepted) && s < HISTORY && r.ids[s] != ""
    ensures r.ids[s] in Recent(accepted)
  {
    var n := |accepted|;
    SlotOf(n, s);
    var k := if n <= HISTORY then s else LatestAt(n, s);
    assert k < n && k % HISTORY == s;
    RecentAt(accepted, k);
    hide LatestAt, Recent;
  }

  lemma RecentIsSlot(r: Ring, accepted: seq<string>, i: nat)
    requires Holds(r, accepted) && i < |Recent(accepted)|
    ensures Recent(accepted)[i] in r.ids
  {
    hide Holds, Oldest;
    KeptInSlot(r, accepted, Oldest(accepted) + i);
  }

  lemma KeptInSlot(r: Ring, accepted: seq<string>, k: nat)
    requires Holds(r, accepted) && Oldest(accepted) <= k < |accepted|
    ensures accepted[k] in r.ids
  {
    var s := k % HISTORY;
    assert r.ids[s] == accepted[k];
  }

  /** What is in the ring is what was accepted recently. */
  lemma RingIsRecent(r: Ring, accepted: seq<string>, id: string)
    requires Holds(r, accepted) && id != ""
    ensures id in r.ids <==> id in Recent(accepted)
  {
    if id in Recent(accepted) {
      var i :| 0 <= i < |Recent(accepted)| && Recent(accepted)[i] == id;
      RecentIsSlot(r, accepted, i);
    }
    if id in r.ids {
      var s :| 0 <= s < |r.ids| && r.ids[s] == id;
      SlotIsRecent(r, accepted, s);
    }
    hide Recent;
  }

  /** An id is accepted exactly when none of the last sixteen accepted is the same. */
  lemma RememberKeeps(r: Ring, accepted: seq<string>, id: string)
    requires Holds(r, accepted) && Spaced(accepted) && id != ""
    ensures Remember(r, id).1 <==> id !in Recent(accepted)
    ensures Remember(r, id).1 ==> Holds(Remember(r, id).0, accepted + [id]) && Spaced(accepted + [id])
    ensures !Remember(r, id).1 ==> Remember(r, id).0 == r
  {
    RingIsRecent(r, accepted, id);
    if id !in r.ids {
      HoldsMore(r, accepted, id);
      SpacedMore(accepted, id);
    }
    hide Holds, Spaced, Recent;
  }

  lemma HoldsMore(r: Ring, accepted: seq<string>, id: string)
    requires Holds(r, accepted) && id !in r.ids
    ensures Holds(Remember(r, id).0, accepted + [id])
  {
    var more := accepted + [id];
    var n := |accepted|;
    var b := Remember(r, id).0;
    NextSlot(n);
    forall k | |more| - HISTORY <= k < |more| && 0 <= k ensures b.ids[k % HISTORY] == more[k] {
      if k < n {
        KeptSlot(r, accepted, id, k);
      }
    }
    FreeSlots(r, accepted, id);
  }

  lemma NextSlot(n: nat)
    ensures (n % HISTORY + 1) % HISTORY == (n + 1) % HISTORY
  {
  }

  lemma KeptSlot(r: Ring, accepted: seq<string>, id: string, k: nat)
    requires Holds(r, accepted) && id !in r.ids && k < |accepted| && |accepted| - k < HISTORY
    ensures Remember(r, id).0.ids[k % HISTORY] == accepted[k]
  {
    NotOverwritten(|accepted|, k);
    assert r.ids[k % HISTORY] == accepted[k];
  }

  lemma FreeSlots(r: Ring, accepted: seq<string>, id: string)
    requires Holds(r, accepted) && id !in r.ids
    ensures forall s :: |accepted| + 1 <= s < HISTORY ==> Remember(r, id).0.ids[s] == ""
  {
  }

  lemma SpacedMore(accepted: seq<string>, id: string)
    requires Spaced(accepted) && id !in Recent(accepted)
    ensures Spaced(accepted + [id])
  {
    var n := |accepted|;
    forall i | Oldest(accepted) <= i < n ensures accepted[i] != id {
      RecentAt(accepted, i);
    }
  }

  lemma NotOverwritten(n: nat, k: nat)
    requires k < n && n - k < HISTORY
    ensures k % HISTORY != n % HISTORY
  {
  }

  // ---- Messages ----

  /** What RTC hands over: the sender, the channel unless the message is private, its bytes, and what
      the JSON parser makes of them, None if it cannot. */
  datatype Packet = Packet(
    sender: Option<string>, channel: Option<string>, bytes: string, root: Option<CD.Json>)

  predicate Deliverable(p: Packet) {
    && p.sender.Some? && |p.sender.value| < UID_CAPACITY
    && (p.channel.Some? ==> 0 < |p.channel.value| < CHANNEL_CAPACITY)
    && 0 < |p.bytes| <= MESSAGE_BYTES && '\0' !in p.bytes
  }

  /** The first member of the key. */
  function First(ms: seq<CD.Member>, key: string): Option<CD.Json> {
    if ms == [] then None else if ms[0].key == Some(key) then Some(ms[0].value) else First(ms[1..], key)
  }

  function ExactItem(root: Option<CD.Json>, key: string): Option<CD.Json> {
    if root.None? || !root.value.Object? then None else First(root.value.members, key)
  }

  /** Told from other messages by its type or its schema alone. */
  predicate LooksLikeCommand(root: Option<CD.Json>) {
    || CD.IsText(ExactItem(root, CD.TYPE), CD.DEVICE_COMMAND)
    || CD.IsText(ExactItem(root, CD.SCHEMA), CD.COMMAND_SCHEMA)
  }

  lemma {:induction false} FirstIsField(ms: seq<CD.Member>, names: seq<string>, key: string)
    requires CD.Keyed(ms, names)
    ensures First(ms, key) == CD.Field(ms, key)
  {
    CD.FieldFinds(ms, names, key);
    FirstFinds(ms, key);
    hide First, CD.Field, CD.Keyed;
  }

  lemma {:induction false} FirstFinds(ms: seq<CD.Member>, key: string)
    ensures First(ms, key).None? ==> forall i :: 0 <= i < |ms| ==> ms[i].key != Some(key)
    ensures First(ms, key).Some? ==>
      exists i :: 0 <= i < |ms| && ms[i].key == Some(key) && First(ms, key) == Some(ms[i].value)
  {
    if ms != [] && ms[0].key != Some(key) {
      FirstFinds(ms[1..], key);
      if First(ms[1..], key).Some? {
        var i :| 0 <= i < |ms[1..]| && ms[1..][i].key == Some(key) &&
          First(ms[1..], key) == Some(ms[1..][i].value);
        assert ms[i + 1].key == Some(key);
      }
    }
  }

  /** Sorting by type and schema loses no command. */
  lemma CommandsLookLikeIt(root: Option<CD.Json>, c: CD.Command)
    requires CD.Describes(root, c)
    ensures LooksLikeCommand(root)
  {
    FirstIsField(root.value.members, CD.ENVELOPE, CD.TYPE);
    hide First, CD.Field, CD.StatesAction, CD.ENVELOPE;
  }

  /** The command a message states, if it states one. */
  ghost function Stated(root: Option<CD.Json>): (r: Option<CD.Command>)
    ensures r.Some? ==> CD.Describes(root, r.value)
    ensures r.None? ==> forall c :: !CD.Describes(root, c)
  {
    if c :| CD.Describes(root, c) then Some(c) else None
  }

  lemma StatedIs(root: Option<CD.Json>, c: CD.Command)
    requires CD.Describes(root, c)
    ensures Stated(root) == Some(c)
  {
    CD.DescribesOnce(root, c, Stated(root).value);
  }

  lemma StatedId(root: Option<CD.Json>)
    ensures Stated(root).Some? ==> Stated(root).value.commandId != ""
  {
    hide CD.Strict, CD.Field, CD.StatesAction, CD.IsCommandDocument;
  }

  // ---- The application ----

  /** A message whose generation has been taken down. heard: the conversation under way when it
      arrived, if any; an empty channel is a private message. */
  datatype Message = Message(
    generation: nat, sender: string, channel: string, root: Option<CD.Json>, heard: nat)

  /** A command on its way to the control owner. */
  datatype Event = Event(message: Message, command: CD.Command)

  /** What the service answered for a conversation. */
  datatype Opening = Opening(id: string, channel: string, agentUid: string)

  /** Where the control owner stands in the start callback. */
  datatype Stage = Open | Checking(opening: Opening) | Joining

  /** conversation counts the conversations begun; live: this one has reached its RTC join.
      accepted and executed are the ids accepted since the history was cleared, and every event
      executed with the conversation it was executed in. */
  datatype App = App(
    talking: bool,
    conversation: nat,
    stage: Stage,
    live: bool,
    conversationId: string,
    stopPosted: bool,
    generation: nat,
    channel: string,
    agentUid: string,
    ring: Ring,
    parsing: seq<Message>,
    queue: seq<Event>,
    accepted: seq<string>,
    executed: seq<(Event, nat)>)

  function Begin(a: App, o: Opening): App {
    if a.talking then a
    else a.(talking := true, conversation := a.conversation + 1, stage := Checking(o), live := false,
            conversationId := o.id, stopPosted := false)
  }

  function PostStop(a: App): App {
    if a.talking then a.(stopPosted := true) else a
  }

  /** running and flushed: whether the runtime runs, and the media could be flushed. */
  function Publish(a: App, running: bool, flushed: bool): App {
    if !a.stage.Checking? then a
    else
      var o := a.stage.opening;
      if !running || !flushed || o.agentUid == "" then PostStop(a).(stage := Open)
      else a.(channel := o.channel, agentUid := o.agentUid, generation := a.generation + 1, live := true,
              ring := Cleared(), accepted := [], stage := Joining)
  }

  /** initialised and joined: whether RTC could be set up and the join asked for. */
  function Join(a: App, initialised: bool, joined: bool): App {
    if !a.stage.Joining? then a
    else if !initialised || !joined then PostStop(a).(stage := Open)
    else a.(stage := Open)
  }

  function End(a: App): App {
    if !a.talking || !a.stage.Open? then a
    else a.(talking := false, live := false, conversationId := "", stopPosted := false,
            generation := a.generation + 1, channel := "", agentUid := "",
            ring := Cleared(), accepted := [])
  }

  /** A message arrives; its generation is read before it is parsed. 0 is no conversation. */
  function Hear(a: App, running: bool, p: Packet): App {
    if !running || !Deliverable(p) then a
    else a.(parsing := a.parsing + [
      Message(a.generation, p.sender.value, if p.channel.Some? then p.channel.value else "", p.root,
              if a.talking then a.conversation else 0)])
  }

  /** A message is parsed, and queued for the control owner if it states a command and memory and
      the queue allow. */
  ghost function Route(a: App, i: nat, memory: bool, queued: bool): App {
    if i >= |a.parsing| then a
    else
      var m := a.parsing[i];
      var rest := a.(parsing := a.parsing[..i] + a.parsing[i + 1..]);
      if memory && queued && Stated(m.root).Some? then
        rest.(queue := a.queue + [Event(m, Stated(m.root).value)])
      else rest
  }

  /** shown: whether the runtime runs and the application state says a conversation is on. */
  predicate Admitted(a: App, e: Event, shown: bool) {
    && shown
    && a.talking
    && e.message.generation == a.generation
    && !a.stopPosted
    && e.message.sender == a.agentUid
    && (e.message.channel == "" || e.message.channel == a.channel)
    && e.command.conversationId == a.conversationId
  }

  function Handle(a: App, shown: bool): App
    requires RingShape(a.ring)
  {
    if a.queue == [] || !a.stage.Open? then a
    else
      var e := a.queue[0];
      var taken := a.(queue := a.queue[1..]);
      if !Admitted(a, e, shown) || !Remember(a.ring, e.command.commandId).1 then taken
      else taken.(ring := Remember(a.ring, e.command.commandId).0,
                  accepted := a.accepted + [e.command.commandId],
                  executed := a.executed + [(e, a.conversation)])
  }

  datatype Step =
    | Beginning(opening: Opening)
    | Publishing(running: bool, flushed: bool)
    | JoiningRtc(initialised: bool, joined: bool)
    | Ending
    | StopPosting
    | Hearing(running: bool, packet: Packet)
    | Routing(i: nat, memory: bool, queued: bool)
    | Handling(shown: bool)

  ghost function Next(a: App, s: Step): (b: App)
    requires RingShape(a.ring)
    ensures RingShape(b.ring)
  {
    match s
    case Beginning(o) => Begin(a, o)
    case Publishing(running, flushed) => Publish(a, running, flushed)
    case JoiningRtc(initialised, joined) => Join(a, initialised, joined)
    case Ending => End(a)
    case StopPosting => PostStop(a)
    case Hearing(running, p) => Hear(a, running, p)
    case Routing(i, memory, queued) => Route(a, i, memory, queued)
    case Handling(shown) => Handle(a, shown)
  }

  function Idle(): App {
    App(false, 0, Open, false, "", false, 0, "", "", Cleared(), [], [], [], [])
  }

  ghost function RunFrom(a: App, steps: seq<Step>): (b: App)
    requires RingShape(a.ring)
    ensures RingShape(b.ring)
  {
    if steps == [] then a else Next(RunFrom(a, steps[..|steps| - 1]), steps[|steps| - 1])
  }

  ghost function Run(steps: seq<Step>): (a: App)
    ensures RingShape(a.ring)
  {
    RunFrom(Idle(), steps)
  }

  // ---- The invariant ----

  predicate MessageOk(a: App, m: Message) {
    && m.generation <= a.generation
    && (a.live && m.generation == a.generation ==> m.heard == a.conversation)
  }

  ghost predicate EventOk(e: Event) {
    Stated(e.message.root) == Some(e.command)
  }

  ghost predicate QueueOk(a: App) {
    && (forall i :: 0 <= i < |a.parsing| ==> MessageOk(a, a.parsing[i]))
    && (forall i :: 0 <= i < |a.queue| ==> MessageOk(a, a.queue[i].message) && EventOk(a.queue[i]))
  }

  predicate StageOk(a: App) {
    && (a.live ==> a.talking)
    && (a.stage.Checking? ==> a.talking)
    && (a.stage.Joining? ==> a.live)
    && (a.talking && !a.stopPosted && a.stage.Open? ==> a.live)
  }

  ghost predicate Inv(a: App) {
    && StageOk(a)
    && QueueOk(a)
    && Holds(a.ring, a.accepted)
    && Spaced(a.accepted)
    && (forall i :: 0 <= i < |a.executed| ==>
          a.executed[i].0.message.heard == a.executed[i].1 && EventOk(a.executed[i].0))
  }

  lemma HandleKeeps(a: App, shown: bool)
    requires Inv(a)
    ensures Inv(Handle(a, shown))
  {
    if a.queue != [] {
      StatedId(a.queue[0].message.root);
      RememberKeeps(a.ring, a.accepted, a.queue[0].command.commandId);
      hide Holds, Spaced, Remember, Stated;
    }
  }

  lemma OpeningKeeps(a: App, o: Opening, ok1: bool, ok2: bool)
    requires Inv(a)
    ensures Inv(Begin(a, o)) && Inv(Publish(a, ok1, ok2)) && Inv(Join(a, ok1, ok2))
  {
    ClearedHolds();
    hide Holds, Spaced, Cleared, EventOk;
  }

  lemma EndKeeps(a: App)
    requires Inv(a)
    ensures Inv(End(a)) && Inv(PostStop(a))
  {
    ClearedHolds();
    hide Holds, Spaced, Cleared, EventOk;
  }

  lemma HearKeeps(a: App, running: bool, p: Packet)
    requires Inv(a)
    ensures Inv(Hear(a, running, p))
  {
    hide Holds, Spaced, EventOk, Deliverable;
  }

  lemma RouteKeeps(a: App, i: nat, memory: bool, queued: bool)
    requires Inv(a)
    ensures Inv(Route(a, i, memory, queued))
  {
    hide Holds, Spaced, Stated;
  }

  lemma NextKeeps(a: App, s: Step)
    requires Inv(a)
    ensures Inv(Next(a, s))
  {
    hide Begin, Publish, Join, End, PostStop, Hear, Route, Handle, Inv;
    match s
    case Beginning(o) => OpeningKeeps(a, o, true, true);
    case Publishing(running, flushed) => OpeningKeeps(a, Opening("", "", ""), running, flushed);
    case JoiningRtc(initialised, joined) => OpeningKeeps(a, Opening("", "", ""), initialised, joined);
    case Ending => EndKeeps(a);
    case StopPosting => EndKeeps(a);
    case Hearing(running, p) => HearKeeps(a, running, p);
    case Routing(i, memory, queued) => RouteKeeps(a, i, memory, queued);
    case Handling(shown) => HandleKeeps(a, shown);
  }

  lemma {:induction false} RunKeeps(steps: seq<Step>)
    ensures Inv(Run(steps))
    decreases |steps|
  {
    hide Next;
    if steps == [] {
      ClearedHolds();
    } else {
      hide Inv;
      RunKeeps(steps[..|steps| - 1]);
      NextKeeps(Run(steps[..|steps| - 1]), steps[|steps| - 1]);
    }
  }

  /** A command is executed only in the conversation during which its message was received, and is
      the one that message states. */
  lemma ExecutedWhereHeard(steps: seq<Step>, i: nat)
    requires i < |Run(steps).executed|
    ensures var (e, conversation) := Run(steps).executed[i];
      e.message.heard == conversation && CD.Describes(e.message.root, e.command)
  {
    RunKeeps(steps);
    hide Run, Holds, Spaced, CD.Describes, QueueOk;
  }

  /** Between two acceptances of one id in a conversation lie at least sixteen others. */
  lemma RepeatsAreFarApart(steps: seq<Step>, i: nat, j: nat)
    requires i < j < |Run(steps).accepted|
    requires Run(steps).accepted[i] == Run(steps).accepted[j]
    ensures j - i - 1 >= HISTORY
  {
    RunKeeps(steps);
    hide Run, Holds, QueueOk, EventOk;
  }

  /** The history is exactly the last accepted ids, at most sixteen, all different. */
  lemma HistoryIsRecent(steps: seq<Step>, id: string)
    requires id != ""
    ensures var a := Run(steps);
      && (id in a.ring.ids <==> id in Recent(a.accepted))
      && forall i, j :: 0 <= i < j < |Recent(a.accepted)| ==> Recent(a.accepted)[i] != Recent(a.accepted)[j]
  {
    RunKeeps(steps);
    RingIsRecent(Run(steps).ring, Run(steps).accepted, id);
    hide Run, Holds, QueueOk, EventOk;
  }

  // ---- Who may command ----

  /** The conversations begun, in order. */
  ghost function Openings(steps: seq<Step>): seq<Opening> {
    if steps == [] then []
    else
      var front, s := steps[..|steps| - 1], steps[|steps| - 1];
      Openings(front) + if s.Beginning? && !Run(front).talking then [s.opening] else []
  }

  /** What was executed in a conversation came from its agent, to its channel or privately, and named it. */
  predicate Entitled(e: Event, o: Opening) {
    && e.message.sender == o.agentUid
    && (e.message.channel == "" || e.message.channel == o.channel)
    && e.command.conversationId == o.id
  }

  /** The application knows the conversation under way as it was opened. */
  predicate Knows(a: App, os: seq<Opening>) {
    && a.conversation == |os|
    && (a.talking ==> os != [] && a.conversationId == os[|os| - 1].id)
    && (a.stage.Checking? ==> os != [] && a.stage.opening == os[|os| - 1])
    && (a.live ==> os != [] && a.channel == os[|os| - 1].channel && a.agentUid == os[|os| - 1].agentUid)
    && (forall i :: 0 <= i < |a.executed| ==>
          0 < a.executed[i].1 <= |os| && Entitled(a.executed[i].0, os[a.executed[i].1 - 1]))
  }

  lemma NextKnows(a: App, s: Step, os: seq<Opening>)
    requires Inv(a) && Knows(a, os)
    ensures Knows(Next(a, s), os + if s.Beginning? && !a.talking then [s.opening] else [])
  {
    hide Inv, Knows, Begin, Publish, Join, End, PostStop, Hear, Route, Handle;
    assert os + [] == os;
    match s
    case Beginning(o) => BeginKnows(a, o, os);
    case Publishing(running, flushed) => OpeningKnows(a, running, flushed, os);
    case JoiningRtc(initialised, joined) => OpeningKnows(a, initialised, joined, os);
    case Ending => OpeningKnows(a, true, true, os);
    case StopPosting => OpeningKnows(a, true, true, os);
    case Hearing(running, p) => MessageKnows(a, running, p, 0, true, true, os);
    case Routing(i, memory, queued) => MessageKnows(a, true, Packet(None, None, "", None), i, memory, queued, os);
    case Handling(shown) => HandleKnows(a, shown, os);
  }

  lemma BeginKnows(a: App, o: Opening, os: seq<Opening>)
    requires Knows(a, os)
    ensures Knows(Begin(a, o), os + if !a.talking then [o] else [])
  {
    hide Entitled;
  }

  lemma OpeningKnows(a: App, ok1: bool, ok2: bool, os: seq<Opening>)
    requires Inv(a) && Knows(a, os)
    ensures Knows(Publish(a, ok1, ok2), os) && Knows(Join(a, ok1, ok2), os)
    ensures Knows(End(a), os) && Knows(PostStop(a), os)
  {
    hide Holds, Spaced, Cleared, QueueOk, EventOk, Entitled;
  }

  lemma MessageKnows(a: App, running: bool, p: Packet, i: nat, memory: bool, queued: bool, os: seq<Opening>)
    requires Knows(a, os)
    ensures Knows(Hear(a, running, p), os) && Knows(Route(a, i, memory, queued), os)
  {
    hide Entitled, Stated, Deliverable;
  }

  lemma HandleKnows(a: App, shown: bool, os: seq<Opening>)
    requires Inv(a) && Knows(a, os)
    ensures Knows(Handle(a, shown), os)
  {
    hide Holds, Spaced, Remember, QueueOk, EventOk;
  }

  lemma {:induction false} RunKnows(steps: seq<Step>)
    ensures Knows(Run(steps), Openings(steps))
    decreases |steps|
  {
    hide Next, Inv;
    if steps == [] {
      hide Cleared;
    } else {
      hide Knows;
      var front := steps[..|steps| - 1];
      RunKnows(front);
      RunKeeps(front);
      NextKnows(Run(front), steps[|steps| - 1], Openings(front));
    }
  }

  /** Every command ever executed came from the agent of the conversation it was executed in, through its
      channel or privately, and named that conversation. */
  lemma OnlyTheAgentCommands(steps: seq<Step>, i: nat)
    requires i < |Run(steps).executed|
    ensures var (e, conversation) := Run(steps).executed[i];
      && 0 < conversation <= |Openings(steps)|
      && var o := Openings(steps)[conversation - 1];
      && e.message.sender == o.agentUid
      && (e.message.channel == "" || e.message.channel == o.channel)
      && e.command.conversationId == o.id
  {
    RunKnows(steps);
    hide Run, Openings;
  }

  /** The command next in the queue may be executed: it was heard since the conversation under way, the
      last opened, reached its join, nobody has ended that, it comes from its agent, and it is new. */
  predicate Due(a: App, os: seq<Opening>, e: Event) {
    && a.talking && !a.stopPosted && os != []
    && e.message.generation == a.generation
    && e.message.sender == os[|os| - 1].agentUid
    && (e.message.channel == "" || e.message.channel == os[|os| - 1].channel)
    && e.command.conversationId == os[|os| - 1].id
    && e.command.commandId !in Recent(a.accepted)
  }

  /** And then it is, exactly: handling the queue executes its first command if it is due and the state
      is shown, and in any case takes it from the queue. */
  lemma DueCommandsExecute(steps: seq<Step>, shown: bool)
    requires Run(steps).queue != [] && Run(steps).stage.Open?
    ensures var a, b := Run(steps), Run(steps + [Handling(shown)]);
      && b.queue == a.queue[1..]
      && b.executed ==
           (if shown && Due(a, Openings(steps), a.queue[0]) then a.executed + [(a.queue[0], a.conversation)]
            else a.executed)
  {
    RunAgain(steps, Handling(shown));
    RunKnows(steps);
    RunKeeps(steps);
    hide Run, Openings, Inv, Knows, Due, Handle;
    HandleLaw(Run(steps), Openings(steps), shown);
  }

  lemma RunAgain(steps: seq<Step>, s: Step)
    ensures Run(steps + [s]) == Next(Run(steps), s)
    ensures Openings(steps + [s]) ==
      Openings(steps) + if s.Beginning? && !Run(steps).talking then [s.opening] else []
  {
    assert (steps + [s])[..|steps + [s]| - 1] == steps;
    hide Next;
  }

  lemma HandleLaw(a: App, os: seq<Opening>, shown: bool)
    requires Inv(a) && Knows(a, os) && a.queue != [] && a.stage.Open?
    ensures var b := Handle(a, shown);
      && b.queue == a.queue[1..]
      && b.executed ==
           (if shown && Due(a, os, a.queue[0]) then a.executed + [(a.queue[0], a.conversation)] else a.executed)
  {
    StatedId(a.queue[0].message.root);
    RememberKeeps(a.ring, a.accepted, a.queue[0].command.commandId);
    DueIsAdmitted(a, os, a.queue[0], shown);
    hide Holds, Spaced, Remember, Recent, Admitted, Knows, Due, Stated;
  }

  lemma DueIsAdmitted(a: App, os: seq<Opening>, e: Event, shown: bool)
    requires Inv(a) && Knows(a, os) && a.stage.Open?
    ensures shown && Due(a, os, e) <==> Admitted(a, e, shown) && e.command.commandId !in Recent(a.accepted)
  {
    hide Holds, Spaced, Recent, QueueOk, EventOk;
  }

  /** A command the agent sends to a conversation under way, privately or through its channel, is
      executed, if it is new and everything before it has been dealt with. */
  lemma AgentCommandExecutes(steps: seq<Step>, p: Packet)
    requires var a := Run(steps);
      a.talking && !a.stopPosted && a.stage.Open? && a.parsing == [] && a.queue == []
    requires Openings(steps) != [] && Deliverable(p) && Stated(p.root).Some?
    requires var o, c := Openings(steps)[|Openings(steps)| - 1], Stated(p.root).value;
      && p.sender.value == o.agentUid && (p.channel.Some? ==> p.channel.value == o.channel)
      && c.conversationId == o.id && c.commandId !in Recent(Run(steps).accepted)
    ensures var a, b := Run(steps), Run(steps + [Hearing(true, p)] + [Routing(0, true, true)] + [Handling(true)]);
      && |b.executed| == |a.executed| + 1 && b.queue == []
      && b.executed[|a.executed|].0.command == Stated(p.root).value
      && b.executed[|a.executed|].1 == a.conversation
  {
    hide Next, Route, Hear, Holds, Spaced, Recent, Stated, Deliverable, Run, Openings, Due, Inv;
    MessageTaken(steps, p);
    Delivered(Run(steps), p, Openings(steps));
    DueCommandsExecute(steps + [Hearing(true, p)] + [Routing(0, true, true)], true);
  }

  lemma MessageTaken(steps: seq<Step>, p: Packet)
    ensures var two := steps + [Hearing(true, p)] + [Routing(0, true, true)];
      Run(two) == Route(Hear(Run(steps), true, p), 0, true, true) && Openings(two) == Openings(steps)
  {
    RunAgain(steps, Hearing(true, p));
    RunAgain(steps + [Hearing(true, p)], Routing(0, true, true));
    hide Run, Openings, Begin, Publish, Join, End, PostStop, Hear, Route, Handle;
  }

  lemma Delivered(a: App, p: Packet, os: seq<Opening>)
    requires a.talking && !a.stopPosted && a.parsing == [] && a.queue == []
    requires os != [] && Deliverable(p) && Stated(p.root).Some?
    requires var o, c := os[|os| - 1], Stated(p.root).value;
      && p.sender.value == o.agentUid && (p.channel.Some? ==> p.channel.value == o.channel)
      && c.conversationId == o.id && c.commandId !in Recent(a.accepted)
    ensures var b := Route(Hear(a, true, p), 0, true, true);
      && b == a.(queue := b.queue) && |b.queue| == 1
      && b.queue[0].command == Stated(p.root).value && Due(b, os, b.queue[0])
  {
    hide Recent, Stated, Deliverable;
    Sent(p);
    var m := Message(a.generation, p.sender.value, if p.channel.Some? then p.channel.value else "", p.root,
                     a.conversation);
    assert Hear(a, true, p) == a.(parsing := [m]);
    assert [m][..0] + [m][1..] == [];
  }

  lemma Sent(p: Packet)
    requires Deliverable(p)
    ensures p.sender.Some?
  {
  }

  /** A message counts exactly if the runtime runs, its sender has a name of at most 63 bytes, its channel,
      if it has one, 1 to 127, and it has 1 to 1024 bytes itself, none of them zero. */
  lemma MessagesThatCount(a: App, running: bool, p: Packet)
    requires RingShape(a.ring)
    ensures var b := Next(a, Hearing(running, p));
      if running && p.sender.Some? && |p.sender.value| <= 63 &&
         (p.channel.Some? ==> 1 <= |p.channel.value| <= 127) &&
         1 <= |p.bytes| <= 1024 && (forall i :: 0 <= i < |p.bytes| ==> p.bytes[i] != '\0') then
        && |b.parsing| == |a.parsing| + 1 && a.parsing <= b.parsing
        && b.parsing[|a.parsing|].generation == a.generation
        && b.parsing[|a.parsing|].sender == p.sender.value && b.parsing[|a.parsing|].root == p.root
        && b.parsing[|a.parsing|].channel == (if p.channel.Some? then p.channel.value else "")
      else b == a
  {
  }

  /** A message parsed leaves the parser; it is queued, behind the others, exactly if it states a command
      and there are memory and room for it. */
  lemma CommandsAreQueued(a: App, i: nat, memory: bool, queued: bool)
    requires RingShape(a.ring) && i < |a.parsing|
    ensures var b, m := Next(a, Routing(i, memory, queued)), a.parsing[i];
      && b.parsing == a.parsing[..i] + a.parsing[i + 1..]
      && (if exists c :: CD.Describes(m.root, c) && memory && queued then
            |b.queue| == |a.queue| + 1 && a.queue <= b.queue && b.queue[|a.queue|].message == m &&
            CD.Describes(m.root, b.queue[|a.queue|].command)
          else b.queue == a.queue)
  {
    hide CD.Describes;
  }

  /** The end of a conversation closes its generation and forgets all of it. */
  lemma EndingForgets(a: App)
    requires a.talking && a.stage.Open? && RingShape(a.ring)
    ensures var b := Next(a, Ending);
      && !b.talking && !b.live && !b.stopPosted && b.generation == a.generation + 1
      && b.conversationId == "" && b.channel == "" && b.agentUid == ""
      && b.ring == Cleared() && b.accepted == []
      && b.queue == a.queue && b.parsing == a.parsing && b.executed == a.executed
  {
    hide Cleared;
  }

  /** What a start amounts to when nothing comes in between: the conversation is joined, in a generation
      of its own and with an empty history, exactly if the runtime runs, the media were flushed, there is an
      agent, and RTC could be set up and joined; otherwise a stop is posted. */
  lemma OpeningJoinsExactly(a: App, o: Opening, running: bool, flushed: bool, initialised: bool, joined: bool)
    requires !a.talking && a.stage.Open? && RingShape(a.ring)
    ensures var b := Next(Next(Next(a, Beginning(o)), Publishing(running, flushed)), JoiningRtc(initialised, joined));
      && b.talking && b.stage.Open? && b.conversation == a.conversation + 1 && b.conversationId == o.id
      && (!b.stopPosted <==> running && flushed && o.agentUid != "" && initialised && joined)
      && (b.live <==> running && flushed && o.agentUid != "")
      && (b.live ==> b.generation == a.generation + 1 && b.accepted == [] && b.ring == Cleared() &&
                     b.channel == o.channel && b.agentUid == o.agentUid)
      && (!b.live ==> b.generation == a.generation)
  {
    hide Cleared;
  }

  // ---- The program ----

  /** What other threads do beside the control owner. */
  predicate Beside(s: Step) {
    s.Hearing? || s.Routing? || s.StopPosting?
  }

  predicate AllBeside(steps: seq<Step>) {
    forall i :: 0 <= i < |steps| ==> Beside(steps[i])
  }

  /** The parts of the runtime that decide about commands, updated in place by the control
      owner; parsing and queue are the messages on their way to it. */
  class Runtime {
    const commandHistory: array<string>
    var commandHistoryNext: nat
    var talking: bool
    var conversation: nat
    var stage: Stage
    var live: bool
    var conversationId: string
    var stopPosted: bool
    var conversationGeneration: nat
    var rtcChannel: string
    var rtcAgentUid: string
    var parsing: seq<Message>
    var queue: seq<Event>
    ghost var accepted: seq<string>
    ghost var executed: seq<(Event, nat)>

    predicate Valid()
      reads this, commandHistory
    {
      commandHistory.Length == HISTORY && commandHistoryNext < HISTORY
    }

    function History(): Ring
      reads this, commandHistory
    {
      Ring(commandHistory[..], commandHistoryNext)
    }

    ghost function View(): App
      reads this, commandHistory
    {
      App(talking, conversation, stage, live, conversationId, stopPosted, conversationGeneration,
          rtcChannel, rtcAgentUid, History(), parsing, queue, accepted, executed)
    }

    constructor ()
      ensures Valid() && fresh(commandHistory) && View() == Run([])
    {
      commandHistory := new string[HISTORY](_ => "");
      commandHistoryNext := 0;
      talking, conversation, stage, live, conversationId, stopPosted := false, 0, Open, false, "", false;
      conversationGeneration, rtcChannel, rtcAgentUid := 0, "", "";
      parsing, queue, accepted, executed := [], [], [], [];
      new;
      assert commandHistory[..] == Cleared().ids;
    }

    /** Suppresses repeats among the ids remembered. */
    method RememberCommand(id: string) returns (ok: bool)
      requires Valid()
      modifies commandHistory, this`commandHistoryNext
      ensures Valid() && (History(), ok) == Remember(old(History()), id)
    {
      var i := 0;
      while i < HISTORY
        invariant 0 <= i <= HISTORY
        invariant id !in commandHistory[..i]
        invariant commandHistory[..] == old(commandHistory[..])
      {
        if commandHistory[i] == id {
          assert commandHistory[..][i] == id;
          return false;
        }
        assert commandHistory[..i + 1] == commandHistory[..i] + [commandHistory[i]];
        i := i + 1;
      }
      assert commandHistory[..i] == commandHistory[..];
      commandHistory[commandHistoryNext] := id;
      commandHistoryNext := (commandHistoryNext + 1) % HISTORY;
      return true;
    }

    method ClearHistory()
      requires Valid()
      modifies commandHistory, this`commandHistoryNext
      ensures Valid() && History() == Cleared()
    {
      var i := 0;
      while i < HISTORY
        invariant 0 <= i <= HISTORY
        invariant forall j :: 0 <= j < i ==> commandHistory[j] == ""
      {
        commandHistory[i] := "";
        i := i + 1;
      }
      commandHistoryNext := 0;
      assert commandHistory[..] == Cleared().ids;
    }

    /** The start callback: checks, a new generation with an empty history, then the RTC join; before
        and after the new generation other threads may act. */
    method OnConversationStart(o: Opening, running: bool, flushed: bool, initialised: bool, joined: bool,
                               first: seq<Step>, second: seq<Step>)
      requires Valid() && !talking && AllBeside(first) && AllBeside(second)
      modifies this, commandHistory
      ensures Valid()
      ensures var checked := Publish(RunFrom(Begin(old(View()), o), first), running, flushed);
        View() == if checked.stage.Open? then checked else Join(RunFrom(checked, second), initialised, joined)
    {
      hide Cleared, RunFrom, Valid;
      EnterConversation(o);
      Meanwhile(first);
      PublishGeneration(o, running, flushed);
      if stage.Open? {
        return;
      }
      Meanwhile(second);
      JoinRtc(initialised, joined);
    }

    method EnterConversation(o: Opening)
      requires Valid() && !talking
      modifies this
      ensures Valid() && View() == Begin(old(View()), o)
      ensures stage == Checking(o) && talking
    {
      hide Publish, Join, End, Hear, Handle, Cleared, Remember;
      talking, conversation, live, conversationId, stopPosted := true, conversation + 1, false, o.id, false;
      stage := Checking(o);
    }

    method PublishGeneration(o: Opening, running: bool, flushed: bool)
      requires Valid() && stage == Checking(o) && talking
      modifies this, commandHistory
      ensures Valid() && View() == Publish(old(View()), running, flushed)
      ensures talking && (stage.Open? || stage.Joining?)
    {
      hide Cleared;
      if !running || !flushed || o.agentUid == "" {
        NotifyConversationEnded();
        stage := Open;
        return;
      }
      NewGeneration(o);
    }

    method NewGeneration(o: Opening)
      requires Valid()
      modifies this, commandHistory
      ensures Valid()
      ensures View() == old(View()).(
        channel := o.channel, agentUid := o.agentUid, generation := old(conversationGeneration) + 1,
        live := true, ring := Cleared(), accepted := [], stage := Joining)
    {
      hide Cleared;
      rtcChannel, rtcAgentUid := o.channel, o.agentUid;
      conversationGeneration := conversationGeneration + 1;
      ClearHistory();
      live, accepted, stage := true, [], Joining;
    }

    method JoinRtc(initialised: bool, joined: bool)
      requires Valid() && stage.Joining?
      modifies this
      ensures Valid() && View() == Join(old(View()), initialised, joined)
    {
      if !initialised || !joined {
        NotifyConversationEnded();
      }
      stage := Open;
    }

    /** Other threads act while the control owner is in a callback. */
    method Meanwhile(steps: seq<Step>)
      requires Valid() && AllBeside(steps)
      modifies this
      ensures Valid() && View() == RunFrom(old(View()), steps)
      ensures talking == old(talking) && stage == old(stage)
    {
      hide Next;
      for i := 0 to |steps|
        invariant Valid() && View() == RunFrom(old(View()), steps[..i])
        invariant talking == old(talking) && stage == old(stage)
      {
        assert steps[..i + 1][..|steps[..i + 1]| - 1] == steps[..i];
        Other(steps[i]);
      }
      assert steps[..|steps|] == steps;
    }

    method Other(s: Step)
      requires Valid() && Beside(s)
      modifies this
      ensures Valid() && View() == Next(old(View()), s)
      ensures talking == old(talking) && stage == old(stage)
    {
      match s
      case StopPosting => NotifyConversationEnded();
      case Hearing(running, p) => ProcessRtmData(running, p);
      case Routing(i, memory, queued) =>
        if i < |parsing| {
          RouteMessage(i, memory, queued);
        }
      case _ =>
    }

    method OnConversationStop()
      requires Valid() && talking && stage.Open?
      modifies this, commandHistory
      ensures Valid() && View() == End(old(View()))
    {
      hide Cleared;
      conversationGeneration := conversationGeneration + 1;
      ClearHistory();
      rtcChannel, rtcAgentUid, conversationId := "", "", "";
      talking, live, stopPosted, accepted := false, false, false, [];
    }

    method NotifyConversationEnded()
      requires Valid()
      modifies this`stopPosted
      ensures Valid() && View() == PostStop(old(View()))
    {
      if talking {
        stopPosted := true;
      }
    }

    /** A message from RTC: unfit ones are dropped; the generation of the others is taken down
        before they are parsed. */
    method ProcessRtmData(running: bool, p: Packet)
      requires Valid()
      modifies this`parsing
      ensures Valid() && View() == Hear(old(View()), running, p)
    {
      if !running || p.sender.None? || |p.sender.value| >= UID_CAPACITY {
        return;
      }
      if p.channel.Some? && (p.channel.value == "" || |p.channel.value| >= CHANNEL_CAPACITY) {
        return;
      }
      if p.bytes == "" || |p.bytes| > MESSAGE_BYTES || '\0' in p.bytes {
        return;
      }
      var heard := if talking then conversation else 0;
      var channel := if p.channel.Some? then p.channel.value else "";
      parsing := parsing + [Message(conversationGeneration, p.sender.value, channel, p.root, heard)];
    }

    /** A parsed message is sorted by its type and schema; whatever is no command goes elsewhere. */
    method RouteMessage(i: nat, memory: bool, queued: bool)
      requires Valid() && i < |parsing|
      modifies this`parsing, this`queue
      ensures Valid() && View() == Route(old(View()), i, memory, queued)
    {
      hide Stated, LooksLikeCommand, CD.Describes;
      var m := parsing[i];
      parsing := parsing[..i] + parsing[i + 1..];
      if Stated(m.root).Some? {
        CommandsLookLikeIt(m.root, Stated(m.root).value);
      }
      if LooksLikeCommand(m.root) {
        QueueDeviceCommand(m, memory, queued);
      }
    }

    method QueueDeviceCommand(m: Message, memory: bool, queued: bool)
      requires Valid()
      modifies this`queue
      ensures Valid()
      ensures queue == if memory && queued && Stated(m.root).Some?
        then old(queue) + [Event(m, Stated(m.root).value)] else old(queue)
    {
      if !memory {
        return;
      }
      var command := CD.Parse(m.root);
      if command.None? {
        return;
      }
      StatedIs(m.root, command.value);
      if queued {
        queue := queue + [Event(m, command.value)];
      }
    }

    /** done: the command was executed. */
    method HandleDeviceCommand(shown: bool) returns (done: bool)
      requires Valid() && queue != [] && stage.Open?
      modifies this, commandHistory
      ensures Valid() && View() == Handle(old(View()), shown)
      ensures done <==> executed != old(executed)
    {
      var event := queue[0];
      queue := queue[1..];
      if !shown || !talking || event.message.generation != conversationGeneration || stopPosted ||
         event.message.sender != rtcAgentUid ||
         (event.message.channel != "" && event.message.channel != rtcChannel) ||
         event.command.conversationId != conversationId {
        return false;
      }
      done := RememberCommand(event.command.commandId);
      if done {
        accepted := accepted + [event.command.commandId];
        executed := executed + [(event, conversation)];
      }
    }
  }
}
