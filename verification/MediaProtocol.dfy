/** The media pipeline as a transition system (components/mybot/src/media/mybot_media_pipeline.c).

    Capture, playback and sending each run on a worker of their own; RTC callbacks and the
    control owner run beside them. A worker's callback is cut into the steps between which the
    others can act: each reads or writes one shared thing. Bytes received from RTC carry the
    session they came in and their position among all bytes accepted. */
module MediaProtocol {
  const SAMPLE_BYTES := 2
  /** 60 ms of mono 16-bit sound at 16 kHz. */
  const FRAME_SAMPLES := 960
  const FRAME_BYTES := 1920
  /** Two seconds of it. */
  const RING_BYTES := 64000
  const INT_MAX := 0x7FFF_FFFF

  datatype Piece =
    | Rtc(session: nat, index: nat, value: int)
    | Prompt(value: int)

  datatype Source = NoSource | Announcement | Remote

  /** A byte the speaker accepted: what it was, what was written for it, and, at that moment,
      the session and whether a disconnect or the pipeline's stop was waiting to be noticed. */
  datatype Out = Out(piece: Piece, value: int, plain: bool, session: nat, late: bool)

  /** Where the playback worker stands. */
  datatype PlaybackPoint =
    | Resting
    | GenerationRead(generation: nat)
    | Draining(generation: nat)
    | Drained(generation: nat)
    | Silencing(generation: nat)
    | Preparing(generation: nat, announcing: bool)
    | Authorizing
    | Writing
    | Referencing(bytes: seq<int>, written: nat)
    | Finishing
    | Flushing
    | Unflagging

  /** The playback worker's own fields: the pending frame is buffer from offset on. */
  datatype Player = Player(
    point: PlaybackPoint,
    buffer: seq<Piece>,
    offset: nat,
    frames: nat,
    source: Source,
    generation: nat)

  /** Holding: connected when checked, its frame not yet written. */
  datatype CapturePoint = Watching | Holding(bytes: seq<int>)

  datatype SendPoint = Listening | Sending | EmptyingCapture | EmptyingReference

  /** Where the control owner stands in ending or flushing a session. */
  datatype ControlPoint =
    | Free
    | Clearing
    | CaptureBarrier
    | PlaybackFlush(ok: bool)
    | PlaybackFlushing(ok: bool)
    | SendFlush(ok: bool)
    | SendFlushing(ok: bool)
    | Returned(ok: bool)

  /** Which workers have been flushed since RTC was last connected. */
  datatype Flushed = Flushed(capture: bool, playback: bool, send: bool)

  /** The atomic flags and counters, and the switches of the sound settings. */
  datatype Flags = Flags(
    running: bool,
    connected: bool,
    clearPending: bool,
    muted: bool,
    shaping: bool,
    disconnecting: bool,
    announcing: bool,
    announceGeneration: nat,
    session: nat)

  datatype Mic = Mic(point: CapturePoint, ring: seq<int>)

  /** live: RTC was connected when the flush under way began; forgot: some flush took back the word
      of a disconnect with sound in the ring that it had not drained. */
  datatype Owner = Owner(control: ControlPoint, flushed: Flushed, live: bool, forgot: bool)

  /** All bytes accepted from RTC, spoken, and given to the echo canceller; and all bytes of
      announcements that the device took, as it was handed them. */
  datatype History = History(
    accepted: seq<Piece>, spoken: seq<Out>, referenced: seq<int>, prompted: seq<int>)

  datatype Media = Media(
    flags: Flags,
    mic: Mic,
    player: Player,
    remote: seq<Piece>,
    reference: seq<int>,
    sendPoint: SendPoint,
    owner: Owner,
    heard: History)

  // ---- Bookkeeping of flushes ----

  /** RTC has been down since the flush began. */
  predicate Silent(m: Media) {
    !m.flags.connected && !m.owner.live
  }

  /** A send flush counts only after those of the workers that feed it. */
  function CaptureFlushed(m: Media): Flushed {
    Flushed(Silent(m), m.owner.flushed.playback, m.owner.flushed.send && m.owner.flushed.capture)
  }

  function PlaybackFlushed(m: Media): Flushed {
    Flushed(m.owner.flushed.capture, Silent(m), m.owner.flushed.send && m.owner.flushed.playback)
  }

  // ---- The playback worker ----

  /** What a playback step may meet: sound of the announcement, the gained bytes, and how
      much the device takes. */
  datatype Hearing = Hearing(
    pcm: seq<int>,
    pcmFrames: int,
    stillAnnouncing: bool,
    shaped: seq<int>,
    written: int)

  function Discard(p: Player): Player {
    p.(offset := 0, frames := 0, source := NoSource)
  }

  function At(p: Player, point: PlaybackPoint): Player {
    p.(point := point)
  }

  function Chunk(m: Media): nat {
    if |m.remote| < FRAME_BYTES then |m.remote| else FRAME_BYTES
  }

  /** One read of a draining loop that uses the pending frame as scratch. */
  function DrainOnce(m: Media): Media
    requires |m.player.buffer| == FRAME_BYTES
  {
    m.(remote := m.remote[Chunk(m)..],
       player := m.player.(buffer := m.remote[..Chunk(m)] + m.player.buffer[Chunk(m)..]))
  }

  function Bytes(s: seq<int>, n: nat): seq<int> {
    seq(n, i requires 0 <= i < n => if i < |s| then s[i] else 0)
  }

  function Prompts(s: seq<int>): seq<Piece> {
    seq(|s|, i requires 0 <= i < |s| => Prompt(s[i]))
  }

  /** Fills the empty pending frame; the announcement wins. A worker that finds nothing rests. */
  function Prepare(m: Media, generation: nat, announcing: bool, h: Hearing): Media {
    if announcing then PrepareAnnouncement(m, h)
    else if |m.remote| < FRAME_BYTES then m.(player := At(m.player, Resting))
    else RoomToReference(TakeFrame(m, generation))
  }

  function PrepareAnnouncement(m: Media, h: Hearing): Media {
    var filled := m.player.(buffer := Prompts(Bytes(h.pcm, FRAME_BYTES)),
                            generation := m.flags.announceGeneration);
    var p :=
      if !m.flags.announcing || h.pcmFrames > FRAME_SAMPLES || h.pcmFrames <= 0 then At(filled, Resting)
      else filled.(offset := 0, frames := FRAME_SAMPLES, source := Announcement, point := Authorizing);
    m.(flags := m.flags.(announcing := m.flags.announcing && h.stillAnnouncing), player := p)
  }

  function TakeFrame(m: Media, generation: nat): Media
    requires |m.remote| >= FRAME_BYTES
  {
    m.(remote := m.remote[FRAME_BYTES..],
       player := m.player.(buffer := m.remote[..FRAME_BYTES], generation := generation, offset := 0,
                           frames := FRAME_SAMPLES, source := Remote))
  }

  /** RTC sound waits until its reference fits. */
  function RoomToReference(m: Media): Media {
    m.(player := At(m.player,
      if m.player.source == Remote && RING_BYTES - |m.reference| < m.player.frames * SAMPLE_BYTES
      then Resting else Authorizing))
  }

  function Values(s: seq<Piece>): seq<int> {
    seq(|s|, i requires 0 <= i < |s| => s[i].value)
  }

  /** The frames still to be written. */
  function Left(p: Player): int {
    if p.point.Referencing? then p.frames - p.point.written else p.frames
  }

  /** The bytes still to be written. */
  function Rest(p: Player): seq<Piece> {
    if 0 <= Left(p) && (p.offset + Left(p)) * SAMPLE_BYTES <= |p.buffer| then
      p.buffer[p.offset * SAMPLE_BYTES..(p.offset + Left(p)) * SAMPLE_BYTES]
    else []
  }

  /** What is handed to the device for the pending bytes. */
  function WriteData(m: Media, h: Hearing): seq<int> {
    var rest := Rest(m.player);
    if m.flags.muted then Bytes([], |rest|)
    else if m.flags.shaping then Bytes(h.shaped, |rest|)
    else Values(rest)
  }

  function Outs(pieces: seq<Piece>, values: seq<int>, m: Media): seq<Out>
    requires |pieces| == |values|
  {
    var f := m.flags;
    seq(|pieces|, i requires 0 <= i < |pieces| =>
      Out(pieces[i], values[i], !f.muted && !f.shaping, f.session, f.clearPending || !f.running))
  }

  function Write(m: Media, h: Hearing): Media {
    var p := m.player;
    if h.written < 0 || h.written > p.frames then m.(player := At(Discard(p), Resting))
    else
      var n := h.written * SAMPLE_BYTES;
      var rest, data := Rest(p), WriteData(m, h);
      var moved := p.(offset := p.offset + h.written);
      if p.source == Remote && n <= |rest| then
        m.(heard := m.heard.(spoken := m.heard.spoken + Outs(rest[..n], data[..n], m)),
           player := At(moved, Referencing(data[..n], h.written)))
      else
        m.(heard := m.heard.(prompted := m.heard.prompted +
             (if p.source == Announcement && n <= |rest| then data[..n] else [])),
           player := At(moved, Referencing([], h.written)))
  }

  /** The device's share of RTC sound goes to the echo canceller; failing that, RTC stops. */
  function Reference(m: Media, bytes: seq<int>): Media {
    var p := m.player.(frames := if Left(m.player) >= 0 then Left(m.player) else 0, point := Finishing);
    if bytes == [] then m.(player := p)
    else if RING_BYTES - |m.reference| < |bytes| then m.(flags := m.flags.(connected := false), player := p)
    else
      m.(reference := m.reference + bytes,
         heard := m.heard.(referenced := m.heard.referenced + bytes),
         player := p)
  }

  function Begin(m: Media): Media {
    if m.flags.running then m.(player := At(m.player, GenerationRead(m.flags.announceGeneration))) else m
  }

  /** Notices a disconnect or a change of announcement. */
  function Notice(m: Media, generation: nat): Media {
    if m.flags.clearPending || m.player.generation != generation then
      m.(flags := m.flags.(clearPending := false), player := At(m.player, Draining(generation)))
    else m.(player := At(m.player, Drained(generation)))
  }

  function Drain(m: Media, generation: nat): Media {
    if m.remote != [] && |m.player.buffer| == FRAME_BYTES then DrainOnce(m)
    else m.(player := At(Discard(m.player), Drained(generation)).(generation := generation))
  }

  function LookForAnnouncement(m: Media, generation: nat): Media {
    m.(player := At(m.player,
      if m.flags.announcing then Silencing(generation) else Preparing(generation, false)))
  }

  /** An announcement silences RTC sound, in the ring and in the pending frame. */
  function Silence(m: Media, generation: nat): Media {
    if m.remote != [] then m.(remote := m.remote[Chunk(m)..])
    else
      var p := if m.player.frames > 0 && m.player.source != Announcement then Discard(m.player) else m.player;
      m.(player := At(p, Preparing(generation, true)))
  }

  function Authorize(m: Media): Media {
    if m.flags.announceGeneration != m.player.generation then m.(player := At(Discard(m.player), Resting))
    else m.(player := At(m.player, Writing))
  }

  function Finish(m: Media): Media {
    var p :=
      if m.player.frames == 0 || m.flags.announceGeneration != m.player.generation then Discard(m.player)
      else m.player;
    m.(player := At(p, Resting))
  }

  function Flush(m: Media): Media {
    if m.remote != [] && |m.player.buffer| == FRAME_BYTES then DrainOnce(m)
    else m.(player := At(Discard(m.player), Unflagging).(generation := m.flags.announceGeneration))
  }

  /** A flush about to end finds a disconnect noted, and sound come in since it drained. */
  predicate Forgets(m: Media) {
    m.flags.clearPending && m.remote != []
  }

  function Unflag(m: Media): Media {
    var c := m.owner.control;
    m.(flags := m.flags.(clearPending := false),
       player := At(m.player, Resting),
       owner := m.owner.(control := if c.PlaybackFlushing? then SendFlush(c.ok) else c,
                         flushed := PlaybackFlushed(m),
                         forgot := m.owner.forgot || Forgets(m)))
  }

  /** The next step of playback_timer, or of the flush that runs on its worker. */
  function PlaybackStep(m: Media, h: Hearing): Media {
    match m.player.point
    case Resting => Begin(m)
    case GenerationRead(g) => Notice(m, g)
    case Draining(g) => Drain(m, g)
    case Drained(g) => LookForAnnouncement(m, g)
    case Silencing(g) => Silence(m, g)
    case Preparing(g, announcing) =>
      if m.player.frames == 0 then Prepare(m, g, announcing, h) else RoomToReference(m)
    case Authorizing => Authorize(m)
    case Writing => Write(m, h)
    case Referencing(bytes, written) => Reference(m, bytes)
    case Finishing => Finish(m)
    case Flushing => Flush(m)
    case Unflagging => Unflag(m)
  }

  // ---- Capture and sending ----

  function CaptureRead(m: Media, bytes: seq<int>): Media {
    if m.mic.point.Watching? && m.flags.running && 0 < |bytes| <= FRAME_BYTES && m.flags.connected then
      m.(mic := m.mic.(point := Holding(bytes)))
    else m
  }

  function CaptureWrite(m: Media): Media {
    if m.mic.point.Watching? then m
    else
      var bytes := m.mic.point.bytes;
      var done := m.(mic := m.mic.(point := Watching));
      if RING_BYTES - |m.mic.ring| < |bytes| then done
      else done.(mic := done.mic.(ring := m.mic.ring + bytes))
  }

  function Dropped(s: seq<int>, n: nat): seq<int> {
    if |s| < n then [] else s[n..]
  }

  /** The next step of send_timer, or of the flush that runs on its worker. */
  function SendStep(m: Media): Media {
    match m.sendPoint
    case Listening =>
      if m.flags.running && m.flags.connected && |m.mic.ring| >= FRAME_BYTES then m.(sendPoint := Sending)
      else m
    case Sending =>
      var sent := m.(sendPoint := Listening, mic := m.mic.(ring := Dropped(m.mic.ring, FRAME_BYTES)));
      if |m.reference| >= FRAME_BYTES then sent.(reference := m.reference[FRAME_BYTES..]) else sent
    case EmptyingCapture =>
      if m.mic.ring != [] then m.(mic := m.mic.(ring := Dropped(m.mic.ring, FRAME_BYTES)))
      else m.(sendPoint := EmptyingReference)
    case EmptyingReference =>
      if m.reference != [] then m.(reference := Dropped(m.reference, FRAME_BYTES))
      else
        var c := m.owner.control;
        m.(sendPoint := Listening,
           owner := m.owner.(control := if c.SendFlushing? then Returned(c.ok) else c,
                             flushed := m.owner.flushed.(send := Silent(m))))
  }

  // ---- RTC callbacks ----

  function Tagged(m: Media, data: seq<int>): seq<Piece> {
    seq(|data|, i requires 0 <= i < |data| => Rtc(m.flags.session, |m.heard.accepted| + i, data[i]))
  }

  function Push(m: Media, data: seq<int>): Media {
    if data == [] || !m.flags.running || !m.flags.connected || m.flags.clearPending ||
       m.flags.announcing || m.flags.disconnecting ||
       |data| > INT_MAX || RING_BYTES - |m.remote| < |data| then m
    else
      m.(remote := m.remote + Tagged(m, data),
         heard := m.heard.(accepted := m.heard.accepted + Tagged(m, data)))
  }

  /** RTC joins only while the control owner is not ending or flushing a session. */
  function Connect(m: Media): Media {
    if m.flags.disconnecting || !(m.owner.control.Free? || m.owner.control.Returned?) then m
    else
      var session := if m.flags.connected then m.flags.session else m.flags.session + 1;
      m.(flags := m.flags.(connected := true, session := session),
         owner := m.owner.(control := Free, flushed := Flushed(false, false, false)))
  }

  /** set_rtc_connected(false) from an RTC callback: two stores. */
  function Disconnect(m: Media): Media {
    if m.flags.disconnecting then m.(flags := m.flags.(disconnecting := false, clearPending := true))
    else m.(flags := m.flags.(disconnecting := true, connected := false))
  }

  // ---- The control owner ----

  function BeginEnd(m: Media): Media {
    if (m.owner.control.Free? || m.owner.control.Returned?) && !m.flags.disconnecting then
      m.(flags := m.flags.(connected := false), owner := m.owner.(control := Clearing, live := false))
    else m
  }

  /** A flush on its own, meant for the time before RTC is joined. */
  function BeginFlush(m: Media): Media {
    if (m.owner.control.Free? || m.owner.control.Returned?) && !m.flags.disconnecting then
      m.(owner := m.owner.(control := CaptureBarrier, live := m.flags.connected))
    else m
  }

  /** ok: whether the call onto the other worker could be made. Such a call runs between that
      worker's own callbacks. */
  function ControlStep(m: Media, ok: bool): Media {
    match m.owner.control
    case Clearing => m.(flags := m.flags.(clearPending := true), owner := m.owner.(control := CaptureBarrier))
    case CaptureBarrier =>
      if !ok then m.(owner := m.owner.(control := PlaybackFlush(false)))
      else if m.mic.point.Watching? then
        m.(owner := m.owner.(control := PlaybackFlush(true), flushed := CaptureFlushed(m)))
      else m
    case PlaybackFlush(fine) =>
      if !ok then m.(owner := m.owner.(control := SendFlush(false)))
      else if m.player.point.Resting? then
        m.(owner := m.owner.(control := PlaybackFlushing(fine)), player := At(m.player, Flushing))
      else m
    case SendFlush(fine) =>
      if !ok then m.(owner := m.owner.(control := Returned(false)))
      else if m.sendPoint.Listening? then
        m.(owner := m.owner.(control := SendFlushing(fine)), sendPoint := EmptyingCapture)
      else m
    case _ => m
  }

  // ---- The announcement ----

  /** Playing and stopping a prompt both publish a new generation. */
  function Announce(m: Media, on: bool): Media {
    m.(flags := m.flags.(announcing := on, announceGeneration := m.flags.announceGeneration + 1))
  }

  // ---- All steps ----

  datatype Step =
    | Playback(hearing: Hearing)
    | Capturing(bytes: seq<int>)
    | Captured
    | Send
    | Pushing(data: seq<int>)
    | Connecting
    | Disconnecting
    | EndSession
    | FlushSession
    | Control(ok: bool)
    | PlayPrompt
    | StopPrompt
    | Mute(on: bool)
    | Shape(on: bool)
    | Stop

  function Next(m: Media, s: Step): Media {
    match s
    case Playback(h) => PlaybackStep(m, h)
    case Capturing(bytes) => CaptureRead(m, bytes)
    case Captured => CaptureWrite(m)
    case Send => SendStep(m)
    case Pushing(data) => Push(m, data)
    case Connecting => Connect(m)
    case Disconnecting => Disconnect(m)
    case EndSession => BeginEnd(m)
    case FlushSession => BeginFlush(m)
    case Control(ok) => ControlStep(m, ok)
    case PlayPrompt => Announce(m, true)
    case StopPrompt => Announce(m, false)
    case Mute(on) => m.(flags := m.flags.(muted := on))
    case Shape(on) => m.(flags := m.flags.(shaping := on))
    case Stop => m.(flags := m.flags.(running := false, connected := false))
  }

  function Run(m: Media, steps: seq<Step>): Media {
    if steps == [] then m else Next(Run(m, steps[..|steps| - 1]), steps[|steps| - 1])
  }

  function Started(): Media {
    Media(
      Flags(true, false, false, false, false, false, false, 0, 0),
      Mic(Watching, []),
      Player(Resting, seq(FRAME_BYTES, i => Prompt(0)), 0, 0, NoSource, 0),
      [], [], Listening, Owner(Free, Flushed(false, false, false), false, false), History([], [], [], []))
  }
}
