/** One callback of a media worker, with what the other threads do in the gaps between its steps
    (components/mybot/src/media/mybot_media_pipeline.c). */
module MediaCallbacks {
  import opened MediaProtocol
  import opened MediaInvariants

  /** What the other threads do in the next gap. */
  function Gap(schedule: seq<seq<Step>>): seq<Step> {
    if schedule == [] then [] else schedule[0]
  }

  function Later(schedule: seq<seq<Step>>): seq<seq<Step>> {
    if schedule == [] then [] else schedule[1..]
  }

  // ---- The playback worker ----

  /** What other threads do while a playback callback runs. */
  predicate BesidePlayback(steps: seq<Step>) {
    forall i :: 0 <= i < |steps| ==> !steps[i].Playback?
  }

  predicate AllBesidePlayback(schedule: seq<seq<Step>>) {
    forall i :: 0 <= i < |schedule| ==> BesidePlayback(schedule[i])
  }

  lemma BesidePlaybackStep(m: Media, s: Step)
    requires !s.Playback? && !m.player.point.Resting?
    ensures Next(m, s).player == m.player
  {
  }

  lemma {:induction false} BesidePlaybackKeeps(m: Media, steps: seq<Step>)
    requires BesidePlayback(steps) && !m.player.point.Resting?
    ensures Run(m, steps).player == m.player
    decreases |steps|
  {
    hide Next;
    if steps != [] {
      BesidePlaybackKeeps(m, steps[..|steps| - 1]);
      BesidePlaybackStep(Run(m, steps[..|steps| - 1]), steps[|steps| - 1]);
    }
  }

  /** How far a playback callback is from its end. */
  function Rank(point: PlaybackPoint): nat {
    match point
    case Resting => 0
    case Finishing => 1
    case Referencing(_, _) => 2
    case Writing => 3
    case Authorizing => 4
    case Preparing(_, _) => 5
    case Silencing(_) => 6
    case Drained(_) => 7
    case Draining(_) => 8
    case GenerationRead(_) => 9
    case Unflagging => 1
    case Flushing => 2
  }

  lemma PlaybackProgress(m: Media, h: Hearing)
    requires !m.player.point.Resting?
    ensures var b := PlaybackStep(m, h);
      || Rank(b.player.point) < Rank(m.player.point)
      || (b.player.point == m.player.point && |b.remote| < |m.remote|)
  {
    hide Rest, WriteData, Outs, Bytes, Prompts;
  }

  /** The rest of a callback: before each step of its own, the others' gap. */
  function Callback(m: Media, h: Hearing, schedule: seq<seq<Step>>): seq<Step>
    requires AllBesidePlayback(schedule)
    decreases |schedule|, Rank(m.player.point), |m.remote|
  {
    if m.player.point.Resting? then []
    else
      var a := Run(m, Gap(schedule));
      BesidePlaybackKeeps(m, Gap(schedule));
      PlaybackProgress(a, h);
      Gap(schedule) + [Playback(h)] + Callback(PlaybackStep(a, h), h, Later(schedule))
  }

  /** Where the rest of a callback leads when no other thread acts. */
  function Alone(m: Media, h: Hearing): Media {
    Run(m, Callback(m, h, []))
  }

  lemma AloneSteps(m: Media, h: Hearing)
    ensures m.player.point.Resting? ==> Alone(m, h) == m
    ensures !m.player.point.Resting? ==> Alone(m, h) == Alone(PlaybackStep(m, h), h)
  {
    hide PlaybackStep;
    if !m.player.point.Resting? {
      var b := PlaybackStep(m, h);
      assert Callback(m, h, []) == [Playback(h)] + Callback(b, h, []);
      RunAppend(m, [Playback(h)], Callback(b, h, []));
      assert [Playback(h)][..0] == [];
      assert Run(m, [Playback(h)]) == b;
    }
  }

  /** A resting worker with a frame before it and nothing to notice. */
  predicate FrameWaits(m: Media) {
    && m.player.point.Resting? && m.player.frames == 0
    && m.flags.running && !m.flags.clearPending && !m.flags.announcing
    && m.player.generation == m.flags.announceGeneration
    && |m.remote| >= FRAME_BYTES && |m.reference| + FRAME_BYTES <= RING_BYTES
  }

  function Twice(m: Media, h: Hearing): Media {
    PlaybackStep(PlaybackStep(m, h), h)
  }

  function Thrice(m: Media, h: Hearing): Media {
    PlaybackStep(Twice(m, h), h)
  }

  function Found(m: Media): Media {
    m.(player := At(m.player, Preparing(m.flags.announceGeneration, false)))
  }

  /** The oldest frame of the ring is pending and may be written. */
  function Framed(m: Media): Media
    requires |m.remote| >= FRAME_BYTES
  {
    m.(remote := m.remote[FRAME_BYTES..],
       player := Player(Writing, m.remote[..FRAME_BYTES], 0, FRAME_SAMPLES, Remote, m.flags.announceGeneration))
  }

  lemma FrameFound(m: Media, h: Hearing)
    requires FrameWaits(m)
    ensures Thrice(m, h) == Found(m)
    ensures !PlaybackStep(m, h).player.point.Resting? && !Twice(m, h).player.point.Resting?
  {
    hide Write, Reference, Finish, Drain, Silence, Flush, Unflag, Prepare, RoomToReference, Authorize;
  }

  lemma FrameTaken(m: Media, h: Hearing)
    requires FrameWaits(m)
    ensures Twice(Found(m), h) == Framed(m)
    ensures !PlaybackStep(Found(m), h).player.point.Resting?
  {
    hide Begin, Notice, LookForAnnouncement, Write, Reference, Finish, Drain, Silence, Flush, Unflag;
    hide PrepareAnnouncement;
  }

  /** What the device is handed for the first frame of the ring. */
  function Sounding(m: Media, h: Hearing): (data: seq<int>)
    requires |m.remote| >= FRAME_BYTES
  {
    if m.flags.muted then Bytes([], FRAME_BYTES)
    else if m.flags.shaping then Bytes(h.shaped, FRAME_BYTES)
    else Values(m.remote[..FRAME_BYTES])
  }

  /** The frame was pending in m; b is the end of the callback. */
  predicate Played(m: Media, h: Hearing, b: Media)
    requires |m.remote| >= FRAME_BYTES && 0 <= h.written <= FRAME_SAMPLES
  {
    var n := h.written * SAMPLE_BYTES;
    && |Sounding(m, h)| == FRAME_BYTES
    && b.heard.spoken == m.heard.spoken + Outs(m.remote[..n], Sounding(m, h)[..n], m)
    && b.reference == m.reference + Sounding(m, h)[..n]
    && Held(b) == m.remote[n..]
  }

  lemma FrameWritten(m: Media, h: Hearing)
    requires FrameWaits(m) && 0 <= h.written <= FRAME_SAMPLES
    ensures var b := Write(Framed(m), h);
      var n := h.written * SAMPLE_BYTES;
      && Played(m, h, b.(reference := m.reference + Sounding(m, h)[..n]))
      && b == Framed(m).(heard := b.heard, player := At(Framed(m).player, b.player.point).(offset := h.written))
      && b.player.point == Referencing(Sounding(m, h)[..n], h.written)
  {
    var w := Framed(m);
    WriteForm(w, h);
    WriteLine(w, h);
    assert Rest(w.player) == m.remote[..FRAME_BYTES];
    assert WriteData(w, h) == Sounding(m, h);
    var n := h.written * SAMPLE_BYTES;
    assert m.remote[..FRAME_BYTES][..n] == m.remote[..n];
    assert m.remote[..FRAME_BYTES] + m.remote[FRAME_BYTES..] == m.remote;
    assert Outs(m.remote[..n], Sounding(m, h)[..n], m) == Outs(m.remote[..n], Sounding(m, h)[..n], w);
    hide Write, WriteData, Sounding, Outs, Rest, Line;
  }

  lemma FrameEnds(m: Media, h: Hearing)
    requires Inv(m) && m.player.point.Referencing? && m.player.source == Remote
    requires |m.reference| + |m.player.point.bytes| <= RING_BYTES
    ensures PlaybackStep(m, h).player.point.Finishing?
    ensures var b := Twice(m, h);
      && b.player.point.Resting?
      && b.reference == m.reference + m.player.point.bytes
      && b.heard.spoken == m.heard.spoken
      && (m.player.generation == m.flags.announceGeneration ==> Held(b) == Held(m))
  {
    var a := Reference(m, m.player.point.bytes);
    HeldSame(m, a);
    ReferenceEnds(m);
    FinishEnds(a);
    hide Held, Reference, Finish, Inv, HeldRest;
  }

  lemma ReferenceEnds(m: Media)
    requires PlayerOk(m.player) && m.player.point.Referencing?
    requires |m.reference| + |m.player.point.bytes| <= RING_BYTES
    ensures var a := Reference(m, m.player.point.bytes);
      && a.player.point.Finishing? && PlayerOk(a.player) && a.player.source == m.player.source
      && a.player.generation == m.player.generation && a.flags == m.flags
      && a.reference == m.reference + m.player.point.bytes
      && a.heard.spoken == m.heard.spoken
  {
  }

  lemma FinishEnds(m: Media)
    requires PlayerOk(m.player) && m.player.point.Finishing?
    ensures var b := Finish(m);
      && b.player.point.Resting? && b.reference == m.reference && b.heard == m.heard
      && (m.player.generation == m.flags.announceGeneration ==> Held(b) == Held(m))
  {
  }

  lemma FramedKeeps(m: Media, h: Hearing)
    requires Inv(m) && FrameWaits(m) && 0 <= h.written <= FRAME_SAMPLES
    ensures Inv(Write(Framed(m), h))
  {
    hide Inv, PlaybackStep, Write;
    FrameFound(m, h);
    PlaybackStepKeeps(m, h);
    PlaybackStepKeeps(PlaybackStep(m, h), h);
    PlaybackStepKeeps(Twice(m, h), h);
    hide FrameWaits;
    FrameTaken(m, h);
    PlaybackStepKeeps(Found(m), h);
    PlaybackStepKeeps(PlaybackStep(Found(m), h), h);
    WriteKeeps(Framed(m), h);
  }

  /** An undisturbed callback speaks as much of the oldest frame as the device takes, gives the
      echo canceller the same bytes, and holds the rest of the frame for the next callback. */
  lemma AloneSpeaks(m: Media, h: Hearing)
    requires Inv(m) && FrameWaits(m) && 0 <= h.written <= FRAME_SAMPLES
    ensures var b := Alone(PlaybackStep(m, h), h);
      b.player.point.Resting? && Played(m, h, b)
  {
    hide Inv, PlaybackStep, Alone;
    var w, v := Framed(m), Write(Framed(m), h);
    FrameFound(m, h);
    AloneSteps(PlaybackStep(m, h), h);
    AloneSteps(Twice(m, h), h);
    FrameTaken(m, h);
    AloneSteps(Found(m), h);
    AloneSteps(PlaybackStep(Found(m), h), h);
    FramedKeeps(m, h);
    FrameWritten(m, h);
    assert PlaybackStep(w, h) == v by {
      WritingWrites(w, h);
    }
    AloneSteps(w, h);
    FrameEnds(v, h);
    AloneSteps(v, h);
    AloneSteps(PlaybackStep(v, h), h);
    AloneSteps(Twice(v, h), h);
    hide Write, Held, Outs, Sounding;
  }

  lemma WritingWrites(m: Media, h: Hearing)
    requires m.player.point.Writing?
    ensures PlaybackStep(m, h) == Write(m, h)
  {
    hide Write;
  }

  /** RTC went down, or the announcement changed, since the last callback. */
  predicate MustDrain(m: Media) {
    m.flags.clearPending || m.player.generation != m.flags.announceGeneration
  }

  /** Sound is being thrown away, or has been. */
  predicate Hushed(m: Media) {
    && !m.flags.clearPending && |m.player.buffer| == FRAME_BYTES
    && !m.player.point.GenerationRead? && !m.player.point.Flushing? && !m.player.point.Unflagging?
    && (m.player.point.Draining? || (m.remote == [] && m.player.source != Remote))
  }

  lemma HushedStep(m: Media, h: Hearing)
    requires Hushed(m) && !m.player.point.Resting?
    ensures Hushed(PlaybackStep(m, h)) && PlaybackStep(m, h).heard.spoken == m.heard.spoken
  {
    if m.player.point.Preparing? {
      HushedPrepare(m, m.player.point.generation, m.player.point.announcing, h);
    }
    hide Rest, WriteData, Outs, Prepare;
  }

  lemma HushedPrepare(m: Media, generation: nat, announcing: bool, h: Hearing)
    requires Hushed(m) && m.player.point.Preparing?
    ensures Hushed(Prepare(m, generation, announcing, h))
    ensures Prepare(m, generation, announcing, h).heard.spoken == m.heard.spoken
  {
    assert |Prompts(Bytes(h.pcm, FRAME_BYTES))| == FRAME_BYTES;
    hide Bytes, Prompts, Rest;
  }

  lemma {:induction false} AloneHushed(m: Media, h: Hearing)
    requires Hushed(m)
    ensures Hushed(Alone(m, h)) && Alone(m, h).player.point.Resting?
    ensures Alone(m, h).heard.spoken == m.heard.spoken
    decreases Rank(m.player.point), |m.remote|
  {
    hide Hushed, PlaybackStep, Alone;
    AloneSteps(m, h);
    if !m.player.point.Resting? {
      HushedStep(m, h);
      PlaybackProgress(m, h);
      AloneHushed(PlaybackStep(m, h), h);
    }
  }

  /** An undisturbed callback that finds a disconnect waiting, or another announcement, throws all
      RTC sound away, in the ring and in the pending frame, and speaks none of it. */
  lemma AloneDrains(m: Media, h: Hearing)
    requires Inv(m) && m.player.point.Resting? && m.flags.running
    requires MustDrain(m)
    ensures var b := Alone(PlaybackStep(m, h), h);
      && b.player.point.Resting? && !b.flags.clearPending
      && Held(b) == [] && b.heard.spoken == m.heard.spoken
  {
    var a := Twice(m, h);
    DrainBegins(m, h);
    AloneSteps(PlaybackStep(m, h), h);
    AloneHushed(a, h);
    hide Alone, PlaybackStep, Inv, Rest;
  }

  lemma DrainBegins(m: Media, h: Hearing)
    requires PlayerOk(m.player) && m.player.point.Resting? && m.flags.running
    requires MustDrain(m)
    ensures !PlaybackStep(m, h).player.point.Resting?
    ensures Hushed(Twice(m, h)) && Twice(m, h).heard == m.heard
  {
    hide Write, Reference, Finish, Drain, Silence, Flush, Unflag, Prepare, RoomToReference, Authorize;
  }

  /** What a callback comes to when no other thread acts. */
  lemma AloneComes(m: Media, h: Hearing)
    requires Inv(m) && m.player.point.Resting? && m.flags.running
    ensures var b := Run(Begin(m), Callback(Begin(m), h, []));
      && (FrameWaits(m) && 0 <= h.written <= FRAME_SAMPLES ==> Played(m, h, b))
      && (MustDrain(m) ==> Held(b) == [] && b.heard.spoken == m.heard.spoken && !b.flags.clearPending)
  {
    assert PlaybackStep(m, h) == Begin(m);
    hide Inv, PlaybackStep, Played, Begin, Run, Callback;
    if FrameWaits(m) && 0 <= h.written <= FRAME_SAMPLES {
      AloneSpeaks(m, h);
    }
    if MustDrain(m) {
      AloneDrains(m, h);
    }
  }

  // ---- The capture worker ----

  predicate BesideCapture(steps: seq<Step>) {
    forall i :: 0 <= i < |steps| ==> !steps[i].Capturing? && !steps[i].Captured?
  }

  lemma BesideCaptureStep(m: Media, s: Step)
    requires !s.Capturing? && !s.Captured?
    ensures Next(m, s).mic.point == m.mic.point
  {
    if s.Playback? {
      PlaybackMic(m, s.hearing);
    }
    hide PlaybackStep, Dropped, Tagged;
  }

  lemma PlaybackMic(m: Media, h: Hearing)
    ensures PlaybackStep(m, h).mic == m.mic && PlaybackStep(m, h).sendPoint == m.sendPoint
  {
    hide Rest, WriteData, Outs, Bytes, Prompts;
  }

  lemma {:induction false} BesideCaptureKeeps(m: Media, steps: seq<Step>)
    requires BesideCapture(steps)
    ensures Run(m, steps).mic.point == m.mic.point
    decreases |steps|
  {
    hide Next;
    if steps != [] {
      BesideCaptureKeeps(m, steps[..|steps| - 1]);
      BesideCaptureStep(Run(m, steps[..|steps| - 1]), steps[|steps| - 1]);
    }
  }

  // ---- The send worker ----

  predicate BesideSend(steps: seq<Step>) {
    forall i :: 0 <= i < |steps| ==> !steps[i].Send?
  }

  lemma BesideSendStep(m: Media, s: Step)
    requires !s.Send? && m.sendPoint.Sending?
    ensures Next(m, s).sendPoint.Sending? && m.mic.ring <= Next(m, s).mic.ring
  {
    if s.Playback? {
      PlaybackMic(m, s.hearing);
    }
    hide PlaybackStep, Dropped, Tagged;
  }

  /** Only the send worker takes captured sound away: a frame it has seen stays at the front. */
  lemma {:induction false} BesideSendKeeps(m: Media, steps: seq<Step>)
    requires BesideSend(steps) && m.sendPoint.Sending?
    ensures Run(m, steps).sendPoint.Sending? && m.mic.ring <= Run(m, steps).mic.ring
    decreases |steps|
  {
    hide Next;
    if steps != [] {
      BesideSendKeeps(m, steps[..|steps| - 1]);
      BesideSendStep(Run(m, steps[..|steps| - 1]), steps[|steps| - 1]);
    }
  }

  // ---- RTC callbacks ----

  predicate NoDisconnect(steps: seq<Step>) {
    forall i :: 0 <= i < |steps| ==> !steps[i].Disconnecting?
  }

  lemma HalfDownStep(m: Media, s: Step)
    requires m.flags.disconnecting && !m.flags.connected && !s.Disconnecting?
    ensures Next(m, s).flags.disconnecting && !Next(m, s).flags.connected
  {
    if s.Playback? {
      PlaybackStaysDown(m, s.hearing);
    }
    hide PlaybackStep, Dropped, Tagged;
  }

  /** RTC is up after b only if it was after a, and a disconnect is under way alike. */
  predicate StaysDown(a: Media, b: Media) {
    (b.flags.connected ==> a.flags.connected) && b.flags.disconnecting == a.flags.disconnecting
  }

  lemma PlaybackStaysDown(m: Media, h: Hearing)
    ensures StaysDown(m, PlaybackStep(m, h))
  {
    hide StaysDown, Begin, Notice, Drain, LookForAnnouncement, Silence, Prepare, RoomToReference;
    hide Authorize, Write, Reference, Finish, Flush, Unflag;
    match m.player.point
    case Resting => StartStaysDown(m, 0);
    case GenerationRead(g) => StartStaysDown(m, g);
    case Draining(g) => DrainStaysDown(m, g);
    case Drained(g) => StartStaysDown(m, g);
    case Silencing(g) => DrainStaysDown(m, g);
    case Preparing(g, announcing) => PrepareStaysDown(m, g, announcing, h);
    case Writing => WriteStaysDown(m, h);
    case Referencing(bytes, _) => ReferenceStaysDown(m, bytes);
    case Authorizing => EndStaysDown(m);
    case Finishing => EndStaysDown(m);
    case Flushing => DrainStaysDown(m, 0);
    case Unflagging => EndStaysDown(m);
  }

  lemma StartStaysDown(m: Media, g: nat)
    ensures StaysDown(m, Begin(m)) && StaysDown(m, Notice(m, g)) && StaysDown(m, LookForAnnouncement(m, g))
  {
  }

  lemma DrainStaysDown(m: Media, g: nat)
    ensures StaysDown(m, Drain(m, g)) && StaysDown(m, Silence(m, g)) && StaysDown(m, Flush(m))
  {
  }

  lemma PrepareStaysDown(m: Media, g: nat, announcing: bool, h: Hearing)
    ensures StaysDown(m, Prepare(m, g, announcing, h)) && StaysDown(m, RoomToReference(m))
  {
    hide Bytes, Prompts;
  }

  lemma WriteStaysDown(m: Media, h: Hearing)
    ensures StaysDown(m, Write(m, h))
  {
    hide Rest, WriteData, Outs;
  }

  lemma ReferenceStaysDown(m: Media, bytes: seq<int>)
    ensures StaysDown(m, Reference(m, bytes))
  {
  }

  lemma EndStaysDown(m: Media)
    ensures StaysDown(m, Authorize(m)) && StaysDown(m, Finish(m)) && StaysDown(m, Unflag(m))
  {
  }

  /** Between the two stores of a disconnect, nothing brings RTC up. */
  lemma {:induction false} HalfDown(m: Media, steps: seq<Step>)
    requires m.flags.disconnecting && !m.flags.connected && NoDisconnect(steps)
    ensures Run(m, steps).flags.disconnecting && !Run(m, steps).flags.connected
    decreases |steps|
  {
    hide Next;
    if steps != [] {
      HalfDown(m, steps[..|steps| - 1]);
      HalfDownStep(Run(m, steps[..|steps| - 1]), steps[|steps| - 1]);
    }
  }

  // ---- The control owner ----

  /** What other threads do while the control owner ends a session: RTC does not join. */
  predicate BesideOwner(steps: seq<Step>) {
    forall i :: 0 <= i < |steps| ==>
      !steps[i].Control? && !steps[i].EndSession? && !steps[i].FlushSession? && !steps[i].Connecting?
  }

  predicate AllBesideOwner(schedule: seq<seq<Step>>) {
    forall i :: 0 <= i < |schedule| ==> BesideOwner(schedule[i])
  }

  /** The owner's place changes only by its own steps and by the flushes it waits for. */
  predicate OwnerMoved(a: Owner, b: Owner) {
    && b.live == a.live
    && (|| b.control == a.control
        || (a.control.PlaybackFlushing? && b.control == SendFlush(a.control.ok))
        || (a.control.SendFlushing? && b.control == Returned(a.control.ok)))
  }

  lemma BesideOwnerStep(m: Media, s: Step)
    requires !s.Control? && !s.EndSession? && !s.FlushSession? && !s.Connecting?
    ensures OwnerMoved(m.owner, Next(m, s).owner)
  {
    hide Write, Prepare, RoomToReference, DrainOnce, Reference, Tagged, Dropped;
    if s.Playback? {
      PlaybackOwner(m, s.hearing);
    }
    hide PlaybackStep;
  }

  lemma PlaybackOwner(m: Media, h: Hearing)
    ensures OwnerMoved(m.owner, PlaybackStep(m, h).owner)
  {
    hide Rest, WriteData, Outs, Bytes, Prompts;
  }

  lemma {:induction false} BesideOwnerKeeps(m: Media, steps: seq<Step>)
    requires BesideOwner(steps)
    ensures OwnerMoved(m.owner, Run(m, steps).owner)
    decreases |steps|
  {
    hide Next;
    if steps != [] {
      BesideOwnerKeeps(m, steps[..|steps| - 1]);
      BesideOwnerStep(Run(m, steps[..|steps| - 1]), steps[|steps| - 1]);
    }
  }
}
