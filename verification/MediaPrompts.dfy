/** How announcements, and frames the device took only in part, reach the speaker
    (components/mybot/src/media/mybot_media_pipeline.c). */
module MediaPrompts {
  import opened MediaProtocol
  import opened MediaInvariants
  import opened MediaCallbacks

  /** What the device is handed for the given bytes: silence when muted, the gained bytes, or the bytes. */
  predicate Handed(m: Media, h: Hearing, bytes: seq<int>, data: seq<int>) {
    && |data| == |bytes|
    && forall i :: 0 <= i < |data| ==>
         data[i] == (if m.flags.muted then 0
                     else if m.flags.shaping then (if i < |h.shaped| then h.shaped[i] else 0)
                     else bytes[i])
  }

  lemma DataHanded(m: Media, h: Hearing)
    ensures Handed(m, h, Values(Rest(m.player)), WriteData(m, h))
  {
    hide Rest;
  }

  // ---- Getting ready to write ----

  /** A resting worker with nothing to notice. */
  predicate Undisturbed(m: Media) {
    && m.player.point.Resting? && m.flags.running && !m.flags.clearPending
    && m.player.generation == m.flags.announceGeneration
  }

  function Looked(m: Media): Media {
    m.(player := At(m.player,
      if m.flags.announcing then Silencing(m.flags.announceGeneration)
      else Preparing(m.flags.announceGeneration, false)))
  }

  lemma ThriceLooks(m: Media, h: Hearing)
    requires Undisturbed(m)
    ensures Thrice(m, h) == Looked(m)
    ensures !PlaybackStep(m, h).player.point.Resting? && !Twice(m, h).player.point.Resting?
  {
    hide Write, Reference, Finish, Drain, Silence, Flush, Unflag, Prepare, RoomToReference, Authorize;
  }

  lemma AloneLooks(m: Media, h: Hearing)
    requires Undisturbed(m)
    ensures Alone(PlaybackStep(m, h), h) == Alone(Looked(m), h)
  {
    hide PlaybackStep, Alone, Looked;
    ThriceLooks(m, h);
    AloneSteps(PlaybackStep(m, h), h);
    AloneSteps(Twice(m, h), h);
  }

  /** An announcement empties the ring, and keeps no frame but its own. */
  lemma {:induction false} AloneSilences(m: Media, h: Hearing)
    requires m.player.point.Silencing? && (m.player.frames == 0 || m.player.source == Announcement)
    ensures Alone(m, h) ==
      Alone(m.(remote := [], player := At(m.player, Preparing(m.player.point.generation, true))), h)
    decreases |m.remote|
  {
    hide Alone;
    AloneSteps(m, h);
    var b := PlaybackStep(m, h);
    SilencingStep(m, h);
    if m.remote != [] {
      AloneSilences(b, h);
      assert b.(remote := []) == m.(remote := []);
      assert b.(remote := [], player := At(b.player, Preparing(b.player.point.generation, true))) ==
        m.(remote := [], player := At(m.player, Preparing(m.player.point.generation, true)));
    }
    hide PlaybackStep;
  }

  lemma SilencingStep(m: Media, h: Hearing)
    requires m.player.point.Silencing? && (m.player.frames == 0 || m.player.source == Announcement)
    ensures m.remote != [] ==>
      PlaybackStep(m, h) == m.(remote := m.remote[Chunk(m)..]) && 0 < Chunk(m) <= |m.remote|
    ensures m.remote == [] ==>
      PlaybackStep(m, h) == m.(player := At(m.player, Preparing(m.player.point.generation, true)))
  {
  }

  /** A pending frame for which there is room is written next. */
  lemma AlonePending(m: Media, h: Hearing)
    requires m.player.point.Preparing? && m.player.frames > 0
    requires m.player.generation == m.flags.announceGeneration
    requires m.player.source == Remote ==> |m.reference| + m.player.frames * SAMPLE_BYTES <= RING_BYTES
    ensures Alone(m, h) == Alone(m.(player := At(m.player, Writing)), h)
  {
    hide Alone;
    PendingSteps(m, h);
    AloneSteps(m, h);
    AloneSteps(PlaybackStep(m, h), h);
    hide PlaybackStep;
  }

  lemma PendingSteps(m: Media, h: Hearing)
    requires m.player.point.Preparing? && m.player.frames > 0
    requires m.player.generation == m.flags.announceGeneration
    requires m.player.source == Remote ==> |m.reference| + m.player.frames * SAMPLE_BYTES <= RING_BYTES
    ensures PlaybackStep(m, h) == m.(player := At(m.player, Authorizing))
    ensures Twice(m, h) == m.(player := At(m.player, Writing))
  {
    hide Begin, Notice, Drain, LookForAnnouncement, Silence, Prepare, Write, Reference, Finish, Flush, Unflag;
  }

  // ---- Writing an announcement ----

  /** The frame pending after n more of its frames were taken. */
  function Less(p: Player, n: nat): Player {
    if n >= p.frames then At(Discard(p), Resting)
    else At(p, Resting).(offset := p.offset + n, frames := p.frames - n)
  }

  lemma AloneWritesPrompt(m: Media, h: Hearing)
    requires PlayerOk(m.player) && m.player.point.Writing? && m.player.source == Announcement
    requires 0 <= h.written <= m.player.frames && m.player.generation == m.flags.announceGeneration
    ensures |WriteData(m, h)| == m.player.frames * SAMPLE_BYTES
    ensures Alone(m, h) == m.(
      player := Less(m.player, h.written),
      heard := m.heard.(prompted := m.heard.prompted + WriteData(m, h)[..h.written * SAMPLE_BYTES]))
  {
    hide Alone;
    PromptWritten(m, h);
    PromptEnds(Write(m, h), h);
    WritingWrites(m, h);
    AloneSteps(m, h);
    AloneSteps(PlaybackStep(m, h), h);
    AloneSteps(Twice(m, h), h);
    AloneSteps(Thrice(m, h), h);
    hide PlaybackStep, Write, WriteData;
  }

  lemma PromptWritten(m: Media, h: Hearing)
    requires PlayerOk(m.player) && m.player.point.Writing? && m.player.source == Announcement
    requires 0 <= h.written <= m.player.frames
    ensures |WriteData(m, h)| == m.player.frames * SAMPLE_BYTES
    ensures Write(m, h) == m.(
      player := At(m.player.(offset := m.player.offset + h.written), Referencing([], h.written)),
      heard := m.heard.(prompted := m.heard.prompted + WriteData(m, h)[..h.written * SAMPLE_BYTES]))
  {
    DataHanded(m, h);
    assert |Rest(m.player)| == m.player.frames * SAMPLE_BYTES;
    hide Rest, WriteData;
  }

  lemma PromptEnds(m: Media, h: Hearing)
    requires m.player.point.Referencing? && m.player.point.bytes == []
    requires m.player.point.written <= m.player.frames && m.player.generation == m.flags.announceGeneration
    ensures var n := m.player.point.written;
      && PlaybackStep(m, h).player.point.Finishing?
      && Twice(m, h) == m.(player :=
           if n == m.player.frames then At(Discard(m.player), Resting)
           else At(m.player, Resting).(frames := m.player.frames - n))
  {
    hide Begin, Notice, Drain, LookForAnnouncement, Silence, Prepare, RoomToReference, Authorize, Write;
    hide Flush, Unflag;
  }

  // ---- What a callback of an announcement comes to ----

  /** A fresh frame of the announcement: its samples, then silence. */
  function Frame(h: Hearing): seq<int> {
    seq(FRAME_BYTES, i requires 0 <= i < FRAME_BYTES => if i < |h.pcm| then h.pcm[i] else 0)
  }

  /** With the announcement on, a worker with nothing pending that gets samples hands the device a frame
      of them and keeps what the device does not take; RTC sound is thrown away, and none is spoken or
      given to the echo canceller. */
  lemma AloneAnnounces(m: Media, h: Hearing) returns (data: seq<int>)
    requires PlayerOk(m.player) && Undisturbed(m) && m.flags.announcing && m.player.frames == 0
    requires 0 < h.pcmFrames <= 960 && 0 <= h.written <= 960
    ensures Handed(m, h, Frame(h), data)
    ensures var b, n := Alone(PlaybackStep(m, h), h), h.written * SAMPLE_BYTES;
      && b.player.point.Resting? && b.remote == []
      && b.heard == m.heard.(prompted := m.heard.prompted + data[..n])
      && b.reference == m.reference
      && b.flags == m.flags.(announcing := h.stillAnnouncing)
      && (if h.written == 960 then b.player.frames == 0
          else b.player.source == Announcement && b.player.frames == 960 - h.written &&
               Values(Rest(b.player)) == Frame(h)[n..])
  {
    hide Alone, PlaybackStep, Prepare, Handed;
    var g := m.flags.announceGeneration;
    AloneLooks(m, h);
    AloneSilences(Looked(m), h);
    var p := m.(remote := [], player := At(m.player, Preparing(g, true)));
    var f := Fresh(m, h);
    FreshSteps(p, f, m, h);
    AloneSteps(p, h);
    AloneSteps(PlaybackStep(p, h), h);
    data := WriteData(f, h);
    AloneWritesPrompt(f, h);
    FreshData(m, h);
    DataHanded(f, h);
    if h.written < 960 {
      FreshLeft(m, h);
    }
    hide WriteData, Rest, Frame, Values;
    HandedSame(m, f, h, Frame(h), data);
  }

  lemma HandedSame(a: Media, b: Media, h: Hearing, bytes: seq<int>, data: seq<int>)
    requires b.flags.muted == a.flags.muted && b.flags.shaping == a.flags.shaping
    requires Handed(b, h, bytes, data)
    ensures Handed(a, h, bytes, data)
  {
  }

  /** The worker with a fresh frame of the announcement, about to write it. */
  function Fresh(m: Media, h: Hearing): Media {
    m.(remote := [],
       flags := m.flags.(announcing := h.stillAnnouncing),
       player := Player(Writing, Prompts(Frame(h)), 0, FRAME_SAMPLES, Announcement, m.flags.announceGeneration))
  }

  lemma FreshSteps(p: Media, f: Media, m: Media, h: Hearing)
    requires m.flags.announcing && m.player.frames == 0 && 0 < h.pcmFrames <= 960
    requires p == m.(remote := [], player := At(m.player, Preparing(m.flags.announceGeneration, true)))
    requires f == Fresh(m, h)
    ensures PlaybackStep(p, h).player.point.Authorizing? && Twice(p, h) == f
  {
    assert Bytes(h.pcm, FRAME_BYTES) == Frame(h);
    hide Begin, Notice, Drain, LookForAnnouncement, Silence, Write, Reference, Finish, Flush, Unflag;
    hide Bytes, Frame, RoomToReference;
  }

  lemma FreshData(m: Media, h: Hearing)
    ensures PlayerOk(Fresh(m, h).player)
    ensures Values(Rest(Fresh(m, h).player)) == Frame(h)
  {
    assert Rest(Fresh(m, h).player) == Prompts(Frame(h));
  }

  lemma FreshLeft(m: Media, h: Hearing)
    requires 0 <= h.written < 960
    ensures Values(Rest(Less(Fresh(m, h).player, h.written))) == Frame(h)[h.written * SAMPLE_BYTES..]
  {
    var left := Less(Fresh(m, h).player, h.written);
    assert Rest(left) == Prompts(Frame(h))[h.written * SAMPLE_BYTES..];
  }

  // ---- What a callback with a frame pending comes to ----

  /** The rest of an announcement's frame goes on where it stopped. */
  lemma AloneAnnouncesOn(m: Media, h: Hearing) returns (data: seq<int>)
    requires PlayerOk(m.player) && Undisturbed(m) && m.player.source == Announcement && m.player.frames > 0
    requires 0 <= h.written <= m.player.frames
    ensures Handed(m, h, Values(Rest(m.player)), data)
    ensures var b, n := Alone(PlaybackStep(m, h), h), h.written * SAMPLE_BYTES;
      && b == m.(player := Less(m.player, h.written),
                 remote := if m.flags.announcing then [] else m.remote,
                 heard := m.heard.(prompted := m.heard.prompted + data[..n]))
      && (h.written < m.player.frames ==> Values(Rest(b.player)) == Values(Rest(m.player))[n..])
  {
    hide Alone, PlaybackStep, Handed;
    var g := m.flags.announceGeneration;
    AloneLooks(m, h);
    var p := m;
    if m.flags.announcing {
      AloneSilences(Looked(m), h);
      p := m.(remote := []);
    }
    AlonePending(p.(player := At(m.player, Preparing(g, m.flags.announcing))), h);
    var w := p.(player := At(m.player, Writing));
    AloneWritesPrompt(w, h);
    SameRest(m, w);
    DataHanded(w, h);
    data := WriteData(w, h);
    if h.written < m.player.frames {
      RestLess(m.player, h.written);
    }
    hide WriteData, Rest, Values;
    HandedSame(m, w, h, Values(Rest(m.player)), data);
  }

  lemma SameRest(m: Media, w: Media)
    requires m.player.point.Resting? && w.player == At(m.player, Writing)
    ensures Rest(w.player) == Rest(m.player)
  {
  }

  lemma RestLess(p: Player, n: nat)
    requires PlayerOk(p) && p.point.Resting? && n < p.frames
    ensures |Rest(p)| == p.frames * SAMPLE_BYTES
    ensures Rest(Less(p, n)) == Rest(p)[n * SAMPLE_BYTES..]
    ensures Values(Rest(Less(p, n))) == Values(Rest(p))[n * SAMPLE_BYTES..]
  {
  }

  /** So does the rest of a frame of RTC sound, and the echo canceller gets the same bytes. */
  lemma AloneSpeaksOn(m: Media, h: Hearing) returns (data: seq<int>)
    requires Inv(m) && Undisturbed(m) && m.player.source == Remote && !m.flags.announcing
    requires 0 < m.player.frames && 0 <= h.written <= m.player.frames
    requires |m.reference| + m.player.frames * SAMPLE_BYTES <= RING_BYTES
    ensures |Rest(m.player)| == m.player.frames * SAMPLE_BYTES && Handed(m, h, Values(Rest(m.player)), data)
    ensures var b, n := Alone(PlaybackStep(m, h), h), h.written * SAMPLE_BYTES;
      && b.player.point.Resting?
      && b.heard.spoken == m.heard.spoken + Outs(Rest(m.player)[..n], data[..n], m)
      && b.reference == m.reference + data[..n]
      && Held(b) == Held(m)[n..]
  {
    hide Alone, PlaybackStep, Handed;
    var w := m.(player := At(m.player, Writing));
    AloneLooks(m, h);
    AlonePending(Looked(m), h);
    ResumedKeeps(m, h);
    SameRest(m, w);
    DataHanded(w, h);
    data := WriteData(w, h);
    RestLength(w.player);
    SameHandedOuts(m, w, h, data);
    ResumedEnds(w, h);
    hide WriteData, Rest, Values, Outs, Held, Inv, Looked;
    HeldResting(m, w);
  }

  lemma RestLength(p: Player)
    requires PlayerOk(p) && p.point.Writing?
    ensures |Rest(p)| == p.frames * SAMPLE_BYTES
  {
  }

  lemma SameHandedOuts(m: Media, w: Media, h: Hearing, data: seq<int>)
    requires w == m.(player := w.player) && Rest(w.player) == Rest(m.player)
    requires Handed(w, h, Values(Rest(w.player)), data)
    ensures Handed(m, h, Values(Rest(m.player)), data)
    ensures |data| == |Rest(m.player)|
    ensures forall n :: 0 <= n <= |data| ==>
      Outs(Rest(m.player)[..n], data[..n], m) == Outs(Rest(m.player)[..n], data[..n], w)
  {
    hide Rest;
  }

  lemma HeldResting(m: Media, w: Media)
    requires m.player.point.Resting? && w == m.(player := At(m.player, Writing)) && m.player.source == Remote
    ensures Held(w) == Held(m)
  {
    SameRest(m, w);
    hide Rest;
  }

  lemma ResumedKeeps(m: Media, h: Hearing)
    requires Inv(m) && Undisturbed(m) && m.player.source == Remote && !m.flags.announcing
    requires 0 < m.player.frames && |m.reference| + m.player.frames * SAMPLE_BYTES <= RING_BYTES
    ensures Inv(m.(player := At(m.player, Writing)))
  {
    hide Inv, PlaybackStep;
    ThriceLooks(m, h);
    PlaybackStepKeeps(m, h);
    PlaybackStepKeeps(PlaybackStep(m, h), h);
    PlaybackStepKeeps(Twice(m, h), h);
    PendingSteps(Looked(m), h);
    PlaybackStepKeeps(Looked(m), h);
    PlaybackStepKeeps(PlaybackStep(Looked(m), h), h);
  }

  lemma ResumedEnds(m: Media, h: Hearing)
    requires Inv(m) && m.player.point.Writing? && m.player.source == Remote
    requires m.player.generation == m.flags.announceGeneration
    requires 0 <= h.written <= m.player.frames
    requires |m.reference| + m.player.frames * SAMPLE_BYTES <= RING_BYTES
    ensures |Rest(m.player)| == |WriteData(m, h)| == m.player.frames * SAMPLE_BYTES
    ensures var b, n := Alone(m, h), h.written * SAMPLE_BYTES;
      && b.player.point.Resting?
      && b.heard.spoken == m.heard.spoken + Outs(Rest(m.player)[..n], WriteData(m, h)[..n], m)
      && b.reference == m.reference + WriteData(m, h)[..n]
      && n <= |Held(m)| && Held(b) == Held(m)[n..]
  {
    hide Alone, PlaybackStep;
    WriteLine(m, h);
    WriteForm(m, h);
    WriteKeeps(m, h);
    WritingWrites(m, h);
    var v := Write(m, h);
    AloneSteps(m, h);
    AloneSteps(v, h);
    hide Rest, WriteData, Outs, Held, Write, Line;
    FrameEnds(v, h);
    AloneSteps(PlaybackStep(v, h), h);
    AloneSteps(Twice(v, h), h);
    hide Inv;
  }

  // ---- Taking sound in ----

  /** While an announcement is on, a disconnect is noted or under way, or RTC is down, no sound comes in;
      otherwise all of it does, in the present session, if the ring has room. */
  lemma SoundComesIn(m: Media, data: seq<int>)
    ensures var b := Next(m, Pushing(data));
      if m.flags.announcing || m.flags.clearPending || m.flags.disconnecting || !m.flags.connected ||
         !m.flags.running || |m.remote| + |data| > RING_BYTES || |data| > INT_MAX then b == m
      else
        && |b.remote| == |m.remote| + |data| && m.remote <= b.remote
        && forall i :: 0 <= i < |data| ==>
             b.remote[|m.remote| + i] == Rtc(m.flags.session, |m.heard.accepted| + i, data[i])
  {
  }

  // ---- Announcements and settings ----

  /** Playing or stopping a prompt makes the next callback throw away what is pending and in the ring; a
      prompt played is then announced, one stopped is not. */
  lemma PromptsInterrupt(m: Media, s: Step)
    requires m.player.generation == m.flags.announceGeneration && (s.PlayPrompt? || s.StopPrompt?)
    ensures MustDrain(Next(m, s)) && (Next(m, s).flags.announcing <==> s.PlayPrompt?)
  {
  }

  /** Muting silences the device from the next write on, and full volume gives it the very bytes. */
  lemma SettingsHeard(m: Media, h: Hearing, bytes: seq<int>, data: seq<int>)
    ensures Handed(Next(m, Mute(true)), h, bytes, data) ==> forall i :: 0 <= i < |bytes| ==> data[i] == 0
    ensures Handed(Next(Next(m, Mute(false)), Shape(false)), h, bytes, data) ==> data == bytes
  {
  }

  // ---- Sending ----

  /** Sending takes the oldest captured frame away, and a frame of echo reference if there is a whole one. */
  lemma SendingTakesOnce(m: Media)
    requires m.sendPoint.Listening? && m.flags.running && m.flags.connected && |m.mic.ring| >= FRAME_BYTES
    ensures var b := Next(Next(m, Send), Send);
      && b.sendPoint.Listening?
      && b.mic.ring == m.mic.ring[FRAME_BYTES..]
      && b.reference == (if |m.reference| >= FRAME_BYTES then m.reference[FRAME_BYTES..] else m.reference)
      && b.player == m.player && b.remote == m.remote
  {
  }

  /** A captured frame, taken while RTC is up, goes behind those waiting if there is room. */
  lemma CapturingKeepsOrder(m: Media, bytes: seq<int>)
    requires m.mic.point.Watching?
    ensures var b := Next(Next(m, Capturing(bytes)), Captured);
      b.mic == Mic(Watching,
        if m.flags.running && m.flags.connected && 0 < |bytes| <= 1920 && |m.mic.ring| + |bytes| <= 64000
        then m.mic.ring + bytes else m.mic.ring)
  {
  }

  // ---- What an announcement's change takes away ----

  /** A frame of RTC sound that was pending is not spoken once an announcement is on. */
  lemma AloneGivesWay(m: Media, h: Hearing)
    requires PlayerOk(m.player) && Undisturbed(m) && m.flags.announcing && m.player.source == Remote
    ensures var b := Alone(PlaybackStep(m, h), h);
      b.player.point.Resting? && Held(b) == [] && b.heard.spoken == m.heard.spoken
  {
    hide Alone, PlaybackStep, Rest;
    AloneLooks(m, h);
    AloneDrops(Looked(m), h);
  }

  lemma {:induction false} AloneDrops(m: Media, h: Hearing)
    requires PlayerOk(m.player) && m.player.point.Silencing? && m.player.source == Remote && !m.flags.clearPending
    ensures var b := Alone(m, h);
      b.player.point.Resting? && Held(b) == [] && b.heard.spoken == m.heard.spoken
    decreases |m.remote|
  {
    hide Alone;
    AloneSteps(m, h);
    var b := PlaybackStep(m, h);
    DroppingStep(m, h);
    if m.remote != [] {
      AloneDrops(b, h);
    } else if b.player.source == Remote {
      EmptyFrameEnds(b, h);
    } else {
      AloneHushed(b, h);
    }
    hide PlaybackStep, Rest;
  }

  lemma DroppingStep(m: Media, h: Hearing)
    requires PlayerOk(m.player) && m.player.point.Silencing? && m.player.source == Remote
    ensures var b := PlaybackStep(m, h);
      && b.heard == m.heard && b.flags == m.flags && PlayerOk(b.player)
      && (m.remote != [] ==> b.player == m.player && |b.remote| < |m.remote|)
      && (m.remote == [] ==>
            && b.remote == [] && b.player.point == Preparing(m.player.point.generation, true)
            && (m.player.frames > 0 ==> b.player.source == NoSource && b.player.frames == 0)
            && (m.player.frames == 0 ==> b.player.source == Remote && b.player.frames == 0))
  {
    hide Rest;
  }

  /** A frame already used up counts for nothing. */
  lemma EmptyFrameEnds(m: Media, h: Hearing)
    requires PlayerOk(m.player) && m.player.point.Preparing? && m.player.point.announcing
    requires m.player.frames == 0 && m.remote == [] && !m.flags.clearPending && m.player.source == Remote
    ensures var b := Alone(m, h);
      b.player.point.Resting? && Held(b) == [] && b.heard.spoken == m.heard.spoken
  {
    hide Alone;
    AloneSteps(m, h);
    var b := PlaybackStep(m, h);
    EmptyFrameStep(m, h);
    if b.player.point.Resting? {
      AloneSteps(b, h);
    } else {
      AloneHushed(b, h);
    }
    hide PlaybackStep, Rest, Prepare;
  }

  lemma EmptyFrameStep(m: Media, h: Hearing)
    requires PlayerOk(m.player) && m.player.point.Preparing? && m.player.point.announcing
    requires m.player.frames == 0 && m.remote == [] && !m.flags.clearPending && m.player.source == Remote
    ensures var b := PlaybackStep(m, h);
      && b.heard == m.heard
      && (if b.player.point.Resting? then Held(b) == [] else Hushed(b))
  {
    assert |Prompts(Bytes(h.pcm, FRAME_BYTES))| == FRAME_BYTES;
    hide Bytes, Prompts;
  }

  /** A frame whose announcement has changed since it was prepared is not handed to the device. */
  lemma ChangedIsNotWritten(m: Media, h: Hearing)
    requires m.player.point.Authorizing? && m.player.generation != m.flags.announceGeneration
    ensures var b := Alone(m, h);
      b.player.point.Resting? && b.player.frames == 0 && b.heard == m.heard
  {
    AloneSteps(m, h);
    AloneSteps(PlaybackStep(m, h), h);
    hide Alone;
  }

  /** And of one whose announcement changes while it is written, the rest is dropped. */
  lemma ChangedIsNotResumed(m: Media, h: Hearing)
    requires m.player.point.Finishing? && m.player.generation != m.flags.announceGeneration
    ensures var b := Alone(m, h);
      b.player.point.Resting? && b.player.frames == 0 && b.heard == m.heard
  {
    AloneSteps(m, h);
    AloneSteps(PlaybackStep(m, h), h);
    hide Alone;
  }

  // ---- A change is noticed once ----

  /** The worker knows, or is about to know, the generation there is. */
  predicate Catching(m: Media) {
    var g := m.flags.announceGeneration;
    && !m.flags.clearPending
    && match m.player.point
       case GenerationRead(_) => false
       case Flushing => false
       case Unflagging => false
       case Draining(at) => at == g
       case Drained(at) => at == g && m.player.generation == g
       case Silencing(at) => at == g && m.player.generation == g
       case Preparing(at, _) => at == g && m.player.generation == g
       case _ => m.player.generation == g
  }

  lemma CatchingStep(m: Media, h: Hearing)
    requires Catching(m) && !m.player.point.Resting? && PlayerOk(m.player)
    ensures Catching(PlaybackStep(m, h))
  {
    if m.player.point.Preparing? {
      CatchingPrepare(m, m.player.point.generation, m.player.point.announcing, h);
    }
    hide Rest, WriteData, Outs, Prepare;
  }

  lemma CatchingPrepare(m: Media, g: nat, announcing: bool, h: Hearing)
    requires Catching(m) && m.player.point == Preparing(g, announcing)
    ensures Catching(Prepare(m, g, announcing, h))
  {
    hide Bytes, Prompts;
  }

  lemma {:induction false} CatchingAlone(m: Media, h: Hearing)
    requires Inv(m) && Catching(m)
    ensures Catching(Alone(m, h)) && Alone(m, h).player.point.Resting?
    decreases Rank(m.player.point), |m.remote|
  {
    AloneSteps(m, h);
    if !m.player.point.Resting? {
      assert PlayerOk(m.player);
      hide Inv, Catching, Alone, PlaybackStep;
      CatchingStep(m, h);
      PlaybackStepKeeps(m, h);
      PlaybackProgress(m, h);
      CatchingAlone(PlaybackStep(m, h), h);
    }
    hide Inv, Catching, Alone, PlaybackStep;
  }

  /** An undisturbed callback leaves nothing to notice behind: a disconnect or a new announcement empties
      the ring once. */
  lemma DrainsOnce(m: Media, h: Hearing)
    requires Inv(m) && m.player.point.Resting? && m.flags.running && MustDrain(m)
    ensures !MustDrain(Alone(PlaybackStep(m, h), h))
  {
    hide Inv, Alone;
    PlaybackStepKeeps(m, h);
    PlaybackStepKeeps(PlaybackStep(m, h), h);
    NoticedCatches(m, h);
    AloneSteps(PlaybackStep(m, h), h);
    hide PlaybackStep;
    CatchingAlone(Twice(m, h), h);
  }

  lemma NoticedCatches(m: Media, h: Hearing)
    requires m.player.point.Resting? && m.flags.running && MustDrain(m)
    ensures Catching(Twice(m, h)) && !PlaybackStep(m, h).player.point.Resting?
  {
    hide Write, Reference, Finish, Drain, Silence, Flush, Unflag, Prepare, RoomToReference, Authorize;
  }

  /** When the announcement gives no sound, or too much, nothing is handed to the device. */
  lemma AloneWithoutSound(m: Media, h: Hearing)
    requires PlayerOk(m.player) && Undisturbed(m) && m.flags.announcing && m.player.frames == 0
    requires h.pcmFrames <= 0 || h.pcmFrames > 960
    ensures var b := Alone(PlaybackStep(m, h), h);
      b.player.point.Resting? && b.player.frames == 0 && b.remote == [] && b.heard == m.heard
  {
    hide Alone, PlaybackStep;
    AloneLooks(m, h);
    AloneSilences(Looked(m), h);
    var p := m.(remote := [], player := At(m.player, Preparing(m.flags.announceGeneration, true)));
    SoundlessStep(p, h);
    AloneSteps(p, h);
    AloneSteps(PlaybackStep(p, h), h);
  }

  lemma SoundlessStep(m: Media, h: Hearing)
    requires m.player.point.Preparing? && m.player.point.announcing && m.player.frames == 0
    requires h.pcmFrames <= 0 || h.pcmFrames > 960
    ensures var b := PlaybackStep(m, h);
      b.player.point.Resting? && b.player.frames == 0 && b.remote == m.remote && b.heard == m.heard
  {
    hide Bytes, Prompts;
  }

  /** Nothing is sent while RTC is down, the pipeline is stopped, or less than a frame is captured. */
  lemma SendingWaits(m: Media)
    requires m.sendPoint.Listening?
    requires !m.flags.running || !m.flags.connected || |m.mic.ring| < FRAME_BYTES
    ensures Next(m, Send) == m
  {
  }

  // ---- The control owner ----

  /** Ending and flushing a session begin at once when the owner is free: ending takes RTC down first and
      then leaves word for the playback worker; a flush begins with the capture worker. */
  lemma EndingBegins(m: Media)
    requires (m.owner.control.Free? || m.owner.control.Returned?) && !m.flags.disconnecting
    ensures var b := Next(m, EndSession);
      && !b.flags.connected && b.owner.control == Clearing
      && Next(b, Control(true)).flags.clearPending && Next(b, Control(true)).owner.control == CaptureBarrier
    ensures Next(m, FlushSession).owner.control == CaptureBarrier && Next(m, FlushSession).flags == m.flags
  {
  }

  /** Each call onto a worker that is free is made, or its failure noted, in turn: capture, playback, send. */
  lemma CallsAreMade(m: Media, ok: bool)
    requires m.mic.point.Watching? && m.player.point.Resting? && m.sendPoint.Listening?
    ensures var b := Next(m, Control(ok)).owner.control;
      match m.owner.control
      case CaptureBarrier => b == PlaybackFlush(ok)
      case PlaybackFlush(fine) => b == if ok then PlaybackFlushing(fine) else SendFlush(false)
      case SendFlush(fine) => b == if ok then SendFlushing(fine) else Returned(false)
      case _ => true
  {
  }
}
