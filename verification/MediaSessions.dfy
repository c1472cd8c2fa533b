/** Which session's sound the speaker may get (components/mybot/src/media/mybot_media_pipeline.c). */
module MediaSessions {
  import opened MediaProtocol
  import opened MediaInvariants
  import C = MediaCallbacks

  /** Steps that can raise the disconnect flag, or stop the pipeline. */
  predicate Disturbs(s: Step) {
    s.Disconnecting? || s.Control? || s.Stop?
  }

  predicate Undisturbed(steps: seq<Step>) {
    forall i :: 0 <= i < |steps| ==> !Disturbs(steps[i])
  }

  /** Past its check, a callback has no disconnect waiting. */
  predicate Noticed(m: Media) {
    && !m.player.point.Flushing?
    && !m.player.point.Unflagging?
    && (m.player.point.Resting? ||
        (m.flags.running && (m.player.point.GenerationRead? || !m.flags.clearPending)))
  }

  /** What is spoken from the first n bytes on is not late. */
  predicate InTime(m: Media, n: nat) {
    n <= |m.heard.spoken| && forall i :: n <= i < |m.heard.spoken| ==> !m.heard.spoken[i].late
  }

  // ---- One step ----

  lemma WriteInTime(m: Media, h: Hearing, n: nat)
    requires Noticed(m) && m.player.point.Writing? && InTime(m, n)
    ensures Noticed(Write(m, h)) && InTime(Write(m, h), n)
  {
    hide Rest, WriteData;
  }

  lemma PrepareInTime(m: Media, h: Hearing, n: nat)
    requires Noticed(m) && m.player.point.Preparing? && InTime(m, n)
    ensures Noticed(PlaybackStep(m, h)) && InTime(PlaybackStep(m, h), n)
  {
    hide Bytes, Prompts;
  }

  lemma PlaybackInTime(m: Media, h: Hearing, n: nat)
    requires Noticed(m) && InTime(m, n)
    ensures Noticed(PlaybackStep(m, h)) && InTime(PlaybackStep(m, h), n)
  {
    if m.player.point.Writing? {
      WriteInTime(m, h, n);
    } else if m.player.point.Preparing? {
      PrepareInTime(m, h, n);
    }
    hide Write, Prepare, RoomToReference;
  }

  lemma OthersInTime(m: Media, s: Step, n: nat)
    requires Noticed(m) && InTime(m, n) && !Disturbs(s) && !s.Playback?
    ensures Noticed(Next(m, s)) && InTime(Next(m, s), n)
  {
    hide Dropped, Tagged;
  }

  lemma {:induction false} StaysInTime(m: Media, steps: seq<Step>, n: nat)
    requires Noticed(m) && InTime(m, n) && Undisturbed(steps)
    ensures Noticed(Run(m, steps)) && InTime(Run(m, steps), n)
    decreases |steps|
  {
    hide Noticed, InTime, PlaybackStep;
    if steps != [] {
      var s := steps[|steps| - 1];
      StaysInTime(m, steps[..|steps| - 1], n);
      if s.Playback? {
        PlaybackInTime(Run(m, steps[..|steps| - 1]), s.hearing, n);
      } else {
        OthersInTime(Run(m, steps[..|steps| - 1]), s, n);
      }
    }
  }

  // ---- Runs ----

  /** What is spoken from the first n bytes on is spoken in one session, the present one. */
  predicate SpokenIn(m: Media, n: nat, session: nat) {
    && m.flags.session == session
    && n <= |m.heard.spoken|
    && forall i :: n <= i < |m.heard.spoken| ==> m.heard.spoken[i].session == session
  }

  lemma PlaybackSpeaksIn(m: Media, h: Hearing, n: nat, session: nat)
    requires SpokenIn(m, n, session)
    ensures SpokenIn(PlaybackStep(m, h), n, session)
  {
    if m.player.point.Writing? {
      WriteSpeaksIn(m, h, n, session);
    } else {
      QuietStep(m, h);
    }
    hide Write, PlaybackStep;
  }

  lemma WriteSpeaksIn(m: Media, h: Hearing, n: nat, session: nat)
    requires SpokenIn(m, n, session) && m.player.point.Writing?
    ensures SpokenIn(PlaybackStep(m, h), n, session)
  {
    hide Rest, WriteData;
  }

  lemma QuietStep(m: Media, h: Hearing)
    requires !m.player.point.Writing?
    ensures PlaybackStep(m, h).heard.spoken == m.heard.spoken
    ensures PlaybackStep(m, h).flags.session == m.flags.session
  {
    hide Write, Prepare;
    PrepareQuiet(m, h);
  }

  lemma PrepareQuiet(m: Media, h: Hearing)
    ensures forall g: nat, announcing :: Prepare(m, g, announcing, h).heard == m.heard
    ensures forall g: nat, announcing :: Prepare(m, g, announcing, h).flags.session == m.flags.session
  {
    hide Bytes, Prompts;
  }

  lemma {:induction false} SpeaksIn(m: Media, steps: seq<Step>, n: nat, session: nat)
    requires SpokenIn(m, n, session) && NoConnect(steps)
    ensures SpokenIn(Run(m, steps), n, session)
    decreases |steps|
  {
    if steps != [] {
      var s := steps[|steps| - 1];
      var before := Run(m, steps[..|steps| - 1]);
      SpeaksIn(m, steps[..|steps| - 1], n, session);
      NextSpeaksIn(before, s, n, session);
    }
    hide Next, SpokenIn;
  }

  lemma NextSpeaksIn(m: Media, s: Step, n: nat, session: nat)
    requires SpokenIn(m, n, session) && !s.Connecting?
    ensures SpokenIn(Next(m, s), n, session)
  {
    if s.Playback? {
      PlaybackSpeaksIn(m, s.hearing, n, session);
    }
    hide PlaybackStep, Dropped, Tagged;
  }

  /** Between a moment when the playback worker rests and the end of the steps, with no disturbance
      in between, only sound of the session under way is spoken, whoever else runs; without a new
      connection that is the session of the moment. */
  lemma UndisturbedIsCurrent(steps: seq<Step>, j: nat, i: nat)
    requires j <= |steps| && Run(Started(), steps[..j]).player.point.Resting? && Undisturbed(steps[j..])
    requires !Run(Started(), steps).owner.forgot
    requires |Run(Started(), steps[..j]).heard.spoken| <= i < |Run(Started(), steps).heard.spoken|
    ensures var o := Run(Started(), steps).heard.spoken[i];
      !o.late && o.piece.Rtc? && o.piece.session == o.session
    ensures NoConnect(steps[j..]) ==>
      Run(Started(), steps).heard.spoken[i].session == Run(Started(), steps[..j]).flags.session
  {
    hide Next, Inv, Started, NoConnect, Undisturbed;
    StartedOk();
    RunKeeps(Started(), steps[..j]);
    assert steps == steps[..j] + steps[j..];
    RunAppend(Started(), steps[..j], steps[j..]);
    hide Run;
    UndisturbedFrom(Run(Started(), steps[..j]), steps[j..], i);
  }

  lemma UndisturbedFrom(m: Media, steps: seq<Step>, i: nat)
    requires Inv(m) && m.player.point.Resting? && Undisturbed(steps) && !Run(m, steps).owner.forgot
    requires |m.heard.spoken| <= i < |Run(m, steps).heard.spoken|
    ensures var o := Run(m, steps).heard.spoken[i];
      !o.late && o.piece.Rtc? && o.piece.session == o.session
    ensures NoConnect(steps) ==> Run(m, steps).heard.spoken[i].session == m.flags.session
  {
    hide Run, LineOk, SessionOk, ReferenceOk, FlushedOk, ControlOk, PlayerOk, NoConnect, Undisturbed;
    RunKeeps(m, steps);
    StaysInTime(m, steps, |m.heard.spoken|);
    if NoConnect(steps) {
      SpeaksIn(m, steps, |m.heard.spoken|, m.flags.session);
    }
  }

  lemma SpokenGrows(m: Media, s: Step)
    ensures m.heard.spoken <= Next(m, s).heard.spoken
    ensures !s.Playback? ==> Next(m, s).heard.spoken == m.heard.spoken
  {
    if s.Playback? {
      PlaybackGrows(m, s.hearing);
    }
    hide PlaybackStep, Dropped, Tagged;
  }

  lemma PlaybackGrows(m: Media, h: Hearing)
    ensures m.heard.spoken <= PlaybackStep(m, h).heard.spoken
  {
    hide Rest, WriteData, Bytes, Prompts;
  }

  /** The step that spoke a byte. */
  lemma {:induction false} SpokenBy(m: Media, steps: seq<Step>, i: nat) returns (w: nat)
    requires |m.heard.spoken| <= i < |Run(m, steps).heard.spoken|
    ensures 0 < w <= |steps| && steps[w - 1].Playback?
    ensures |Run(m, steps[..w - 1]).heard.spoken| <= i < |Run(m, steps[..w]).heard.spoken|
    ensures Run(m, steps[..w]).heard.spoken[i] == Run(m, steps).heard.spoken[i]
    decreases |steps|
  {
    hide Next;
    var front := steps[..|steps| - 1];
    SpokenGrows(Run(m, front), steps[|steps| - 1]);
    if i < |Run(m, front).heard.spoken| {
      w := SpokenBy(m, front, i);
      assert front[..w] == steps[..w] && front[..w - 1] == steps[..w - 1];
    } else {
      w := |steps|;
      assert steps[..w] == steps && steps[..w - 1] == front;
    }
  }

  /** When the playback worker last rested before step w. */
  lemma {:induction false} LastRest(steps: seq<Step>, w: nat) returns (j: nat)
    requires w <= |steps|
    ensures j <= w && Run(Started(), steps[..j]).player.point.Resting?
    ensures forall x :: j < x <= w ==> !Run(Started(), steps[..x]).player.point.Resting?
    decreases w
  {
    if Run(Started(), steps[..w]).player.point.Resting? {
      j := w;
    } else {
      assert w > 0;
      j := LastRest(steps, w - 1);
    }
  }

  /** A late byte, and so any byte of another session than the current one, is spoken only by a
      callback during which RTC went down, the owner ended a session, or the pipeline stopped:
      the callback rests at j, is under way from then on, is disturbed at k, and speaks at w. */
  lemma LateWhenDisturbed(steps: seq<Step>, i: nat) returns (j: nat, k: nat, w: nat)
    requires !Run(Started(), steps).owner.forgot && i < |Run(Started(), steps).heard.spoken|
    requires var o := Run(Started(), steps).heard.spoken[i];
      o.late || !o.piece.Rtc? || o.piece.session != o.session
    ensures j <= k < w <= |steps| && Disturbs(steps[k])
    ensures Run(Started(), steps[..j]).player.point.Resting?
    ensures forall x :: j < x < w ==> !Run(Started(), steps[..x]).player.point.Resting?
    ensures |Run(Started(), steps[..w - 1]).heard.spoken| <= i < |Run(Started(), steps[..w]).heard.spoken|
    ensures Run(Started(), steps[..w]).heard.spoken[i] == Run(Started(), steps).heard.spoken[i]
  {
    hide Next;
    w := SpokenBy(Started(), steps, i);
    j := LastRest(steps, w - 1);
    ForgottenBefore(steps, w);
    var during := steps[..w];
    assert during[..j] == steps[..j];
    if Undisturbed(during[j..]) {
      SpokenBefore(steps, j, w - 1);
      UndisturbedIsCurrent(during, j, i);
      assert false;
    }
    k :| 0 <= k < |during[j..]| && Disturbs(during[j..][k]);
    k := k + j;
  }

  lemma {:induction false} ForgottenBefore(steps: seq<Step>, w: nat)
    requires w <= |steps| && !Run(Started(), steps).owner.forgot
    ensures !Run(Started(), steps[..w]).owner.forgot
    decreases |steps|
  {
    hide Next;
    if w == |steps| {
      assert steps[..w] == steps;
    } else {
      var front := steps[..|steps| - 1];
      ForgottenStays(Run(Started(), front), steps[|steps| - 1]);
      ForgottenBefore(front, w);
      assert front[..w] == steps[..w];
    }
  }

  lemma ForgottenStays(m: Media, s: Step)
    ensures m.owner.forgot ==> Next(m, s).owner.forgot
  {
    if s.Playback? {
      PlaybackForgot(m, s.hearing);
    }
    hide PlaybackStep, Dropped, Tagged;
  }

  /** A flush can take back the word of a disconnect only if it began with RTC up. */
  lemma {:induction false} ForgetsOnlyLive(steps: seq<Step>) returns (k: nat)
    requires Run(Started(), steps).owner.forgot || Run(Started(), steps).owner.live
    ensures k < |steps| && steps[k].FlushSession? && Run(Started(), steps[..k]).flags.connected
    decreases |steps|
  {
    hide Next, Inv;
    assert steps != [];
    var front := steps[..|steps| - 1];
    var m := Run(Started(), front);
    StartedOk();
    RunKeeps(Started(), front);
    ForgetsNow(m, steps[|steps| - 1]);
    if m.owner.forgot || m.owner.live {
      k := ForgetsOnlyLive(front);
      assert front[..k] == steps[..k];
    } else {
      k := |steps| - 1;
    }
  }

  lemma ForgetsNow(m: Media, s: Step)
    requires Inv(m) && (Next(m, s).owner.forgot || Next(m, s).owner.live)
    ensures m.owner.forgot || m.owner.live || (s.FlushSession? && m.flags.connected)
  {
    if s.Playback? && !m.owner.forgot && !m.owner.live {
      ForgetsPlaying(m, s.hearing);
    }
    hide PlaybackStep, Dropped, Tagged, Inv;
  }

  lemma ForgetsPlaying(m: Media, h: Hearing)
    requires Inv(m) && !m.owner.forgot && !m.owner.live
    ensures !PlaybackStep(m, h).owner.forgot && !PlaybackStep(m, h).owner.live
  {
    if m.player.point.Unflagging? {
      assert Held(m) == [];
    }
    hide LineOk, ReferenceOk, SessionOk, OutsOk, FlushedOk, PlayerOk;
    hide Rest, WriteData, Bytes, Prompts, Outs;
  }

  lemma PlaybackForgot(m: Media, h: Hearing)
    ensures m.owner.forgot ==> PlaybackStep(m, h).owner.forgot
  {
    hide Rest, WriteData, Bytes, Prompts, Outs;
  }

  lemma {:induction false} SpokenBefore(steps: seq<Step>, j: nat, w: nat)
    requires j <= w <= |steps|
    ensures |Run(Started(), steps[..j]).heard.spoken| <= |Run(Started(), steps[..w]).heard.spoken|
    decreases w - j
  {
    hide Next;
    if j < w {
      SpokenBefore(steps, j, w - 1);
      assert steps[..w][..w - 1] == steps[..w - 1];
      SpokenGrows(Run(Started(), steps[..w - 1]), steps[w - 1]);
    }
  }

  // ---- The exceptions happen ----

  lemma RunNext(m: Media, steps: seq<Step>, s: Step)
    ensures Run(m, steps + [s]) == Next(Run(m, steps), s)
  {
    hide Next;
    assert (steps + [s])[..|steps + [s]| - 1] == steps;
  }

  lemma RunTwo(m: Media, a: Step, b: Step)
    ensures Run(m, [a, b]) == Next(Next(m, a), b)
  {
    hide Next;
    RunNext(m, [], a);
    RunNext(m, [a], b);
    assert [] + [a] == [a] && [a] + [b] == [a, b];
  }

  lemma RunFour(m: Media, a: Step, b: Step, c: Step, d: Step)
    ensures Run(m, [a, b, c, d]) == Next(Next(Next(Next(m, a), b), c), d)
  {
    hide Next;
    RunTwo(m, a, b);
    RunNext(m, [a, b], c);
    RunNext(m, [a, b, c], d);
    assert [a, b] + [c] == [a, b, c] && [a, b, c] + [d] == [a, b, c, d];
  }

  /** The frame is taken and may be written. */
  predicate Ready(m: Media, frame: seq<Piece>) {
    && m.player.point.Writing?
    && m.player.source == Remote && m.player.offset == 0 && m.player.frames == FRAME_SAMPLES
    && m.player.buffer == frame && |frame| == FRAME_BYTES
  }

  function Hear(): Hearing {
    Hearing([], 0, false, [], FRAME_SAMPLES)
  }

  function Five(s: Step): seq<Step> {
    [s, s, s, s] + [s]
  }

  lemma RunFive(m: Media, s: Step)
    ensures Run(m, Five(s)) == Next(Next(Next(Next(Next(m, s), s), s), s), s)
  {
    hide Next;
    RunFour(m, s, s, s, s);
    RunNext(m, [s, s, s, s], s);
  }

  lemma FrameTaken(m: Media)
    requires C.FrameWaits(m)
    ensures Run(m, Five(Playback(Hear()))) == C.Framed(m) && Ready(C.Framed(m), m.remote[..FRAME_BYTES])
  {
    hide Run, PlaybackStep;
    RunFive(m, Playback(Hear()));
    C.FrameFound(m, Hear());
    C.FrameTaken(m, Hear());
  }

  lemma FrameSpoken(m: Media, frame: seq<Piece>)
    requires Ready(m, frame)
    ensures Next(m, Playback(Hear())).owner.forgot == m.owner.forgot
    ensures var spoken := Next(m, Playback(Hear())).heard.spoken;
      && |spoken| == |m.heard.spoken| + FRAME_BYTES
      && spoken[|m.heard.spoken|].piece == frame[0]
      && spoken[|m.heard.spoken|].session == m.flags.session
      && spoken[|m.heard.spoken|].late == (m.flags.clearPending || !m.flags.running)
  {
    assert Rest(m.player) == frame;
    hide Rest, Bytes, Values;
  }

  /** Connected for the first time, with one frame received. */
  function Joined(data: seq<int>): Media
  {
    Push(Connect(Started()), data)
  }

  function Joining(data: seq<int>): seq<Step> {
    [Connecting, Pushing(data)]
  }

  lemma FrameReceived(data: seq<int>)
    requires |data| == FRAME_BYTES
    ensures Run(Started(), Joining(data)) == Joined(data)
  {
    hide Push, Connect;
    RunTwo(Started(), Connecting, Pushing(data));
    hide Run;
  }

  lemma JoinedWaits(data: seq<int>)
    requires |data| == FRAME_BYTES
    ensures var m := Joined(data);
      && C.FrameWaits(m) && m.flags.connected && m.flags.session == 1 && m.owner.control.Free?
      && !m.flags.disconnecting && !m.owner.forgot && m.heard.spoken == []
    ensures Of(Joined(data).remote, 1)
  {
    var up := Connect(Started());
    var b := Joined(data);
    assert b == up.(remote := Tagged(up, data), heard := up.heard.(accepted := Tagged(up, data)));
    TaggedOf(up, data);
    hide Tagged, Connect, Push, Joined, Of;
  }

  /** All of one session. */
  predicate Of(s: seq<Piece>, session: nat) {
    forall i :: 0 <= i < |s| ==> s[i].Rtc? && s[i].session == session
  }

  lemma TaggedOf(m: Media, data: seq<int>)
    ensures |Tagged(m, data)| == |data| && Of(Tagged(m, data), m.flags.session)
  {
  }

  /** RTC goes down and up again within one callback. */
  function Rejoining(): seq<Step> {
    [Disconnecting, Disconnecting, Connecting]
  }

  lemma Rejoins(m: Media)
    requires m.flags.connected && !m.flags.disconnecting && m.owner.control.Free?
    ensures Run(m, Rejoining()) ==
      m.(flags := m.flags.(clearPending := true, session := m.flags.session + 1),
         owner := m.owner.(flushed := Flushed(false, false, false)))
  {
    RunTwo(m, Disconnecting, Disconnecting);
    RunNext(m, [Disconnecting, Disconnecting], Connecting);
    assert [Disconnecting, Disconnecting] + [Connecting] == Rejoining();
    hide Run;
  }

  /** A callback that RTC's reconnection overtakes speaks the old session's sound in the new one. */
  lemma ReconnectionMixes() returns (steps: seq<Step>)
    ensures var m := Run(Started(), steps);
      && !m.owner.forgot && m.heard.spoken != []
      && var o := m.heard.spoken[0]; o.piece.Rtc? && o.piece.session == 1 && o.session == 2 && o.late
  {
    hide PlaybackStep, Push, Connect, Next, Run, Started, Joined;
    var data := seq(FRAME_BYTES, i => 0);
    var a := Joined(data);
    FrameReceived(data);
    JoinedWaits(data);
    FrameTaken(a);
    var b := Run(a, Five(Playback(Hear())));
    Rejoins(b);
    var c := Run(b, Rejoining());
    FrameSpoken(c, a.remote[..FRAME_BYTES]);
    steps := Joining(data) + Five(Playback(Hear())) + Rejoining() + [Playback(Hear())];
    RunAppend(Started(), Joining(data), Five(Playback(Hear())));
    RunAppend(Started(), Joining(data) + Five(Playback(Hear())), Rejoining());
    RunNext(Started(), Joining(data) + Five(Playback(Hear())) + Rejoining(), Playback(Hear()));
  }

  /** What makes a flush of the playback worker start while RTC is up. */
  function FlushingUp(): seq<Step> {
    [Connecting, FlushSession, Control(true), Control(true)]
  }

  /** A flush found the ring empty; sound comes in, RTC goes down, and the flush ends. */
  function Overtaken(data: seq<int>): seq<Step> {
    [Playback(Hear()), Pushing(data), Disconnecting, Disconnecting] + [Playback(Hear())]
  }

  function SendingFlushed(): seq<Step> {
    [Control(true), Send, Send, Connecting]
  }

  lemma FlushStarts()
    ensures Run(Started(), FlushingUp()) == Started().(
      flags := Started().flags.(connected := true, session := 1),
      player := At(Started().player, Flushing),
      owner := Owner(PlaybackFlushing(true), Flushed(false, false, false), true, false))
  {
    RunFour(Started(), Connecting, FlushSession, Control(true), Control(true));
    hide Run;
  }

  /** The flush ends by clearing the flag that RTC has just raised. */
  lemma FlushOvertaken(m: Media, data: seq<int>)
    requires m.player.point.Flushing? && m.remote == [] && m.heard == History([], [], [], [])
    requires m.owner.control == PlaybackFlushing(true) && m.flags.announceGeneration == 0
    requires m.flags.running && m.flags.connected && !m.flags.clearPending && !m.flags.announcing
    requires !m.flags.disconnecting && |data| == FRAME_BYTES && m.owner.live
    ensures Run(m, Overtaken(data)) ==
      m.(flags := m.flags.(connected := false),
         player := At(Discard(m.player), Resting).(generation := 0),
         owner := m.owner.(control := SendFlush(true), flushed := PlaybackFlushed(m), forgot := true),
         remote := Tagged(m, data), heard := History(Tagged(m, data), [], [], []))
  {
    hide Flush, Push, Disconnect, Unflag, Begin, Notice, Drain, LookForAnnouncement, Silence, Prepare;
    hide RoomToReference, Authorize, Write, Reference, Finish, Tagged, Discard;
    var h := Playback(Hear());
    RunFour(m, h, Pushing(data), Disconnecting, Disconnecting);
    RunNext(m, [h, Pushing(data), Disconnecting, Disconnecting], h);
    hide Run;
    OvertakenSteps(m, data);
  }

  lemma OvertakenSteps(m: Media, data: seq<int>)
    requires m.player.point.Flushing? && m.remote == [] && m.heard == History([], [], [], [])
    requires m.owner.control == PlaybackFlushing(true) && m.flags.announceGeneration == 0
    requires m.flags.running && m.flags.connected && !m.flags.clearPending && !m.flags.announcing
    requires !m.flags.disconnecting && |data| == FRAME_BYTES && m.owner.live
    ensures Flush(m).player.point.Unflagging?
    ensures Push(Flush(m), data).player.point.Unflagging?
    ensures Disconnect(Disconnect(Push(Flush(m), data))).player.point.Unflagging?
    ensures Unflag(Disconnect(Disconnect(Push(Flush(m), data)))) ==
      m.(flags := m.flags.(connected := false),
         player := At(Discard(m.player), Resting).(generation := 0),
         owner := m.owner.(control := SendFlush(true), flushed := PlaybackFlushed(m), forgot := true),
         remote := Tagged(m, data), heard := History(Tagged(m, data), [], [], []))
  {
    var a := Flush(m);
    assert a == m.(player := At(Discard(m.player), Unflagging).(generation := 0));
    assert Tagged(a, data) == Tagged(m, data);
    hide Tagged, Flush;
  }

  lemma SendFlushEnds(m: Media)
    requires m.owner.control == SendFlush(true) && m.sendPoint.Listening? && m.mic.ring == [] && m.reference == []
    requires !m.flags.disconnecting && !m.flags.connected
    ensures Run(m, SendingFlushed()) ==
      m.(flags := m.flags.(connected := true, session := m.flags.session + 1),
         owner := m.owner.(control := Free, flushed := Flushed(false, false, false)))
  {
    hide Dropped;
    RunFour(m, Control(true), Send, Send, Connecting);
    hide Run;
  }

  /** A flush begun with RTC up may take back the word of a disconnect; then one session's sound is
      spoken in the next with no disconnect waiting: why the lemmas above ask that no flush did. */
  lemma LiveFlushMixes() returns (steps: seq<Step>)
    ensures var m := Run(Started(), steps);
      && m.owner.forgot && m.heard.spoken != []
      && var o := m.heard.spoken[0]; o.piece.Rtc? && o.piece.session == 1 && o.session == 2 && !o.late
  {
    hide PlaybackStep, Push, Connect, Next, Run, Dropped;
    var data := seq(FRAME_BYTES, i => 0);
    FlushStarts();
    var a := Run(Started(), FlushingUp());
    FlushOvertaken(a, data);
    var b := Run(a, Overtaken(data));
    SendFlushEnds(b);
    var c := Run(b, SendingFlushed());
    FrameTaken(c);
    FrameSpoken(Run(c, Five(Playback(Hear()))), c.remote[..FRAME_BYTES]);
    steps := FlushingUp() + Overtaken(data) + SendingFlushed() + Five(Playback(Hear())) + [Playback(Hear())];
    RunAppend(Started(), FlushingUp(), Overtaken(data));
    RunAppend(Started(), FlushingUp() + Overtaken(data), SendingFlushed());
    RunAppend(Started(), FlushingUp() + Overtaken(data) + SendingFlushed(), Five(Playback(Hear())));
    RunNext(Started(), FlushingUp() + Overtaken(data) + SendingFlushed() + Five(Playback(Hear())),
            Playback(Hear()));
  }
}
