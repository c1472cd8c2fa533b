/** Exactly when sound of one session is spoken in another
    (components/mybot/src/media/mybot_media_pipeline.c). */
module MediaMixing {
  import opened MediaProtocol
  import opened MediaInvariants
  import opened MediaSessions

  /** The callback under way has looked for a disconnect and will not look again. */
  predicate PastCheck(pt: PlaybackPoint) {
    !pt.Resting? && !pt.GenerationRead? && !pt.Flushing? && !pt.Unflagging?
  }

  /** No sound is taken in, and the callback under way will not find out why. */
  predicate Deaf(m: Media) {
    !m.flags.running || (m.flags.clearPending && PastCheck(m.player.point))
  }

  /** RTC joins anew while a stop or a disconnect still waits for the next callback. */
  predicate Overtakes(m: Media, s: Step) {
    s.Connecting? && m.flags.session < Next(m, s).flags.session && Deaf(m)
  }

  // ---- What is held only shrinks ----

  /** All that b holds, a held. */
  predicate Shrunk(a: Media, b: Media) {
    forall x :: x in Held(b) ==> x in Held(a)
  }

  lemma ShrunkBy(a: Media, b: Media, k: nat)
    requires HeldRest(b.player) == [] || HeldRest(b.player) == HeldRest(a.player)
    requires k <= |a.remote| && b.remote == a.remote[k..]
    ensures Shrunk(a, b)
  {
    hide HeldRest;
  }

  /** A step of the playback worker brings in no sound. */
  lemma PlaybackShrinks(m: Media, h: Hearing)
    requires PlayerOk(m.player)
    ensures Shrunk(m, PlaybackStep(m, h))
  {
    hide Shrunk, HeldRest, Begin, Notice, Drain, LookForAnnouncement, Silence, Prepare, RoomToReference;
    hide Authorize, Write, Reference, Finish, Flush, Unflag, PlayerOk;
    match m.player.point
    case Resting => BeginShrinks(m);
    case GenerationRead(g) => NoticeShrinks(m, g);
    case Draining(g) => DrainShrinks(m, g);
    case Drained(g) => LookShrinks(m, g);
    case Silencing(g) => SilenceShrinks(m, g);
    case Preparing(g, announcing) =>
      if m.player.frames == 0 {
        PrepareShrinks(m, g, announcing, h);
      } else {
        RoomShrinks(m);
      }
    case Authorizing => AuthorizeShrinks(m);
    case Writing => WriteShrinks(m, h);
    case Referencing(bytes, _) => ReferenceShrinks(m, bytes);
    case Finishing => FinishShrinks(m);
    case Flushing => FlushShrinks(m);
    case Unflagging => UnflagShrinks(m);
  }

  lemma BeginShrinks(m: Media)
    requires m.player.point.Resting?
    ensures Shrunk(m, Begin(m))
  {
    RestSame(m.player, Begin(m).player);
    ShrunkBy(m, Begin(m), 0);
  }

  lemma NoticeShrinks(m: Media, g: nat)
    requires m.player.point.GenerationRead?
    ensures Shrunk(m, Notice(m, g))
  {
    RestSame(m.player, Notice(m, g).player);
    ShrunkBy(m, Notice(m, g), 0);
  }

  lemma DrainShrinks(m: Media, g: nat)
    requires PlayerOk(m.player) && m.player.point.Draining?
    ensures Shrunk(m, Drain(m, g))
  {
    hide Rest;
    if m.remote != [] {
      ShrunkBy(m, Drain(m, g), Chunk(m));
    } else {
      ShrunkBy(m, Drain(m, g), 0);
    }
  }

  lemma LookShrinks(m: Media, g: nat)
    requires m.player.point.Drained?
    ensures Shrunk(m, LookForAnnouncement(m, g))
  {
    RestSame(m.player, LookForAnnouncement(m, g).player);
    ShrunkBy(m, LookForAnnouncement(m, g), 0);
  }

  lemma SilenceShrinks(m: Media, g: nat)
    requires m.player.point.Silencing?
    ensures Shrunk(m, Silence(m, g))
  {
    if m.remote != [] {
      ShrunkBy(m, Silence(m, g), Chunk(m));
    } else {
      if m.player.frames == 0 || m.player.source == Announcement {
        RestSame(m.player, Silence(m, g).player);
      }
      ShrunkBy(m, Silence(m, g), 0);
    }
  }

  lemma PrepareShrinks(m: Media, g: nat, announcing: bool, h: Hearing)
    requires PlayerOk(m.player) && m.player.point.Preparing? && m.player.frames == 0
    ensures Shrunk(m, Prepare(m, g, announcing, h))
  {
    hide Bytes, Prompts;
    if announcing || |m.remote| < FRAME_BYTES {
      assert HeldRest(Prepare(m, g, announcing, h).player) == [];
      hide Prepare, PrepareAnnouncement;
      PrepareRemote(m, g, announcing, h);
      ShrunkBy(m, Prepare(m, g, announcing, h), 0);
    } else {
      FrameHeld(m, g);
      RoomSame(TakeFrame(m, g));
    }
  }

  lemma PrepareRemote(m: Media, g: nat, announcing: bool, h: Hearing)
    requires announcing || |m.remote| < FRAME_BYTES
    ensures Prepare(m, g, announcing, h).remote == m.remote
  {
    hide Bytes, Prompts;
  }

  lemma RoomSame(m: Media)
    requires !Emptying(m.player.point) && !m.player.point.Referencing?
    ensures Held(RoomToReference(m)) == Held(m)
  {
    RestSame(m.player, RoomToReference(m).player);
  }

  lemma RoomShrinks(m: Media)
    requires m.player.point.Preparing?
    ensures Shrunk(m, RoomToReference(m))
  {
    RoomSame(m);
    hide RoomToReference;
  }

  lemma AuthorizeShrinks(m: Media)
    requires m.player.point.Authorizing?
    ensures Shrunk(m, Authorize(m))
  {
    if m.flags.announceGeneration == m.player.generation {
      RestSame(m.player, Authorize(m).player);
    }
    ShrunkBy(m, Authorize(m), 0);
  }

  lemma WriteShrinks(m: Media, h: Hearing)
    requires PlayerOk(m.player) && m.player.point.Writing?
    ensures Shrunk(m, Write(m, h))
  {
    if 0 <= h.written <= m.player.frames && m.player.source == Remote {
      WriteLine(m, h);
      hide Write, Rest, WriteData, Outs, Held;
    } else {
      hide Outs, WriteData, Rest;
      ShrunkBy(m, Write(m, h), 0);
    }
  }

  lemma ReferenceShrinks(m: Media, bytes: seq<int>)
    requires PlayerOk(m.player) && m.player.point.Referencing?
    ensures Shrunk(m, Reference(m, bytes))
  {
    RestSame(m.player, Reference(m, bytes).player);
    ShrunkBy(m, Reference(m, bytes), 0);
  }

  lemma FinishShrinks(m: Media)
    requires PlayerOk(m.player) && m.player.point.Finishing?
    ensures Shrunk(m, Finish(m))
  {
    if m.player.frames != 0 && m.flags.announceGeneration == m.player.generation {
      RestSame(m.player, Finish(m).player);
    }
    ShrunkBy(m, Finish(m), 0);
  }

  lemma FlushShrinks(m: Media)
    requires PlayerOk(m.player) && m.player.point.Flushing?
    ensures Shrunk(m, Flush(m))
  {
    hide Rest;
    if m.remote != [] {
      ShrunkBy(m, Flush(m), Chunk(m));
    } else {
      ShrunkBy(m, Flush(m), 0);
    }
  }

  lemma UnflagShrinks(m: Media)
    requires m.player.point.Unflagging?
    ensures Shrunk(m, Unflag(m))
  {
    RestSame(m.player, Unflag(m).player);
    ShrunkBy(m, Unflag(m), 0);
  }

  // ---- What a step of the playback worker leaves alone ----

  predicate Same(a: Media, b: Media) {
    && b.flags.session == a.flags.session
    && b.flags.running == a.flags.running
    && b.heard.accepted == a.heard.accepted
  }

  /** A callback past its check looks for no disconnect. */
  predicate Onward(a: Media, b: Media) {
    && b.flags.clearPending == a.flags.clearPending
    && (b.player.point.Resting? || PastCheck(b.player.point))
  }

  lemma PlaybackSame(m: Media, h: Hearing)
    ensures Same(m, PlaybackStep(m, h))
    ensures PastCheck(m.player.point) ==> Onward(m, PlaybackStep(m, h))
  {
    hide Same, Onward, Begin, Notice, Drain, LookForAnnouncement, Silence, Prepare, RoomToReference;
    hide Authorize, Write, Reference, Finish, Flush, Unflag;
    match m.player.point
    case Resting => CheckSame(m, 0);
    case GenerationRead(g) => CheckSame(m, g);
    case Draining(g) => DrainSame(m, g);
    case Drained(g) => DrainSame(m, g);
    case Silencing(g) => DrainSame(m, g);
    case Preparing(g, announcing) => PrepareSame(m, g, announcing, h);
    case Authorizing => EndSame(m);
    case Writing => WriteSame(m, h);
    case Referencing(bytes, _) => ReferenceSame(m, bytes);
    case Finishing => EndSame(m);
    case Flushing => FlushSame(m);
    case Unflagging => FlushSame(m);
  }

  lemma CheckSame(m: Media, g: nat)
    ensures Same(m, Begin(m)) && Same(m, Notice(m, g))
  {
  }

  lemma DrainSame(m: Media, g: nat)
    requires PastCheck(m.player.point)
    ensures Same(m, Drain(m, g)) && Onward(m, Drain(m, g))
    ensures Same(m, LookForAnnouncement(m, g)) && Onward(m, LookForAnnouncement(m, g))
    ensures Same(m, Silence(m, g)) && Onward(m, Silence(m, g))
  {
  }

  lemma PrepareSame(m: Media, g: nat, announcing: bool, h: Hearing)
    requires PastCheck(m.player.point)
    ensures Same(m, Prepare(m, g, announcing, h)) && Onward(m, Prepare(m, g, announcing, h))
    ensures Same(m, RoomToReference(m)) && Onward(m, RoomToReference(m))
  {
    hide Bytes, Prompts;
  }

  lemma WriteSame(m: Media, h: Hearing)
    ensures Same(m, Write(m, h)) && Onward(m, Write(m, h))
  {
    hide Rest, WriteData, Outs;
  }

  lemma ReferenceSame(m: Media, bytes: seq<int>)
    ensures Same(m, Reference(m, bytes)) && Onward(m, Reference(m, bytes))
  {
  }

  lemma EndSame(m: Media)
    ensures Same(m, Authorize(m)) && Onward(m, Authorize(m))
    ensures Same(m, Finish(m)) && Onward(m, Finish(m))
  {
  }

  lemma FlushSame(m: Media)
    ensures Same(m, Flush(m)) && Same(m, Unflag(m))
  {
  }

  /** What every other step does to a playback worker that is not resting. */
  lemma OthersApart(m: Media, s: Step)
    requires !s.Playback?
    ensures !m.player.point.Resting? ==> Next(m, s).player == m.player
    ensures m.player.point.Resting? ==> Next(m, s).player.point.Resting? || Next(m, s).player.point.Flushing?
    ensures m.flags.clearPending ==> Next(m, s).flags.clearPending
    ensures Next(m, s).flags.running ==> m.flags.running
    ensures m.flags.session <= Next(m, s).flags.session
    ensures !s.Connecting? ==> Next(m, s).flags.session == m.flags.session
  {
    hide Dropped, Tagged;
  }

  lemma OthersRemote(m: Media, s: Step)
    requires !s.Playback? && (s.Pushing? ==> m.flags.clearPending || !m.flags.running)
    ensures Next(m, s).remote == m.remote
  {
    hide Dropped, Tagged;
  }

  // ---- Nothing foreign is held ----

  /** The callback under way, if any, will speak the present session only. */
  predicate Loyal(m: Media) {
    match m.player.point
    case Resting => true
    case Flushing => true
    case Unflagging => true
    case Draining(_) => true
    case GenerationRead(_) => m.flags.clearPending || Current(Held(m), m.flags.session)
    case _ => Current(Held(m), m.flags.session)
  }

  lemma CurrentShrinks(a: Media, b: Media)
    requires Shrunk(a, b) && Current(Held(a), a.flags.session) && b.flags.session == a.flags.session
    ensures Current(Held(b), b.flags.session)
  {
    assert forall i :: 0 <= i < |Held(b)| ==> Held(b)[i] in Held(a);
    hide Held;
  }

  lemma LoyalCurrent(m: Media)
    requires Current(Held(m), m.flags.session)
    ensures Loyal(m)
  {
  }

  /** Inside a callback, what holds between operations of the whole pipeline says this much. */
  lemma QuietCurrent(m: Media)
    requires Inv(m) && !m.owner.forgot && m.flags.running && !m.flags.clearPending
    requires !Emptying(m.player.point)
    ensures Current(Held(m), m.flags.session) && (Cut(m) ==> Held(m) == [])
  {
    hide LineOk, ReferenceOk, OutsOk, FlushedOk, ControlOk, PlayerOk, Held, Current, Cut;
  }

  lemma PlaybackLoyal(m: Media, h: Hearing)
    requires Inv(m) && !m.owner.forgot && Loyal(m)
    ensures Loyal(PlaybackStep(m, h))
  {
    PlaybackShrinks(m, h);
    PlaybackSame(m, h);
    var b := PlaybackStep(m, h);
    match m.player.point
    case Resting => BeginLoyal(m, h);
    case GenerationRead(_) => NoticeLoyal(m, h);
    case Draining(_) => DrainLoyal(m, h);
    case Flushing => FlushLoyal(m, h);
    case Unflagging => FlushLoyal(m, h);
    case _ =>
      hide PlaybackStep, Inv, Shrunk, Held, Current;
      CurrentShrinks(m, b);
      LoyalCurrent(b);
  }

  lemma BeginLoyal(m: Media, h: Hearing)
    requires Inv(m) && !m.owner.forgot && m.player.point.Resting?
    ensures Loyal(PlaybackStep(m, h))
  {
    BeginShrinks(m);
    hide Shrunk, Held, Current, Inv;
    if m.flags.running && !m.flags.clearPending {
      QuietCurrent(m);
      CurrentShrinks(m, Begin(m));
    }
  }

  lemma NoticeLoyal(m: Media, h: Hearing)
    requires m.player.point.GenerationRead? && Loyal(m)
    ensures Loyal(PlaybackStep(m, h))
  {
    NoticeShrinks(m, m.player.point.generation);
    hide Shrunk, Held, Current;
    if !m.flags.clearPending {
      CurrentShrinks(m, Notice(m, m.player.point.generation));
    }
  }

  lemma DrainLoyal(m: Media, h: Hearing)
    requires PlayerOk(m.player) && m.player.point.Draining?
    ensures Loyal(PlaybackStep(m, h))
  {
    hide Rest;
  }

  lemma FlushLoyal(m: Media, h: Hearing)
    requires m.player.point.Flushing? || m.player.point.Unflagging?
    ensures Loyal(PlaybackStep(m, h))
  {
    hide Held, Current;
  }

  lemma PushLoyal(m: Media, data: seq<int>)
    requires Inv(m) && Loyal(m)
    ensures Loyal(Push(m, data))
  {
    if Push(m, data) != m {
      PushLine(m, data);
      hide Rest, Inv, Held, Current, Tagged;
    }
  }

  lemma ConnectLoyal(m: Media)
    requires Inv(m) && !m.owner.forgot && Loyal(m)
    requires m.player.point.Resting? || !Overtakes(m, Connecting)
    ensures Loyal(Connect(m))
  {
    var b := Connect(m);
    SamePlaybackKeeps(m, b);
    if m.flags.session < b.flags.session && !m.player.point.Resting? && !Emptying(m.player.point)
       && m.flags.running && !m.flags.clearPending {
      QuietCurrent(m);
      assert Held(b) == [];
    }
    hide Held, Inv;
  }

  lemma OthersLoyal(m: Media, s: Step)
    requires Inv(m) && Loyal(m) && !s.Playback? && !s.Pushing? && !s.Connecting?
    ensures Loyal(Next(m, s))
  {
    OthersApart(m, s);
    OthersRemote(m, s);
    var b := Next(m, s);
    if !m.player.point.Resting? {
      SameHeld(m, b);
    }
    hide Next, Held, Current, Inv;
  }

  lemma SameHeld(a: Media, b: Media)
    requires b.player == a.player && b.remote == a.remote
    ensures Held(b) == Held(a)
  {
  }

  lemma NextLoyal(m: Media, s: Step)
    requires Inv(m) && !m.owner.forgot && Loyal(m)
    requires m.player.point.Resting? || !Overtakes(m, s)
    ensures Loyal(Next(m, s))
  {
    hide Inv, Loyal, PlaybackStep, Push, Connect;
    match s
    case Playback(h) => PlaybackLoyal(m, h);
    case Pushing(data) => PushLoyal(m, data);
    case Connecting => ConnectLoyal(m);
    case _ => OthersLoyal(m, s);
  }

  // ---- Everything held is foreign ----

  /** All that is held is from earlier sessions, and no more is taken in. */
  predicate Foreign(m: Media) {
    Deaf(m) && forall x :: x in Held(m) ==> x.Rtc? && x.session < m.flags.session
  }

  lemma NextForeign(m: Media, s: Step)
    requires PlayerOk(m.player) && Foreign(m) && !m.player.point.Resting? && !Next(m, s).player.point.Resting?
    ensures Foreign(Next(m, s))
  {
    var b := Next(m, s);
    if s.Playback? {
      PlaybackShrinks(m, s.hearing);
      PlaybackSame(m, s.hearing);
      hide PlaybackStep, Held, PlayerOk;
    } else {
      OthersApart(m, s);
      OthersRemote(m, s);
      SameHeld(m, b);
      hide Next, Held, PlayerOk;
    }
  }

  /** No byte is from a session yet to come. */
  predicate Bounded(m: Media) {
    forall i :: 0 <= i < |m.heard.accepted| ==>
      m.heard.accepted[i].Rtc? && m.heard.accepted[i].session <= m.flags.session
  }

  lemma NextBounded(m: Media, s: Step)
    requires Bounded(m)
    ensures Bounded(Next(m, s))
  {
    if s.Playback? {
      PlaybackSame(m, s.hearing);
      hide PlaybackStep;
    } else {
      hide Dropped;
    }
  }

  lemma {:induction false} RunBounded(steps: seq<Step>)
    ensures Bounded(Run(Started(), steps))
    decreases |steps|
  {
    hide Next, Bounded;
    if steps != [] {
      RunBounded(steps[..|steps| - 1]);
      NextBounded(Run(Started(), steps[..|steps| - 1]), steps[|steps| - 1]);
    } else {
      StartBounded();
    }
  }

  lemma StartBounded()
    ensures Bounded(Started())
  {
  }

  lemma HeldBounded(m: Media)
    requires Inv(m) && Bounded(m)
    ensures forall x :: x in Held(m) ==> x.Rtc? && x.session <= m.flags.session
  {
    hide ReferenceOk, SessionOk, OutsOk, FlushedOk, ControlOk, PlayerOk, Held;
    forall x | x in Held(m) ensures x.Rtc? && x.session <= m.flags.session {
      var i :| 0 <= i < |Held(m)| && Held(m)[i] == x;
      assert Line(m)[|m.heard.spoken| + i] == x;
    }
  }

  lemma OvertakingForeign(m: Media, s: Step)
    requires Inv(m) && Bounded(m) && Overtakes(m, s)
    ensures Foreign(Next(m, s))
  {
    HeldBounded(m);
    OthersApart(m, s);
    OthersRemote(m, s);
    ConnectPlayer(m);
    SameHeld(m, Next(m, s));
    hide Held, Inv, Bounded;
  }

  lemma ConnectPlayer(m: Media)
    ensures Connect(m).player == m.player
  {
  }

  // ---- Speaking ----

  /** A step that speaks writes held sound, in the session of the moment. */
  lemma SpokenFromHeld(m: Media, h: Hearing, i: nat)
    requires Inv(m) && |m.heard.spoken| <= i < |PlaybackStep(m, h).heard.spoken|
    ensures m.player.point.Writing?
    ensures var o := PlaybackStep(m, h).heard.spoken[i];
      o.piece.Rtc? && o.piece in Held(m) && o.session == m.flags.session
  {
    if !m.player.point.Writing? {
      QuietStep(m, h);
    } else if 0 <= h.written <= m.player.frames && m.player.source == Remote {
      WriteSpeaks(m, h, i);
    } else {
      hide Held, Rest, WriteData, Inv;
    }
    hide Write;
  }

  lemma WriteSpeaks(m: Media, h: Hearing, i: nat)
    requires Inv(m) && m.player.point.Writing? && 0 <= h.written <= m.player.frames
    requires m.player.source == Remote && |m.heard.spoken| <= i < |Write(m, h).heard.spoken|
    ensures var o := Write(m, h).heard.spoken[i];
      o.piece.Rtc? && o.piece in Held(m) && o.session == m.flags.session
  {
    WriteLine(m, h);
    AcceptedPieces(m);
    hide LineOk, ReferenceOk, SessionOk, OutsOk, FlushedOk, ControlOk, PlayerOk, Write, Rest, WriteData, Line;
    var k := i - |m.heard.spoken|;
    assert Rest(m.player)[k] == Held(m)[k];
  }

  // ---- Runs ----

  lemma RunMore(steps: seq<Step>, k: nat)
    requires k < |steps|
    ensures Run(Started(), steps[..k + 1]) == Next(Run(Started(), steps[..k]), steps[k])
  {
    assert steps[..k + 1][..k] == steps[..k];
    hide Next;
  }

  lemma RunInv(steps: seq<Step>)
    ensures Inv(Run(Started(), steps))
  {
    StartedOk();
    RunKeeps(Started(), steps);
  }

  /** In the callback that rests at j, nothing foreign is held up to x unless RTC overtakes it. */
  lemma {:induction false} StaysLoyal(steps: seq<Step>, j: nat, x: nat)
    requires j <= x <= |steps| && !Run(Started(), steps).owner.forgot
    requires Run(Started(), steps[..j]).player.point.Resting?
    requires forall k :: j < k < x ==> !Overtakes(Run(Started(), steps[..k]), steps[k])
    ensures Loyal(Run(Started(), steps[..x]))
    decreases x
  {
    hide Next, Inv, Run, Started;
    if j == x {
      RestLoyal(Run(Started(), steps[..j]));
    } else {
      StaysLoyal(steps, j, x - 1);
      RunMore(steps, x - 1);
      RunInv(steps[..x - 1]);
      ForgottenBefore(steps, x - 1);
      NextLoyal(Run(Started(), steps[..x - 1]), steps[x - 1]);
    }
  }

  lemma RestLoyal(m: Media)
    requires m.player.point.Resting?
    ensures Loyal(m)
  {
  }

  /** Once RTC has overtaken the callback, all it holds is foreign. */
  lemma {:induction false} StaysForeign(steps: seq<Step>, k: nat, x: nat)
    requires k < x <= |steps| && Overtakes(Run(Started(), steps[..k]), steps[k])
    requires forall y :: k < y <= x ==> !Run(Started(), steps[..y]).player.point.Resting?
    ensures Foreign(Run(Started(), steps[..x]))
    decreases x
  {
    hide Next, Inv, Run, Started, Overtakes, Foreign, Bounded;
    RunMore(steps, x - 1);
    RunInv(steps[..x - 1]);
    var m := Run(Started(), steps[..x - 1]);
    if k == x - 1 {
      RunBounded(steps[..k]);
      OvertakingForeign(m, steps[k]);
    } else {
      StaysForeign(steps, k, x - 1);
      InvPlayer(m);
      NextForeign(m, steps[x - 1]);
    }
  }

  lemma InvPlayer(m: Media)
    requires Inv(m)
    ensures PlayerOk(m.player)
  {
  }

  /** Byte i is spoken at step w by the callback that rested at j. */
  ghost predicate SpokenDuring(steps: seq<Step>, i: nat, j: nat, w: nat)
    requires i < |Run(Started(), steps).heard.spoken|
  {
    && j + 1 < w <= |steps| && steps[w - 1].Playback?
    && Run(Started(), steps[..j]).player.point.Resting?
    && (forall x :: j < x < w ==> !Run(Started(), steps[..x]).player.point.Resting?)
    && |Run(Started(), steps[..w - 1]).heard.spoken| <= i < |Run(Started(), steps[..w]).heard.spoken|
    && Run(Started(), steps[..w]).heard.spoken[i] == Run(Started(), steps).heard.spoken[i]
  }

  lemma SpeakingCallback(steps: seq<Step>, i: nat) returns (j: nat, w: nat)
    requires i < |Run(Started(), steps).heard.spoken|
    ensures SpokenDuring(steps, i, j, w)
  {
    hide Next;
    w := SpokenBy(Started(), steps, i);
    j := LastRest(steps, w - 1);
    RunMore(steps, w - 1);
    RunInv(steps[..w - 1]);
    hide Run, Inv;
    SpeaksWriting(Run(Started(), steps[..w - 1]), steps[w - 1], i);
  }

  lemma SpeaksWriting(m: Media, s: Step, i: nat)
    requires Inv(m) && s.Playback? && |m.heard.spoken| <= i < |Next(m, s).heard.spoken|
    ensures m.player.point.Writing?
    ensures var o := Next(m, s).heard.spoken[i];
      o.piece.Rtc? && o.piece in Held(m) && o.session == m.flags.session
  {
    SpokenFromHeld(m, s.hearing, i);
    hide PlaybackStep, Inv, Held;
  }

  /** In any run in which no flush took back the word of a disconnect, a spoken byte is of another
      session than the present one exactly when, in the callback that speaks it, RTC joined anew while
      the pipeline was stopped, or while a disconnect waited that the callback was past noticing. */
  lemma SessionsMixExactly(steps: seq<Step>, i: nat) returns (j: nat, w: nat)
    requires !Run(Started(), steps).owner.forgot && i < |Run(Started(), steps).heard.spoken|
    ensures SpokenDuring(steps, i, j, w)
    ensures Run(Started(), steps).heard.spoken[i].piece.Rtc?
    ensures var o := Run(Started(), steps).heard.spoken[i];
      o.piece.session != o.session <==>
      exists k :: j < k < w - 1 && Overtakes(Run(Started(), steps[..k]), steps[k])
  {
    hide Next, Inv, Run, Overtakes, Loyal, Foreign, Held;
    j, w := SpeakingCallback(steps, i);
    var m := Run(Started(), steps[..w - 1]);
    RunMore(steps, w - 1);
    RunInv(steps[..w - 1]);
    SpeaksWriting(m, steps[w - 1], i);
    if k :| j < k < w - 1 && Overtakes(Run(Started(), steps[..k]), steps[k]) {
      StaysForeign(steps, k, w - 1);
      ForeignHeld(m);
    } else {
      StaysLoyal(steps, j, w - 1);
      LoyalHeld(m);
    }
  }

  lemma ForeignHeld(m: Media)
    requires Foreign(m)
    ensures forall x :: x in Held(m) ==> x.Rtc? && x.session < m.flags.session
  {
    hide Held;
  }

  lemma LoyalHeld(m: Media)
    requires Loyal(m) && m.player.point.Writing?
    ensures forall x :: x in Held(m) ==> x.Rtc? && x.session == m.flags.session
  {
    hide Held;
  }

  /** RTC never joins anew while a stop or a disconnect waits for the playback worker. */
  predicate JoinsNoticed(steps: seq<Step>) {
    forall k :: 0 <= k < |steps| && steps[k].Connecting? ==>
      var m := Run(Started(), steps[..k]);
      m.flags.session < Next(m, steps[k]).flags.session ==> m.flags.running && !m.flags.clearPending
  }

  /** So a caller that lets RTC join only then never hears one session in another. */
  lemma SessionsStayApart(steps: seq<Step>, i: nat)
    requires !Run(Started(), steps).owner.forgot && JoinsNoticed(steps)
    requires i < |Run(Started(), steps).heard.spoken|
    ensures var o := Run(Started(), steps).heard.spoken[i];
      o.piece.Rtc? && o.piece.session == o.session
  {
    hide Run, Next;
    var j, w := SessionsMixExactly(steps, i);
  }
}
