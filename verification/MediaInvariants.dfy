/** What every interleaving of the media workers keeps. */
module MediaInvariants {
  import opened MediaProtocol

  // ---- The invariant ----

  /** Sound being thrown away, whatever the pending frame still says. */
  predicate Emptying(pt: PlaybackPoint) {
    pt.Draining? || pt.Flushing?
  }

  /** RTC bytes taken from the ring and still to be written. */
  function HeldRest(p: Player): seq<Piece> {
    if Emptying(p.point) || p.source != Remote then [] else Rest(p)
  }

  /** All RTC bytes that may yet be played. */
  function Held(m: Media): seq<Piece> {
    HeldRest(m.player) + m.remote
  }

  function Pieces(outs: seq<Out>): (r: seq<Piece>)
    ensures |r| == |outs|
  {
    seq(|outs|, i requires 0 <= i < |outs| => outs[i].piece)
  }

  function OutValues(outs: seq<Out>): (r: seq<int>)
    ensures |r| == |outs|
  {
    seq(|outs|, i requires 0 <= i < |outs| => outs[i].value)
  }

  /** Everything from the first byte spoken to the last byte received. */
  function Line(m: Media): seq<Piece> {
    Pieces(m.heard.spoken) + Held(m)
  }

  predicate Genuine(x: Piece, accepted: seq<Piece>) {
    x.Rtc? && x.index < |accepted| && accepted[x.index] == x
  }

  predicate Ordered(s: seq<Piece>, accepted: seq<Piece>) {
    && (forall i :: 0 <= i < |s| ==> Genuine(s[i], accepted))
    && (forall i, j :: 0 <= i < j < |s| ==> s[i].Rtc? && s[j].Rtc? && s[i].index < s[j].index)
  }

  predicate AcceptedOk(accepted: seq<Piece>) {
    forall i :: 0 <= i < |accepted| ==> accepted[i].Rtc? && accepted[i].index == i
  }

  /** Spoken and held bytes are accepted bytes, in the order of acceptance. */
  predicate LineOk(m: Media) {
    AcceptedOk(m.heard.accepted) && Ordered(Line(m), m.heard.accepted)
  }

  predicate PlayerOk(p: Player) {
    && |p.buffer| == FRAME_BYTES
    && 0 <= Left(p)
    && p.offset + Left(p) <= FRAME_SAMPLES
    && (p.point.Unflagging? ==> p.source.NoSource?)
  }

  function InTransit(pt: PlaybackPoint): seq<int> {
    if pt.Referencing? then pt.bytes else []
  }

  /** The echo canceller is given exactly what the speaker took, and always has room for it. */
  predicate ReferenceOk(m: Media) {
    && OutValues(m.heard.spoken) == m.heard.referenced + InTransit(m.player.point)
    && |m.reference| + |InTransit(m.player.point)| <= RING_BYTES
    && ((m.player.point.Authorizing? || m.player.point.Writing?) && m.player.source == Remote ==>
          |m.reference| + m.player.frames * SAMPLE_BYTES <= RING_BYTES)
  }

  predicate Current(s: seq<Piece>, session: nat) {
    forall i :: 0 <= i < |s| ==> s[i].Rtc? && s[i].session == session
  }

  /** Disconnected, and known to be by whoever plays. */
  predicate Cut(m: Media) {
    !m.flags.connected && !m.flags.disconnecting && !m.owner.control.Clearing?
  }

  /** Unless a disconnect waits to be noticed, only the current session's sound is held,
      and none while RTC is down; as long as no flush has taken back the word of a disconnect. */
  predicate SessionOk(m: Media) {
    !m.owner.forgot && m.flags.running && !m.flags.clearPending && !Emptying(m.player.point) ==>
      Current(Held(m), m.flags.session) && (Cut(m) ==> Held(m) == [])
  }

  predicate OutOk(o: Out) {
    o.piece.Rtc? && (o.plain ==> o.value == o.piece.value)
  }

  predicate OutCurrent(o: Out) {
    o.piece.Rtc? && (o.late || o.piece.session == o.session)
  }

  predicate OutsOk(outs: seq<Out>, forgot: bool) {
    forall i :: 0 <= i < |outs| ==> OutOk(outs[i]) && (!forgot ==> OutCurrent(outs[i]))
  }

  predicate FlushedOk(m: Media) {
    && (m.owner.flushed.capture || m.owner.flushed.playback || m.owner.flushed.send ==> Silent(m))
    && (m.owner.flushed.capture ==> m.mic.point.Watching?)
    && (m.owner.flushed.playback ==> Held(m) == [] && InTransit(m.player.point) == [])
    && (m.owner.flushed.capture && (m.owner.flushed.send || m.sendPoint.EmptyingReference?) ==>
          m.mic.ring == [])
    && (m.owner.flushed.playback && m.owner.flushed.send ==> m.reference == [])
  }

  predicate ControlOk(m: Media) {
    && (m.player.point.Flushing? || m.player.point.Unflagging? <==> m.owner.control.PlaybackFlushing?)
    && (m.sendPoint.EmptyingCapture? || m.sendPoint.EmptyingReference? <==> m.owner.control.SendFlushing?)
    && (m.owner.control.Clearing? ==> !m.owner.live)
    && (!m.owner.live ==> QuietControlOk(m))
  }

  /** A flush begun with RTC down leaves behind it what it emptied. */
  predicate QuietControlOk(m: Media) {
    && (!m.owner.control.Free? ==> !m.flags.connected)
    && (m.owner.control == PlaybackFlush(true) || m.owner.control == PlaybackFlushing(true) ==>
          m.owner.flushed.capture)
    && (m.owner.control == SendFlush(true) || m.owner.control == SendFlushing(true) ==>
          m.owner.flushed.capture && m.owner.flushed.playback)
    && (m.owner.control == Returned(true) ==> m.owner.flushed == Flushed(true, true, true))
    && (m.player.point.Unflagging? ==> Held(m) == [])
  }

  predicate Inv(m: Media) {
    && PlayerOk(m.player)
    && LineOk(m)
    && ReferenceOk(m)
    && SessionOk(m)
    && OutsOk(m.heard.spoken, m.owner.forgot)
    && FlushedOk(m)
    && ControlOk(m)
  }

  // ---- Dropping sound ----

  lemma OrderedWithout(s: seq<Piece>, i: nat, j: nat, accepted: seq<Piece>)
    requires Ordered(s, accepted) && i <= j <= |s|
    ensures Ordered(s[..i] + s[j..], accepted)
  {
    var t := s[..i] + s[j..];
    assert forall k :: 0 <= k < |t| ==> t[k] == s[if k < i then k else k + (j - i)];
    hide Genuine;
  }

  /** What is held loses some bytes; nothing is heard or received. */
  predicate Fewer(a: Media, b: Media, i: nat, j: nat) {
    && i <= j <= |Held(a)|
    && Held(b) == Held(a)[..i] + Held(a)[j..]
    && b.heard.spoken == a.heard.spoken
    && b.heard.accepted == a.heard.accepted
    && b.flags.session == a.flags.session
  }

  lemma FewerKeeps(a: Media, b: Media, i: nat, j: nat)
    requires LineOk(a) && Fewer(a, b, i, j)
    ensures LineOk(b)
    ensures Current(Held(a), a.flags.session) ==> Current(Held(b), b.flags.session)
    ensures Held(a) == [] ==> Held(b) == []
  {
    hide Ordered, Held;
    var n := |Pieces(a.heard.spoken)|;
    assert Line(b) == Line(a)[..n + i] + Line(a)[n + j..];
    OrderedWithout(Line(a), n + i, n + j, a.heard.accepted);
  }

  // ---- The playback worker ----

  lemma RestSame(p: Player, q: Player)
    requires Left(q) == Left(p) && q.offset == p.offset && q.buffer == p.buffer
    ensures Rest(q) == Rest(p)
  {
  }

  lemma HeldSame(a: Media, b: Media)
    requires LineOk(a)
    requires Left(b.player) == Left(a.player) && b.player.offset == a.player.offset
    requires b.player.buffer == a.player.buffer && b.player.source == a.player.source
    requires Emptying(a.player.point) == Emptying(b.player.point) && b.remote == a.remote
    requires b.heard.spoken == a.heard.spoken && b.heard.accepted == a.heard.accepted
    ensures Held(b) == Held(a) && LineOk(b)
  {
    RestSame(a.player, b.player);
    hide Ordered;
  }

  /** The pending frame is given up. */
  lemma HeldWithoutPending(a: Media, b: Media)
    requires LineOk(a) && HeldRest(b.player) == [] && b.remote == a.remote
    requires b.heard.spoken == a.heard.spoken && b.heard.accepted == a.heard.accepted
    requires b.flags.session == a.flags.session
    ensures LineOk(b) && Held(b) == b.remote
    ensures Current(Held(a), a.flags.session) ==> Current(Held(b), b.flags.session)
    ensures Held(a) == [] ==> Held(b) == []
  {
    hide HeldRest;
    FewerKeeps(a, b, 0, |HeldRest(a.player)|);
  }

  /** The oldest bytes of the ring are given up. */
  lemma HeldWithoutRing(a: Media, b: Media, k: nat)
    requires LineOk(a) && HeldRest(b.player) == HeldRest(a.player)
    requires k <= |a.remote| && b.remote == a.remote[k..]
    requires b.heard == a.heard && b.flags.session == a.flags.session
    ensures LineOk(b)
    ensures Current(Held(a), a.flags.session) ==> Current(Held(b), b.flags.session)
    ensures Held(a) == [] ==> Held(b) == []
  {
    hide HeldRest;
    var n := |HeldRest(a.player)|;
    FewerKeeps(a, b, n, n + k);
  }

  lemma BeginKeeps(m: Media)
    requires Inv(m) && m.player.point.Resting?
    ensures Inv(Begin(m))
  {
    HeldSame(m, Begin(m));
    hide Held, LineOk, OutsOk, OutValues, Current;
  }

  lemma NoticeKeeps(m: Media)
    requires Inv(m) && m.player.point.GenerationRead?
    ensures Inv(Notice(m, m.player.point.generation))
  {
    if m.flags.clearPending || m.player.generation != m.player.point.generation {
      NoticedKeeps(m);
    } else {
      UnnoticedKeeps(m);
    }
    hide Inv, Notice;
  }

  lemma NoticedKeeps(m: Media)
    requires Inv(m) && m.player.point.GenerationRead?
    requires m.flags.clearPending || m.player.generation != m.player.point.generation
    ensures Inv(Notice(m, m.player.point.generation))
  {
    HeldWithoutPending(m, Notice(m, m.player.point.generation));
    hide Held, LineOk, OutsOk, OutValues, Current;
  }

  lemma UnnoticedKeeps(m: Media)
    requires Inv(m) && m.player.point.GenerationRead?
    requires !m.flags.clearPending && m.player.generation == m.player.point.generation
    ensures Inv(Notice(m, m.player.point.generation))
  {
    HeldSame(m, Notice(m, m.player.point.generation));
    hide Held, LineOk, OutsOk, OutValues, Current;
  }

  lemma DrainChunkKeeps(m: Media)
    requires Inv(m) && m.player.point.Draining? && m.remote != []
    ensures Inv(Drain(m, m.player.point.generation))
  {
    hide Rest;
    HeldWithoutRing(m, Drain(m, m.player.point.generation), Chunk(m));
    hide Held, LineOk, OutsOk, OutValues, Current;
  }

  lemma DrainDoneKeeps(m: Media)
    requires Inv(m) && m.player.point.Draining? && m.remote == []
    ensures Inv(Drain(m, m.player.point.generation))
  {
    hide Rest;
    HeldWithoutPending(m, Drain(m, m.player.point.generation));
    assert Current([], m.flags.session);
    hide LineOk, OutsOk, OutValues, Current;
  }

  lemma FlushKeeps(m: Media)
    requires Inv(m) && m.player.point.Flushing?
    ensures Inv(Flush(m))
  {
    var b := Flush(m);
    hide Rest;
    if m.remote != [] {
      HeldWithoutRing(m, b, Chunk(m));
      hide Held, LineOk, OutsOk, OutValues, Current;
    } else {
      HeldWithoutPending(m, b);
      assert Current([], b.flags.session);
      hide LineOk, OutsOk, OutValues, Current;
    }
  }

  lemma UnflagKeeps(m: Media)
    requires Inv(m) && m.player.point.Unflagging?
    ensures Inv(Unflag(m))
  {
    HeldSame(m, Unflag(m));
    assert Current([], m.flags.session);
    hide Held, LineOk, OutsOk, OutValues, Current;
  }

  lemma LookKeeps(m: Media)
    requires Inv(m) && m.player.point.Drained?
    ensures Inv(LookForAnnouncement(m, m.player.point.generation))
  {
    HeldSame(m, LookForAnnouncement(m, m.player.point.generation));
    hide Held, LineOk, OutsOk, OutValues, Current;
  }

  lemma SilenceChunkKeeps(m: Media)
    requires Inv(m) && m.player.point.Silencing? && m.remote != []
    ensures Inv(Silence(m, m.player.point.generation))
  {
    hide Rest;
    HeldWithoutRing(m, Silence(m, m.player.point.generation), Chunk(m));
    hide Held, LineOk, OutsOk, OutValues, Current;
  }

  lemma SilencePendingKeeps(m: Media)
    requires Inv(m) && m.player.point.Silencing? && m.remote == []
    requires m.player.frames > 0 && m.player.source != Announcement
    ensures Inv(Silence(m, m.player.point.generation))
  {
    HeldWithoutPending(m, Silence(m, m.player.point.generation));
    hide Held, LineOk, OutsOk, OutValues, Current;
  }

  lemma SilenceDoneKeeps(m: Media)
    requires Inv(m) && m.player.point.Silencing? && m.remote == []
    requires m.player.frames == 0 || m.player.source == Announcement
    ensures Inv(Silence(m, m.player.point.generation))
  {
    HeldSame(m, Silence(m, m.player.point.generation));
    hide Held, LineOk, OutsOk, OutValues, Current;
  }

  lemma RoomKeeps(m: Media)
    requires Inv(m) && m.player.point.Preparing?
    ensures Inv(RoomToReference(m))
  {
    HeldSame(m, RoomToReference(m));
    hide Held, LineOk, OutsOk, OutValues, Current;
  }

  /** A full frame moves from the ring into the pending frame. */
  lemma TakeFrameKeeps(m: Media, generation: nat)
    requires Inv(m) && m.player.point.Preparing? && m.player.frames == 0 && |m.remote| >= FRAME_BYTES
    ensures Inv(TakeFrame(m, generation))
  {
    var b := TakeFrame(m, generation);
    FrameHeld(m, generation);
    hide Held, Ordered, OutsOk, OutValues, Current;
  }

  lemma FrameHeld(m: Media, generation: nat)
    requires |m.player.buffer| == FRAME_BYTES && m.player.point.Preparing? && m.player.frames == 0
    requires |m.remote| >= FRAME_BYTES
    ensures Held(TakeFrame(m, generation)) == Held(m)
    ensures Line(TakeFrame(m, generation)) == Line(m)
  {
    assert HeldRest(m.player) == [];
    assert HeldRest(TakeFrame(m, generation).player) == m.remote[..FRAME_BYTES];
  }

  lemma PrepareAnnouncementKeeps(m: Media, h: Hearing)
    requires Inv(m) && m.player.point.Preparing? && m.player.frames == 0
    ensures Inv(PrepareAnnouncement(m, h))
  {
    var b := PrepareAnnouncement(m, h);
    assert |b.player.buffer| == FRAME_BYTES;
    HeldWithoutPending(m, b);
    hide Held, LineOk, OutsOk, OutValues, Current, Bytes, Prompts;
  }

  lemma PrepareNothingKeeps(m: Media, h: Hearing)
    requires Inv(m) && m.player.point.Preparing? && |m.remote| < FRAME_BYTES
    ensures Inv(m.(player := At(m.player, Resting)))
  {
    HeldSame(m, m.(player := At(m.player, Resting)));
    hide Held, LineOk, OutsOk, OutValues, Current;
  }

  lemma PrepareKeeps(m: Media, announcing: bool, h: Hearing)
    requires Inv(m) && m.player.point.Preparing? && m.player.frames == 0
    ensures Inv(Prepare(m, m.player.point.generation, announcing, h))
  {
    hide Inv, PrepareAnnouncement, RoomToReference;
    if announcing {
      PrepareAnnouncementKeeps(m, h);
    } else if |m.remote| < FRAME_BYTES {
      PrepareNothingKeeps(m, h);
    } else {
      TakeFrameKeeps(m, m.player.point.generation);
      RoomKeeps(TakeFrame(m, m.player.point.generation));
    }
  }

  lemma AuthorizeKeeps(m: Media)
    requires Inv(m) && m.player.point.Authorizing?
    ensures Inv(Authorize(m))
  {
    if m.flags.announceGeneration != m.player.generation {
      HeldWithoutPending(m, Authorize(m));
      hide Held, LineOk, OutsOk, OutValues, Current;
    } else {
      HeldSame(m, Authorize(m));
      hide Held, LineOk, OutsOk, OutValues, Current;
    }
  }

  lemma FinishKeeps(m: Media)
    requires Inv(m) && m.player.point.Finishing?
    ensures Inv(Finish(m))
  {
    if m.player.frames == 0 || m.flags.announceGeneration != m.player.generation {
      HeldWithoutPending(m, Finish(m));
      hide Held, LineOk, OutsOk, OutValues, Current;
    } else {
      HeldSame(m, Finish(m));
      hide Held, LineOk, OutsOk, OutValues, Current;
    }
  }

  /** The failure branch is never taken: there is room for what the speaker took. */
  lemma ReferenceKeeps(m: Media)
    requires Inv(m) && m.player.point.Referencing?
    ensures Inv(Reference(m, m.player.point.bytes))
    ensures Reference(m, m.player.point.bytes).flags.connected == m.flags.connected
  {
    if m.player.point.bytes == [] {
      ReferenceNothingKeeps(m);
    } else {
      ReferenceBytesKeeps(m);
    }
    hide Inv, Reference;
  }

  lemma ReferenceNothingKeeps(m: Media)
    requires Inv(m) && m.player.point.Referencing? && m.player.point.bytes == []
    ensures Inv(Reference(m, m.player.point.bytes))
    ensures Reference(m, m.player.point.bytes).flags.connected == m.flags.connected
  {
    HeldSame(m, Reference(m, m.player.point.bytes));
    hide Held, LineOk, OutsOk, OutValues, Current;
  }

  lemma ReferenceBytesKeeps(m: Media)
    requires Inv(m) && m.player.point.Referencing? && m.player.point.bytes != []
    ensures Inv(Reference(m, m.player.point.bytes))
    ensures Reference(m, m.player.point.bytes).flags.connected == m.flags.connected
  {
    HeldSame(m, Reference(m, m.player.point.bytes));
    hide Held, LineOk, OutsOk, OutValues, Current;
  }

  // ---- Writing to the device ----

  lemma WriteDroppedKeeps(m: Media, h: Hearing)
    requires Inv(m) && m.player.point.Writing? && !(0 <= h.written <= m.player.frames)
    ensures Inv(Write(m, h))
  {
    HeldWithoutPending(m, Write(m, h));
    hide Held, LineOk, OutsOk, OutValues, Current;
  }

  lemma WriteAnnouncementKeeps(m: Media, h: Hearing)
    requires Inv(m) && m.player.point.Writing? && 0 <= h.written <= m.player.frames
    requires m.player.source != Remote
    ensures Inv(Write(m, h))
  {
    HeldWithoutPending(m, Write(m, h));
    hide Held, LineOk, OutsOk, OutValues, Current, WriteData;
  }

  lemma RestSplits(p: Player, q: Player, written: nat)
    requires PlayerOk(p) && p.point.Writing? && written <= p.frames && q.buffer == p.buffer
    requires q.offset == p.offset + written && q.frames == p.frames
    requires q.point.Referencing? && q.point.written == written
    ensures |Rest(p)| == p.frames * SAMPLE_BYTES && Rest(q) == Rest(p)[written * SAMPLE_BYTES..]
  {
  }

  lemma PiecesJoin(m: Media, pieces: seq<Piece>, values: seq<int>)
    requires |pieces| == |values|
    ensures Pieces(m.heard.spoken + Outs(pieces, values, m)) == Pieces(m.heard.spoken) + pieces
    ensures OutValues(m.heard.spoken + Outs(pieces, values, m)) == OutValues(m.heard.spoken) + values
  {
  }

  lemma WriteForm(m: Media, h: Hearing)
    requires PlayerOk(m.player) && m.player.point.Writing? && 0 <= h.written <= m.player.frames
    requires m.player.source == Remote
    ensures var n := h.written * SAMPLE_BYTES;
      var rest, data := Rest(m.player), WriteData(m, h);
      && n <= |rest| == |data|
      && |rest| == m.player.frames * SAMPLE_BYTES
      && Write(m, h) == m.(
           heard := m.heard.(spoken := m.heard.spoken + Outs(rest[..n], data[..n], m)),
           player := At(m.player.(offset := m.player.offset + h.written), Referencing(data[..n], h.written)))
  {
    hide Outs;
  }

  lemma Regrouped(x: seq<Piece>, rest: seq<Piece>, y: seq<Piece>, n: nat)
    requires n <= |rest|
    ensures (x + rest[..n]) + (rest[n..] + y) == x + (rest + y)
    ensures (rest + y)[n..] == rest[n..] + y
  {
  }

  /** The bytes written leave the pending frame and join the bytes spoken. */
  lemma WriteLine(m: Media, h: Hearing)
    requires PlayerOk(m.player) && m.player.point.Writing? && 0 <= h.written <= m.player.frames
    requires m.player.source == Remote
    ensures var n := h.written * SAMPLE_BYTES;
      && n <= |Rest(m.player)| == |WriteData(m, h)| == m.player.frames * SAMPLE_BYTES
      && Write(m, h).heard.spoken == m.heard.spoken + Outs(Rest(m.player)[..n], WriteData(m, h)[..n], m)
      && Write(m, h).player.point == Referencing(WriteData(m, h)[..n], h.written)
      && Held(m) == Rest(m.player) + m.remote
      && Held(Write(m, h)) == Held(m)[n..]
      && Line(Write(m, h)) == Line(m)
  {
    WriteForm(m, h);
    var b := Write(m, h);
    RestSplits(m.player, b.player, h.written);
    var n := h.written * SAMPLE_BYTES;
    PiecesJoin(m, Rest(m.player)[..n], WriteData(m, h)[..n]);
    Regrouped(Pieces(m.heard.spoken), Rest(m.player), m.remote, n);
    hide Write, WriteData, Outs, Pieces, Rest, PlayerOk, OutValues;
    assert HeldRest(b.player) == Rest(m.player)[n..];
  }

  lemma WriteOuts(m: Media, h: Hearing)
    requires Inv(m) && m.player.point.Writing? && 0 <= h.written <= m.player.frames
    requires m.player.source == Remote
    ensures OutsOk(Write(m, h).heard.spoken, m.owner.forgot)
  {
    WriteLine(m, h);
    PlainData(m, h);
    AcceptedPieces(m);
    hide Ordered, FlushedOk, ControlOk, ReferenceOk, Rest, Write, Line, WriteData, AcceptedOk, Values;
    hide PlayerOk;
    var b := Write(m, h);
    forall i | |m.heard.spoken| <= i < |b.heard.spoken|
      ensures OutOk(b.heard.spoken[i]) && (!m.owner.forgot ==> OutCurrent(b.heard.spoken[i]))
    {
      NewOut(m, h, i - |m.heard.spoken|);
    }
  }

  lemma PlainData(m: Media, h: Hearing)
    ensures !m.flags.muted && !m.flags.shaping ==> WriteData(m, h) == Values(Rest(m.player))
  {
  }

  lemma NewOut(m: Media, h: Hearing, k: nat)
    requires Inv(m) && m.player.point.Writing? && 0 <= h.written <= m.player.frames
    requires m.player.source == Remote && k < h.written * SAMPLE_BYTES
    ensures |m.heard.spoken| + k < |Write(m, h).heard.spoken|
    ensures var o := Write(m, h).heard.spoken[|m.heard.spoken| + k];
      OutOk(o) && (!m.owner.forgot ==> OutCurrent(o))
  {
    WriteLine(m, h);
    PlainData(m, h);
    AcceptedPieces(m);
    hide Ordered, FlushedOk, ControlOk, ReferenceOk, Rest, Write, Line, WriteData, AcceptedOk, OutsOk;
    hide PlayerOk;
    var rest, data := Rest(m.player), WriteData(m, h);
    assert rest[k] == Held(m)[k];
    assert Write(m, h).heard.spoken[|m.heard.spoken| + k] ==
      Out(rest[k], data[k], !m.flags.muted && !m.flags.shaping, m.flags.session,
          m.flags.clearPending || !m.flags.running);
  }

  lemma AcceptedPieces(m: Media)
    requires LineOk(m)
    ensures forall i :: 0 <= i < |Held(m)| ==> Held(m)[i].Rtc?
  {
    assert forall i :: 0 <= i < |Held(m)| ==> Held(m)[i] == Line(m)[|m.heard.spoken| + i];
    hide Held;
  }

  lemma WriteRemoteKeeps(m: Media, h: Hearing)
    requires Inv(m) && m.player.point.Writing? && 0 <= h.written <= m.player.frames
    requires m.player.source == Remote
    ensures Inv(Write(m, h))
  {
    hide Ordered, Rest, WriteData, OutsOk, OutValues, Outs, Line, Held, Write;
    WriteLine(m, h);
    WriteOuts(m, h);
    var n := h.written * SAMPLE_BYTES;
    PiecesJoin(m, Rest(m.player)[..n], WriteData(m, h)[..n]);
    WriteFrame(m, h);
    var b := Write(m, h);
    assert Current(Held(m), m.flags.session) ==> Current(Held(b), m.flags.session);
    hide Current;
  }

  lemma WriteFrame(m: Media, h: Hearing)
    requires PlayerOk(m.player) && m.player.point.Writing? && 0 <= h.written <= m.player.frames
    requires m.player.source == Remote
    ensures PlayerOk(Write(m, h).player)
    ensures Write(m, h) ==
      m.(heard := m.heard.(spoken := Write(m, h).heard.spoken), player := Write(m, h).player)
  {
    hide Outs, WriteData;
  }

  lemma WriteKeeps(m: Media, h: Hearing)
    requires Inv(m) && m.player.point.Writing?
    ensures Inv(Write(m, h))
  {
    hide Inv, Write;
    if h.written < 0 || h.written > m.player.frames {
      WriteDroppedKeeps(m, h);
    } else if m.player.source != Remote {
      WriteAnnouncementKeeps(m, h);
    } else {
      WriteRemoteKeeps(m, h);
    }
  }

  lemma PlaybackStepKeeps(m: Media, h: Hearing)
    requires Inv(m)
    ensures Inv(PlaybackStep(m, h))
  {
    hide Inv, Begin, Notice, Drain, LookForAnnouncement, Silence, Prepare, RoomToReference;
    hide Authorize, Write, Reference, Finish, Flush, Unflag;
    match m.player.point
    case Resting => BeginKeeps(m);
    case GenerationRead(g) => NoticeKeeps(m);
    case Draining(g) =>
      if m.remote != [] {
        DrainChunkKeeps(m);
      } else {
        DrainDoneKeeps(m);
      }
    case Drained(g) => LookKeeps(m);
    case Silencing(g) =>
      if m.remote != [] {
        SilenceChunkKeeps(m);
      } else if m.player.frames > 0 && m.player.source != Announcement {
        SilencePendingKeeps(m);
      } else {
        SilenceDoneKeeps(m);
      }
    case Preparing(g, announcing) =>
      if m.player.frames == 0 {
        PrepareKeeps(m, announcing, h);
      } else {
        RoomKeeps(m);
      }
    case Authorizing => AuthorizeKeeps(m);
    case Writing => WriteKeeps(m, h);
    case Referencing(_, _) => ReferenceKeeps(m);
    case Finishing => FinishKeeps(m);
    case Flushing => FlushKeeps(m);
    case Unflagging => UnflagKeeps(m);
  }

  // ---- The other workers, RTC and the control owner ----

  /** Nothing of the player or of RTC sound changes. */
  predicate SamePlayback(a: Media, b: Media) {
    && b.player == a.player
    && b.remote == a.remote
    && b.heard.spoken == a.heard.spoken
    && b.heard.accepted == a.heard.accepted
    && b.heard.referenced == a.heard.referenced
    && (a.owner.forgot ==> b.owner.forgot)
  }

  lemma SamePlaybackKeeps(a: Media, b: Media)
    requires Inv(a) && SamePlayback(a, b)
    ensures Held(b) == Held(a) && LineOk(b) && PlayerOk(b.player) && OutsOk(b.heard.spoken, b.owner.forgot)
    ensures |b.reference| <= |a.reference| ==> ReferenceOk(b)
  {
    ForgettingAllows(a.heard.spoken, a.owner.forgot, b.owner.forgot);
    hide Ordered, OutsOk, OutValues, Rest;
  }

  lemma ForgettingAllows(outs: seq<Out>, before: bool, after: bool)
    requires OutsOk(outs, before) && (before ==> after)
    ensures OutsOk(outs, after)
  {
  }

  /** Captured sound and references may be taken away at any time. */
  lemma TakenKeeps(m: Media, b: Media)
    requires Inv(m)
    requires b == m.(mic := m.mic.(ring := b.mic.ring), reference := b.reference, sendPoint := b.sendPoint)
    requires |b.reference| <= |m.reference| && |b.mic.ring| <= |m.mic.ring|
    requires b.sendPoint == m.sendPoint ||
      (!m.sendPoint.EmptyingCapture? && !m.sendPoint.EmptyingReference? &&
       !b.sendPoint.EmptyingCapture? && !b.sendPoint.EmptyingReference?)
    ensures Inv(b)
  {
    SamePlaybackKeeps(m, b);
    hide Held, LineOk, PlayerOk, OutsOk, ReferenceOk, Current, InTransit;
  }

  /** Captured sound comes only from a worker that saw RTC up. */
  lemma CapturedKeeps(m: Media, b: Media)
    requires Inv(m)
    requires b == m.(mic := m.mic.(ring := b.mic.ring, point := b.mic.point))
    requires m.mic.point.Holding? || m.flags.connected || b == m
    ensures Inv(b)
  {
    SamePlaybackKeeps(m, b);
    hide Held, LineOk, PlayerOk, OutsOk, ReferenceOk, Current, InTransit;
  }

  lemma CaptureKeeps(m: Media, bytes: seq<int>)
    requires Inv(m)
    ensures Inv(CaptureRead(m, bytes)) && Inv(CaptureWrite(m))
  {
    hide Inv;
    CapturedKeeps(m, CaptureRead(m, bytes));
    CapturedKeeps(m, CaptureWrite(m));
  }

  lemma SendKeeps(m: Media)
    requires Inv(m)
    ensures Inv(SendStep(m))
  {
    hide Inv;
    match m.sendPoint
    case Listening => TakenKeeps(m, SendStep(m));
    case Sending => TakenKeeps(m, SendStep(m));
    case EmptyingCapture =>
      if m.mic.ring != [] {
        TakenKeeps(m, SendStep(m));
      } else {
        CaptureEmptiedKeeps(m);
      }
    case EmptyingReference =>
      if m.reference != [] {
        TakenKeeps(m, SendStep(m));
      } else {
        SendFlushedKeeps(m);
      }
  }

  lemma CaptureEmptiedKeeps(m: Media)
    requires Inv(m) && m.sendPoint.EmptyingCapture? && m.mic.ring == []
    ensures Inv(m.(sendPoint := EmptyingReference))
  {
    SamePlaybackKeeps(m, m.(sendPoint := EmptyingReference));
    hide Held, LineOk, PlayerOk, OutsOk, ReferenceOk, Current, InTransit;
  }

  lemma SendFlushedKeeps(m: Media)
    requires Inv(m) && m.sendPoint.EmptyingReference? && m.reference == []
    ensures Inv(SendStep(m))
  {
    hide Dropped;
    SamePlaybackKeeps(m, SendStep(m));
    hide Held, LineOk, PlayerOk, OutsOk, ReferenceOk, Current, InTransit;
  }

  lemma PushLine(m: Media, data: seq<int>)
    requires LineOk(m)
    ensures var b := m.(remote := m.remote + Tagged(m, data),
                        heard := m.heard.(accepted := m.heard.accepted + Tagged(m, data)));
      && LineOk(b)
      && Held(b) == Held(m) + Tagged(m, data)
      && (Current(Held(m), m.flags.session) ==> Current(Held(b), m.flags.session))
  {
    var more := Tagged(m, data);
    var b := m.(remote := m.remote + more, heard := m.heard.(accepted := m.heard.accepted + more));
    hide Rest, HeldRest;
    assert HeldRest(b.player) == HeldRest(m.player);
    assert Held(b) == Held(m) + more;
    hide Held;
    assert Line(b) == Line(m) + more;
    OrderedGrows(Line(m), m.heard.accepted, more);
  }

  lemma OrderedGrows(s: seq<Piece>, accepted: seq<Piece>, more: seq<Piece>)
    requires Ordered(s, accepted) && AcceptedOk(accepted)
    requires forall i :: 0 <= i < |more| ==> more[i].Rtc? && more[i].index == |accepted| + i
    ensures Ordered(s + more, accepted + more) && AcceptedOk(accepted + more)
  {
  }

  lemma PushKeeps(m: Media, data: seq<int>)
    requires Inv(m)
    ensures Inv(Push(m, data))
  {
    if Push(m, data) != m {
      PushLine(m, data);
      hide Rest, LineOk, OutsOk, OutValues, Current, Tagged, Held;
    }
  }

  lemma ConnectKeeps(m: Media)
    requires Inv(m)
    ensures Inv(Connect(m))
  {
    SamePlaybackKeeps(m, Connect(m));
    assert Current([], m.flags.session + 1);
    hide Held, LineOk, PlayerOk, OutsOk, ReferenceOk, Current, InTransit;
  }

  lemma DisconnectKeeps(m: Media)
    requires Inv(m)
    ensures Inv(Disconnect(m))
  {
    SamePlaybackKeeps(m, Disconnect(m));
    hide Held, LineOk, PlayerOk, OutsOk, ReferenceOk, Current, InTransit;
  }

  lemma BeginEndKeeps(m: Media)
    requires Inv(m)
    ensures Inv(BeginEnd(m))
  {
    SamePlaybackKeeps(m, BeginEnd(m));
    hide Held, LineOk, PlayerOk, OutsOk, ReferenceOk, Current, InTransit;
  }

  lemma BeginFlushKeeps(m: Media)
    requires Inv(m)
    ensures Inv(BeginFlush(m))
  {
    SamePlaybackKeeps(m, BeginFlush(m));
    hide Held, LineOk, PlayerOk, OutsOk, ReferenceOk, Current, InTransit;
  }

  lemma ClearingKeeps(m: Media)
    requires Inv(m) && m.owner.control.Clearing?
    ensures Inv(ControlStep(m, true))
  {
    SamePlaybackKeeps(m, ControlStep(m, true));
    hide Held, LineOk, PlayerOk, OutsOk, ReferenceOk, Current, InTransit;
  }

  /** A call that could not be made leaves its worker's flush uncounted. */
  lemma CallFailedKeeps(m: Media, c: ControlPoint)
    requires Inv(m) && c in {PlaybackFlush(false), SendFlush(false), Returned(false)}
    requires m.owner.control.CaptureBarrier? || m.owner.control.PlaybackFlush? || m.owner.control.SendFlush?
    ensures Inv(m.(owner := m.owner.(control := c)))
  {
    SamePlaybackKeeps(m, m.(owner := m.owner.(control := c)));
    hide Held, LineOk, PlayerOk, OutsOk, ReferenceOk, Current, InTransit;
  }

  lemma BarrierKeeps(m: Media)
    requires Inv(m) && m.owner.control.CaptureBarrier? && m.mic.point.Watching?
    ensures Inv(m.(owner := m.owner.(control := PlaybackFlush(true), flushed := CaptureFlushed(m))))
  {
    SamePlaybackKeeps(m, m.(owner := m.owner.(control := PlaybackFlush(true), flushed := CaptureFlushed(m))));
    hide Held, LineOk, PlayerOk, OutsOk, ReferenceOk, Current, InTransit;
  }

  lemma SendFlushStartKeeps(m: Media)
    requires Inv(m) && m.owner.control.SendFlush? && m.sendPoint.Listening?
    ensures Inv(ControlStep(m, true))
  {
    SamePlaybackKeeps(m, ControlStep(m, true));
    hide Held, LineOk, PlayerOk, OutsOk, ReferenceOk, Current, InTransit;
  }

  lemma ControlStepKeeps(m: Media, ok: bool)
    requires Inv(m)
    ensures Inv(ControlStep(m, ok))
  {
    hide Inv;
    match m.owner.control
    case Clearing => ClearingKeeps(m);
    case CaptureBarrier =>
      if !ok {
        CallFailedKeeps(m, PlaybackFlush(false));
      } else if m.mic.point.Watching? {
        BarrierKeeps(m);
      }
    case PlaybackFlush(_) =>
      if !ok {
        CallFailedKeeps(m, SendFlush(false));
      } else if m.player.point.Resting? {
        FlushStartKeeps(m);
      }
    case SendFlush(_) =>
      if !ok {
        CallFailedKeeps(m, Returned(false));
      } else if m.sendPoint.Listening? {
        SendFlushStartKeeps(m);
      }
    case _ =>
  }

  lemma FlushStartKeeps(m: Media)
    requires Inv(m) && m.owner.control.PlaybackFlush? && m.player.point.Resting?
    ensures Inv(ControlStep(m, true))
  {
    HeldWithoutPending(m, ControlStep(m, true));
    hide Held, LineOk, OutsOk, OutValues, Current;
  }

  lemma SettingsKeep(m: Media, b: Media)
    requires Inv(m)
    requires b == m.(flags := m.flags.(muted := b.flags.muted, shaping := b.flags.shaping,
                                       announcing := b.flags.announcing,
                                       announceGeneration := b.flags.announceGeneration))
    ensures Inv(b)
  {
    SamePlaybackKeeps(m, b);
    hide Held, LineOk, PlayerOk, OutsOk, ReferenceOk, Current, InTransit;
  }

  lemma StopKeeps(m: Media)
    requires Inv(m)
    ensures Inv(m.(flags := m.flags.(running := false, connected := false)))
  {
    SamePlaybackKeeps(m, m.(flags := m.flags.(running := false, connected := false)));
    hide Held, LineOk, PlayerOk, OutsOk, ReferenceOk, Current, InTransit;
  }

  // ---- All runs ----

  lemma StartedOk()
    ensures Inv(Started())
  {
    assert Held(Started()) == [];
    assert Line(Started()) == [];
    assert OutValues([]) == [];
    assert |Started().player.buffer| == FRAME_BYTES;
  }

  lemma NextKeeps(m: Media, s: Step)
    requires Inv(m)
    ensures Inv(Next(m, s))
  {
    hide Inv, PlaybackStep, CaptureRead, CaptureWrite, SendStep, Push, Connect, Disconnect;
    hide BeginEnd, BeginFlush, ControlStep;
    match s
    case Playback(h) => PlaybackStepKeeps(m, h);
    case Capturing(bytes) => CaptureKeeps(m, bytes);
    case Captured => CaptureKeeps(m, []);
    case Send => SendKeeps(m);
    case Pushing(data) => PushKeeps(m, data);
    case Connecting => ConnectKeeps(m);
    case Disconnecting => DisconnectKeeps(m);
    case EndSession => BeginEndKeeps(m);
    case FlushSession => BeginFlushKeeps(m);
    case Control(ok) => ControlStepKeeps(m, ok);
    case PlayPrompt => SettingsKeep(m, Next(m, s));
    case StopPrompt => SettingsKeep(m, Next(m, s));
    case Mute(on) => SettingsKeep(m, Next(m, s));
    case Shape(on) => SettingsKeep(m, Next(m, s));
    case Stop => StopKeeps(m);
  }

  lemma {:induction false} RunKeeps(m: Media, steps: seq<Step>)
    requires Inv(m)
    ensures Inv(Run(m, steps))
    decreases |steps|
  {
    if steps != [] {
      RunKeeps(m, steps[..|steps| - 1]);
      NextKeeps(Run(m, steps[..|steps| - 1]), steps[|steps| - 1]);
    }
    hide Inv, Next;
  }

  lemma {:induction false} RunAppend(m: Media, before: seq<Step>, after: seq<Step>)
    ensures Run(m, before + after) == Run(Run(m, before), after)
    decreases |after|
  {
    if after == [] {
      assert before + after == before;
    } else {
      var n := |after| - 1;
      assert (before + after)[..|before + after| - 1] == before + after[..n];
      RunAppend(m, before, after[..n]);
    }
  }

  // ---- The promises ----

  /** Nothing of the session is left anywhere. */
  predicate Emptied(m: Media) {
    && !m.flags.connected
    && m.mic.ring == []
    && m.mic.point == Watching
    && m.reference == []
    && m.remote == []
    && (m.player.source == Remote && !Emptying(m.player.point) ==> Rest(m.player) == [])
  }

  lemma FlushedIsEmptied(m: Media)
    requires Inv(m) && m.owner.flushed == Flushed(true, true, true)
    ensures Emptied(m)
  {
    hide LineOk, OutsOk, OutValues, Current, Rest;
  }

  /** A flush ended well, begun with RTC down. */
  predicate EndedWell(m: Media) {
    m.owner.control == Returned(true) && !m.owner.live
  }

  lemma EndedIsFlushed(m: Media)
    requires Inv(m) && EndedWell(m)
    ensures m.owner.flushed == Flushed(true, true, true) && Emptied(m)
  {
    FlushedIsEmptied(m);
    hide LineOk, OutsOk, SessionOk, PlayerOk, ReferenceOk, FlushedOk, Emptied, Held;
  }

  /** When end_session, or a flush_session begun with RTC down, has returned success, all session
      sound is gone, whatever the workers did meanwhile. */
  lemma EndSessionEmpties(steps: seq<Step>)
    requires EndedWell(Run(Started(), steps))
    ensures Emptied(Run(Started(), steps))
  {
    hide Inv, Run, Emptied;
    StartedOk();
    RunKeeps(Started(), steps);
    EndedIsFlushed(Run(Started(), steps));
  }

  predicate NoConnect(steps: seq<Step>) {
    forall i :: 0 <= i < |steps| ==> !steps[i].Connecting?
  }

  lemma PlaybackFlushedStays(m: Media, h: Hearing)
    requires Silent(m) && m.owner.flushed == Flushed(true, true, true)
    ensures PlaybackStep(m, h).owner.flushed == m.owner.flushed
  {
    hide Outs, Rest, WriteData, Bytes, Prompts, Write, Reference, DrainOnce, PrepareAnnouncement;
    PrepareFlushedStays(m, h);
    hide Prepare, RoomToReference;
  }

  lemma PrepareFlushedStays(m: Media, h: Hearing)
    ensures RoomToReference(m).owner.flushed == m.owner.flushed
    ensures forall g: nat, announcing :: Prepare(m, g, announcing, h).owner.flushed == m.owner.flushed
    ensures Write(m, h).owner.flushed == m.owner.flushed
    ensures forall bytes :: Reference(m, bytes).owner.flushed == m.owner.flushed
    ensures |m.player.buffer| == FRAME_BYTES ==> DrainOnce(m).owner.flushed == m.owner.flushed
  {
    hide Outs, Rest, WriteData, Bytes, Prompts;
  }

  lemma OthersFlushedStays(m: Media, s: Step)
    requires ControlOk(m) && FlushedOk(m) && m.owner.flushed == Flushed(true, true, true)
    requires !s.Connecting? && !s.Playback?
    ensures Next(m, s).owner.flushed == m.owner.flushed
  {
    hide Held, Dropped, CaptureWrite, Tagged;
    CaptureFlushedStays(m);
  }

  lemma CaptureFlushedStays(m: Media)
    ensures CaptureWrite(m).owner.flushed == m.owner.flushed
  {
  }

  lemma FlushedStays(m: Media, s: Step)
    requires Inv(m) && m.owner.flushed == Flushed(true, true, true) && !s.Connecting?
    ensures Next(m, s).owner.flushed == m.owner.flushed
  {
    if s.Playback? {
      PlaybackFlushedStays(m, s.hearing);
    } else {
      OthersFlushedStays(m, s);
    }
    hide PlaybackStep;
  }

  /** It stays gone until RTC is connected again. */
  lemma {:induction false} EmptiedUntilConnected(m: Media, steps: seq<Step>)
    requires Inv(m) && m.owner.flushed == Flushed(true, true, true) && NoConnect(steps)
    ensures Run(m, steps).owner.flushed == m.owner.flushed && Emptied(Run(m, steps))
    decreases |steps|
  {
    if steps != [] {
      EmptiedUntilConnected(m, steps[..|steps| - 1]);
      RunKeeps(m, steps[..|steps| - 1]);
      FlushedStays(Run(m, steps[..|steps| - 1]), steps[|steps| - 1]);
    }
    RunKeeps(m, steps);
    hide Inv, Next, Emptied;
    FlushedIsEmptied(Run(m, steps));
  }

  /** After a successful end, nothing of the session comes back before RTC is connected again. */
  lemma EndedStaysEmpty(before: seq<Step>, after: seq<Step>)
    requires EndedWell(Run(Started(), before)) && NoConnect(after)
    ensures Emptied(Run(Run(Started(), before), after))
  {
    hide Run, Inv, Emptied;
    StartedOk();
    RunKeeps(Started(), before);
    EndedIsFlushed(Run(Started(), before));
    EmptiedUntilConnected(Run(Started(), before), after);
  }

  /** While no disconnect waits to be noticed, all that the ring and the pending frame hold is of the
      present session, and once RTC is down they hold nothing. */
  lemma HeldIsCurrent(steps: seq<Step>)
    requires !Run(Started(), steps).owner.forgot
    requires Run(Started(), steps).flags.running && !Run(Started(), steps).flags.clearPending
    requires !Emptying(Run(Started(), steps).player.point)
    ensures var m := Run(Started(), steps);
      Current(Held(m), m.flags.session) && (Cut(m) ==> m.remote == [] && HeldRest(m.player) == [])
  {
    StartedOk();
    RunKeeps(Started(), steps);
    hide Run, LineOk, ReferenceOk, OutsOk, FlushedOk, ControlOk, PlayerOk, HeldRest, Current, Cut;
  }

  /** The speaker hears accepted bytes in order, each at most once; at full volume and unmuted
      it hears their very values. */
  lemma SpokenInOrder(steps: seq<Step>, i: nat, j: nat)
    requires i < j < |Run(Started(), steps).heard.spoken|
    ensures var m := Run(Started(), steps);
      var x, y := m.heard.spoken[i], m.heard.spoken[j];
      && x.piece.Rtc? && y.piece.Rtc?
      && x.piece.index < y.piece.index < |m.heard.accepted|
      && m.heard.accepted[x.piece.index] == x.piece && m.heard.accepted[y.piece.index] == y.piece
      && (x.plain ==> x.value == x.piece.value)
  {
    StartedOk();
    RunKeeps(Started(), steps);
    var m := Run(Started(), steps);
    hide Run, ReferenceOk, SessionOk, FlushedOk, ControlOk, PlayerOk, Held;
    assert Line(m)[i] == m.heard.spoken[i].piece && Line(m)[j] == m.heard.spoken[j].piece;
    hide Line;
  }

  /** The echo canceller is given, in order, exactly what the speaker took from RTC. */
  lemma ReferenceIsWhatWasSpoken(steps: seq<Step>)
    ensures var m := Run(Started(), steps);
      OutValues(m.heard.spoken) == m.heard.referenced + InTransit(m.player.point)
  {
    StartedOk();
    RunKeeps(Started(), steps);
    hide Run, LineOk, SessionOk, OutsOk, FlushedOk, ControlOk, PlayerOk;
  }

  /** Writing the reference never fails, so it never stops RTC. */
  lemma ReferenceAlwaysFits(steps: seq<Step>)
    requires Run(Started(), steps).player.point.Referencing?
    ensures var m := Run(Started(), steps);
      && |m.reference| + |m.player.point.bytes| <= RING_BYTES
      && Reference(m, m.player.point.bytes).flags.connected == m.flags.connected
  {
    StartedOk();
    RunKeeps(Started(), steps);
    hide Run;
    ReferenceKeeps(Run(Started(), steps));
    hide LineOk, SessionOk, OutsOk, FlushedOk, ControlOk, PlayerOk, OutValues;
  }
}
