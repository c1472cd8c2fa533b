/** The media pipeline as the program runs it: one object whose rings, pending frame and flags
    the workers' callbacks update in place, while the other threads act in between
    (components/mybot/src/media/mybot_media_pipeline.c). */
module MediaPipeline {
  import P = MediaProtocol
  import I = MediaInvariants
  import C = MediaCallbacks

  class Pipeline {
    var flags: P.Flags
    var mic: P.Mic
    var player: P.Player
    var remote: seq<P.Piece>
    var reference: seq<int>
    var sendPoint: P.SendPoint
    var owner: P.Owner
    var heard: P.History

    /** What the other threads have still to do, in the gaps of the callback now running. */
    var schedule: seq<seq<P.Step>>

    /** Every step taken since the pipeline was started. */
    ghost var trail: seq<P.Step>

    function View(): P.Media
      reads this
    {
      P.Media(flags, mic, player, remote, reference, sendPoint, owner, heard)
    }

    /** The pipeline is where some interleaving of the workers leads. */
    ghost predicate Valid()
      reads this
    {
      View() == P.Run(P.Started(), trail)
    }

    lemma Sound()
      requires Valid()
      ensures I.Inv(View())
    {
      I.StartedOk();
      I.RunKeeps(P.Started(), trail);
    }

    constructor (others: seq<seq<P.Step>>)
      ensures Valid() && trail == [] && schedule == others
    {
      var m := P.Started();
      flags, mic, player, remote, reference := m.flags, m.mic, m.player, m.remote, m.reference;
      sendPoint, owner, heard := m.sendPoint, m.owner, m.heard;
      schedule := others;
      trail := [];
    }

    ghost method Took(s: P.Step)
      requires View() == P.Next(P.Run(P.Started(), trail), s)
      modifies this`trail
      ensures Valid() && trail == old(trail) + [s]
    {
      hide P.Next;
      assert (trail + [s])[..|trail|] == trail;
      trail := trail + [s];
    }

    /** The other threads run for a while. */
    method Pause()
      requires Valid()
      modifies this
      ensures Valid() && schedule == C.Later(old(schedule))
      ensures trail == old(trail) + C.Gap(old(schedule))
      ensures View() == P.Run(old(View()), C.Gap(old(schedule)))
    {
      hide P.Next;
      if schedule == [] {
        return;
      }
      var steps := schedule[0];
      schedule := schedule[1..];
      for i := 0 to |steps|
        invariant Valid() && trail == old(trail) + steps[..i] && schedule == C.Later(old(schedule))
        invariant View() == P.Run(old(View()), steps[..i])
      {
        assert steps[..i + 1][..|steps[..i + 1]| - 1] == steps[..i];
        Other(steps[i]);
      }
      assert steps[..|steps|] == steps;
    }

    /** One step of another thread. */
    method Other(s: P.Step)
      requires Valid()
      modifies this
      ensures Valid() && trail == old(trail) + [s] && schedule == old(schedule)
      ensures View() == P.Next(old(View()), s)
    {
      hide P.Next, P.Run;
      var m := P.Next(View(), s);
      flags, mic, player, remote, reference := m.flags, m.mic, m.player, m.remote, m.reference;
      sendPoint, owner, heard := m.sendPoint, m.owner, m.heard;
      Took(s);
    }

    // ---- Playback ----

    /** The steps taken, and those the callback under way has still to take. */
    ghost function Promise(h: P.Hearing): seq<P.Step>
      requires C.AllBesidePlayback(schedule)
      reads this
    {
      trail + C.Callback(View(), h, schedule)
    }

    /** The same when the gap before the next step is over. */
    ghost function Halfway(h: P.Hearing): seq<P.Step>
      requires C.AllBesidePlayback(schedule)
      reads this
    {
      trail + [P.Playback(h)] + C.Callback(P.PlaybackStep(View(), h), h, schedule)
    }

    /** The callback takes one step. */
    twostate predicate Stepped(h: P.Hearing)
      reads this
    {
      && schedule == old(schedule)
      && trail == old(trail) + [P.Playback(h)]
      && View() == P.PlaybackStep(old(View()), h)
    }

    /** One callback of the playback timer, whatever the others do in its gaps. */
    method PlaybackTimer(h: P.Hearing)
      requires Valid() && player.point.Resting? && C.AllBesidePlayback(schedule)
      modifies this
      ensures Valid() && player.point.Resting?
      ensures !old(flags).running ==>
        View() == old(View()) && trail == old(trail) && schedule == old(schedule)
      ensures old(flags).running ==>
        var m := P.Begin(old(View()));
        && trail == old(trail) + [P.Playback(h)] + C.Callback(m, h, old(schedule))
        && View() == P.Run(m, C.Callback(m, h, old(schedule)))
      ensures old(schedule) == [] && C.FrameWaits(old(View())) && 0 <= h.written <= P.FRAME_SAMPLES ==>
        C.Played(old(View()), h, View())
      ensures old(schedule) == [] && old(flags).running && C.MustDrain(old(View())) ==>
        I.Held(View()) == [] && heard.spoken == old(heard).spoken && !flags.clearPending
    {
      ghost var m := View();
      assert m == P.Run(P.Started(), trail);
      hide Valid, P.Begin, C.FrameWaits, C.Played, C.Callback, P.Next, P.Run, I.Inv, I.Held;
      if flags.running {
        Sound();
        RunPlayback(h);
        Led(old(trail), P.Playback(h), C.Callback(P.Begin(m), h, old(schedule)));
        Began(m, h);
        C.AloneComes(m, h);
      }
    }

    lemma Began(m: P.Media, h: P.Hearing)
      requires m.player.point.Resting?
      ensures P.Next(m, P.Playback(h)) == P.Begin(m)
    {
    }

    /** The steps since a moment of the trail lead from where it was to where it is. */
    lemma Led(before: seq<P.Step>, s: P.Step, after: seq<P.Step>)
      requires Valid() && trail == before + [s] + after
      ensures View() == P.Run(P.Next(P.Run(P.Started(), before), s), after)
    {
      hide P.Next, P.Started;
      I.RunAppend(P.Started(), before + [s], after);
      assert (before + [s])[..|before|] == before;
    }

    method RunPlayback(h: P.Hearing)
      requires Valid() && player.point.Resting? && C.AllBesidePlayback(schedule) && flags.running
      modifies this
      ensures Valid() && player.point.Resting?
      ensures trail == old(trail) + [P.Playback(h)] + C.Callback(P.Begin(old(View())), h, old(schedule))
    {
      hide Valid, P.Begin;
      var generation := CheckGeneration(h);
      Yield(h);
      var announcing := CheckAnnouncement(generation, h);
      Yield(h);
      PlayPending(generation, announcing, h);
    }

    /** The gap before the callback's next step. */
    method Yield(h: P.Hearing)
      requires Valid() && C.AllBesidePlayback(schedule) && !player.point.Resting?
      modifies this
      ensures Valid() && C.AllBesidePlayback(schedule) && player == old(player)
      ensures schedule == C.Later(old(schedule))
      ensures old(schedule) == [] ==> View() == old(View())
      ensures Halfway(h) == old(Promise(h))
    {
      hide P.PlaybackStep, P.Next;
      ghost var m, gap := View(), C.Gap(schedule);
      C.BesidePlaybackKeeps(m, gap);
      Pause();
    }

    method PlayPending(generation: nat, announcing: bool, h: P.Hearing)
      requires Valid() && player.point == P.Preparing(generation, announcing) && C.AllBesidePlayback(schedule)
      modifies this
      ensures Valid() && player.point.Resting? && trail == old(Halfway(h))
    {
      hide Valid, P.PlaybackStep;
      PreparePending(generation, announcing, h);
      if player.point.Resting? {
        return;
      }
      Yield(h);
      var authorized := AuthorizePending(h);
      if authorized {
        Yield(h);
        WritePending(h);
      }
    }

    /** Notices a disconnect, or a change of announcement, since the last callback. */
    method CheckGeneration(h: P.Hearing) returns (generation: nat)
      requires Valid() && player.point.Resting? && C.AllBesidePlayback(schedule) && flags.running
      modifies this
      ensures Valid() && C.AllBesidePlayback(schedule)
      ensures player.point == P.Drained(generation)
      ensures Promise(h) == old(trail) + [P.Playback(h)] + C.Callback(P.Begin(old(View())), h, old(schedule))
    {
      hide C.Callback;
      generation := BeginPlayback(h);
      hide Valid, P.Begin, P.PlaybackStep;
      Yield(h);
      TakeNotice(generation, h);
      if player.point.Draining? {
        DrainPending(generation, h);
      }
    }

    method BeginPlayback(h: P.Hearing) returns (generation: nat)
      requires Valid() && player.point.Resting? && flags.running
      modifies this
      ensures Valid() && schedule == old(schedule) && trail == old(trail) + [P.Playback(h)]
      ensures View() == P.Begin(old(View())) && player.point == P.GenerationRead(generation)
    {
      hide P.Run;
      generation := flags.announceGeneration;
      player := P.At(player, P.GenerationRead(generation));
      Took(P.Playback(h));
    }

    method TakeNotice(generation: nat, h: P.Hearing)
      requires Valid() && player.point == P.GenerationRead(generation)
      modifies this
      ensures Valid() && Stepped(h)
      ensures player.point == P.Draining(generation) || player.point == P.Drained(generation)
    {
      hide P.Run;
      if flags.clearPending || player.generation != generation {
        flags := flags.(clearPending := false);
        player := P.At(player, P.Draining(generation));
      } else {
        player := P.At(player, P.Drained(generation));
      }
      Took(P.Playback(h));
    }

    method CheckAnnouncement(generation: nat, h: P.Hearing) returns (announcing: bool)
      requires Valid() && player.point == P.Drained(generation) && C.AllBesidePlayback(schedule)
      modifies this
      ensures Valid() && C.AllBesidePlayback(schedule)
      ensures player.point == P.Preparing(generation, announcing)
      ensures Promise(h) == old(Halfway(h))
    {
      hide C.Callback;
      announcing := LookForAnnouncement(generation, h);
      hide Valid, P.PlaybackStep;
      if announcing {
        SilenceRemote(generation, h);
      }
    }

    method LookForAnnouncement(generation: nat, h: P.Hearing) returns (announcing: bool)
      requires Valid() && player.point == P.Drained(generation)
      modifies this
      ensures Valid() && Stepped(h)
      ensures player.point == if announcing then P.Silencing(generation) else P.Preparing(generation, false)
    {
      hide P.Run;
      announcing := flags.announcing;
      player := P.At(player, if announcing then P.Silencing(generation) else P.Preparing(generation, false));
      Took(P.Playback(h));
    }

    /** Only sound of the announcement generation now published may be written. */
    method AuthorizePending(h: P.Hearing) returns (ok: bool)
      requires Valid() && player.point.Authorizing?
      modifies this
      ensures Valid() && Stepped(h)
      ensures player.point == if ok then P.Writing else P.Resting
    {
      hide P.Run;
      ok := flags.announceGeneration == player.generation;
      if ok {
        player := P.At(player, P.Writing);
      } else {
        DiscardPending();
        player := P.At(player, P.Resting);
      }
      Took(P.Playback(h));
    }

    method DiscardPending()
      modifies this`player
      ensures player == P.Discard(old(player))
    {
      player := player.(offset := 0, frames := 0, source := P.NoSource);
    }

    /** Empties the ring through the pending frame, then gives the frame up. */
    method DrainPending(generation: nat, h: P.Hearing)
      requires Valid() && player.point == P.Draining(generation) && C.AllBesidePlayback(schedule)
      modifies this
      ensures Valid() && C.AllBesidePlayback(schedule) && player.point == P.Drained(generation)
      ensures Promise(h) == old(Promise(h))
    {
      hide P.PlaybackStep, C.Callback, Valid;
      Yield(h);
      while remote != []
        invariant Valid() && C.AllBesidePlayback(schedule)
        invariant player.point == P.Draining(generation)
        invariant Halfway(h) == old(Promise(h))
        decreases |schedule|, |remote|
      {
        DrainChunk(generation, h);
        Yield(h);
      }
      EndDrain(generation, h);
    }

    method DrainChunk(generation: nat, h: P.Hearing)
      requires Valid() && player.point == P.Draining(generation) && remote != []
      modifies this
      ensures Valid() && Stepped(h) && player.point == P.Draining(generation)
      ensures |remote| < |old(remote)|
    {
      Sound();
      hide P.Run;
      ReadChunk();
      Took(P.Playback(h));
    }

    method EndDrain(generation: nat, h: P.Hearing)
      requires Valid() && player.point == P.Draining(generation) && remote == []
      modifies this
      ensures Valid() && Stepped(h) && player.point == P.Drained(generation)
    {
      hide P.Run;
      DiscardPending();
      player := P.At(player, P.Drained(generation)).(generation := generation);
      Took(P.Playback(h));
    }

    method ReadChunk()
      requires |player.buffer| == P.FRAME_BYTES
      modifies this`player, this`remote
      ensures View() == P.DrainOnce(old(View()))
    {
      var chunk := if |remote| < P.FRAME_BYTES then |remote| else P.FRAME_BYTES;
      player := player.(buffer := remote[..chunk] + player.buffer[chunk..]);
      remote := remote[chunk..];
    }

    /** An announcement is on: RTC sound is dropped. */
    method SilenceRemote(generation: nat, h: P.Hearing)
      requires Valid() && player.point == P.Silencing(generation) && C.AllBesidePlayback(schedule)
      modifies this
      ensures Valid() && C.AllBesidePlayback(schedule) && player.point == P.Preparing(generation, true)
      ensures Promise(h) == old(Promise(h))
    {
      hide P.PlaybackStep, C.Callback, Valid;
      Yield(h);
      while remote != []
        invariant Valid() && C.AllBesidePlayback(schedule)
        invariant player.point == P.Silencing(generation)
        invariant Halfway(h) == old(Promise(h))
        decreases |schedule|, |remote|
      {
        SilenceChunk(generation, h);
        Yield(h);
      }
      EndSilence(generation, h);
    }

    method SilenceChunk(generation: nat, h: P.Hearing)
      requires Valid() && player.point == P.Silencing(generation) && remote != []
      modifies this
      ensures Valid() && Stepped(h) && player.point == P.Silencing(generation)
      ensures |remote| < |old(remote)|
    {
      hide P.Run;
      var chunk := if |remote| < P.FRAME_BYTES then |remote| else P.FRAME_BYTES;
      remote := remote[chunk..];
      Took(P.Playback(h));
    }

    method EndSilence(generation: nat, h: P.Hearing)
      requires Valid() && player.point == P.Silencing(generation) && remote == []
      modifies this
      ensures Valid() && Stepped(h) && player.point == P.Preparing(generation, true)
    {
      hide P.Run;
      if player.frames > 0 && player.source != P.Announcement {
        DiscardPending();
      }
      player := P.At(player, P.Preparing(generation, true));
      Took(P.Playback(h));
    }

    /** Fills an empty pending frame, and waits for room in the reference ring. */
    method PreparePending(generation: nat, announcing: bool, h: P.Hearing)
      requires Valid() && player.point == P.Preparing(generation, announcing)
      modifies this
      ensures Valid() && Stepped(h)
      ensures player.point.Resting? || player.point.Authorizing?
    {
      hide P.Run;
      var ok := true;
      if player.frames == 0 {
        ok := TakeFrame(generation, announcing, h);
      }
      if ok {
        var full := player.source == P.Remote &&
          P.RING_BYTES - |reference| < player.frames * P.SAMPLE_BYTES;
        player := P.At(player, if full then P.Resting else P.Authorizing);
      }
      Took(P.Playback(h));
    }

    method TakeFrame(generation: nat, announcing: bool, h: P.Hearing) returns (ok: bool)
      requires player.point == P.Preparing(generation, announcing) && player.frames == 0
      modifies this`player, this`remote, this`flags
      ensures P.Prepare(old(View()), generation, announcing, h) ==
        if ok then P.RoomToReference(View()) else View()
      ensures !ok ==> player.point.Resting?
    {
      if announcing {
        var frames := if flags.announcing then h.pcmFrames else 0;
        player := player.(buffer := P.Prompts(P.Bytes(h.pcm, P.FRAME_BYTES)),
                          generation := flags.announceGeneration);
        flags := flags.(announcing := flags.announcing && h.stillAnnouncing);
        if frames > P.FRAME_SAMPLES || frames <= 0 {
          player := P.At(player, P.Resting);
          return false;
        }
        player := player.(offset := 0, frames := P.FRAME_SAMPLES, source := P.Announcement);
      } else {
        if |remote| < P.FRAME_BYTES {
          player := P.At(player, P.Resting);
          return false;
        }
        player := player.(buffer := remote[..P.FRAME_BYTES], generation := generation);
        remote := remote[P.FRAME_BYTES..];
        player := player.(offset := 0, frames := P.FRAME_SAMPLES, source := P.Remote);
      }
      return true;
    }

    /** Writes the pending frame to the device, and its share of RTC sound to the reference. */
    method WritePending(h: P.Hearing)
      requires Valid() && player.point.Writing? && C.AllBesidePlayback(schedule)
      modifies this
      ensures Valid() && player.point.Resting? && trail == old(Halfway(h))
    {
      hide Valid, P.PlaybackStep, P.Run, P.WriteData, P.Next;
      var written := h.written;
      if written < 0 || written > player.frames {
        DropPending(h);
        return;
      }
      var bytes := WriteBytes(P.WriteData(View(), h), written, h);
      Yield(h);
      Refer(bytes, h);
      Yield(h);
      FinishPending(h);
    }

    method DropPending(h: P.Hearing)
      requires Valid() && player.point.Writing? && !(0 <= h.written <= player.frames)
      modifies this
      ensures Valid() && Stepped(h) && player.point.Resting?
    {
      hide P.Run;
      DiscardPending();
      player := P.At(player, P.Resting);
      Took(P.Playback(h));
    }

    method FinishPending(h: P.Hearing)
      requires Valid() && player.point.Finishing?
      modifies this
      ensures Valid() && Stepped(h) && player.point.Resting?
    {
      hide P.Run;
      if player.frames == 0 || flags.announceGeneration != player.generation {
        DiscardPending();
      }
      player := P.At(player, P.Resting);
      Took(P.Playback(h));
    }

    /** The device takes the first of the pending bytes; those of RTC join the bytes spoken. */
    method WriteBytes(data: seq<int>, written: nat, h: P.Hearing) returns (bytes: seq<int>)
      requires Valid() && player.point.Writing? && written == h.written <= player.frames
      requires data == P.WriteData(View(), h)
      modifies this
      ensures Valid() && Stepped(h) && player.point == P.Referencing(bytes, written)
      ensures player.source == old(player).source && player.offset == old(player).offset + written
      ensures old(player).source != P.Remote ==> bytes == [] && Prompted(data, written)
      ensures old(player).source == P.Remote ==> Spoke(data, written, bytes)
    {
      Sound();
      hide P.Run, I.LineOk, I.SessionOk, I.FlushedOk, I.ControlOk, I.ReferenceOk, I.OutsOk;
      hide P.WriteData, P.Outs;
      var n := written * P.SAMPLE_BYTES;
      bytes := [];
      if player.source == P.Remote {
        I.WriteForm(View(), h);
        var rest := P.Rest(player);
        bytes := data[..n];
        heard := heard.(spoken := heard.spoken + P.Outs(rest[..n], bytes, View()));
      } else if player.source == P.Announcement {
        heard := heard.(prompted := heard.prompted + data[..n]);
      }
      player := P.At(player.(offset := player.offset + written), P.Referencing(bytes, written));
      Took(P.Playback(h));
    }

    /** Of an announcement, the device took the first frames of data. */
    twostate predicate Prompted(data: seq<int>, written: nat)
      reads this
    {
      var n := written * P.SAMPLE_BYTES;
      && n <= |data|
      && heard == old(heard).(prompted := old(heard).prompted +
           (if old(player).source == P.Announcement then data[..n] else []))
    }

    /** The bytes of the first frames of the pending sound are spoken, as data says. */
    twostate predicate Spoke(data: seq<int>, written: nat, bytes: seq<int>)
      reads this
    {
      var n := written * P.SAMPLE_BYTES;
      && n <= |P.Rest(old(player))| && n <= |data|
      && bytes == data[..n]
      && heard == old(heard).(spoken := old(heard).spoken + P.Outs(P.Rest(old(player))[..n], bytes, old(View())))
    }

    method Refer(bytes: seq<int>, h: P.Hearing)
      requires Valid() && player.point.Referencing? && player.point.bytes == bytes
      modifies this
      ensures Valid() && Stepped(h) && player.point.Finishing?
      ensures flags == old(flags) && reference == old(reference) + bytes
    {
      KeepsRtc();
      hide P.Run;
      StoreReference(bytes);
      Took(P.Playback(h));
    }

    lemma KeepsRtc()
      requires Valid() && player.point.Referencing?
      ensures I.PlayerOk(player)
      ensures P.Reference(View(), player.point.bytes).flags.connected == flags.connected
      ensures P.Reference(View(), player.point.bytes).reference == reference + player.point.bytes
    {
      Sound();
      I.ReferenceKeeps(View());
      hide I.LineOk, I.SessionOk, I.FlushedOk, I.ControlOk, I.OutsOk, P.Run;
    }

    method StoreReference(bytes: seq<int>)
      requires player.point.Referencing? && player.point.bytes == bytes && I.PlayerOk(player)
      modifies this`player, this`flags, this`reference, this`heard
      ensures View() == P.Reference(old(View()), bytes) && player.point.Finishing?
      ensures flags == old(flags).(connected := flags.connected)
    {
      var left := player.frames - player.point.written;
      if bytes != [] {
        if P.RING_BYTES - |reference| < |bytes| {
          flags := flags.(connected := false);
        } else {
          reference := reference + bytes;
          heard := heard.(referenced := heard.referenced + bytes);
        }
      }
      player := player.(frames := left, point := P.Finishing);
    }

    // ---- Capture and sending ----

    /** One callback of the capture timer: the check, then the write. A frame taken while RTC was up
        reaches the ring if the ring has room when it is written. */
    method CaptureTimer(frame: seq<int>)
      requires Valid() && mic.point.Watching? && C.BesideCapture(C.Gap(schedule))
      modifies this
      ensures Valid() && mic.point.Watching?
      ensures !old(flags.running && 0 < |frame| <= P.FRAME_BYTES && flags.connected) ==>
        View() == old(View()) && trail == old(trail) && schedule == old(schedule)
      ensures old(flags.running && 0 < |frame| <= P.FRAME_BYTES && flags.connected) ==>
        trail == old(trail) + [P.Capturing(frame)] + C.Gap(old(schedule)) + [P.Captured]
      ensures old(flags.running && 0 < |frame| <= P.FRAME_BYTES && flags.connected) ==>
        var m := P.Run(P.CaptureRead(old(View()), frame), C.Gap(old(schedule)));
        View() == m.(mic := P.Mic(P.Watching,
          if |frame| <= P.RING_BYTES - |m.mic.ring| then m.mic.ring + frame else m.mic.ring))
    {
      hide P.Run;
      if !flags.running || frame == [] || |frame| > P.FRAME_BYTES || !flags.connected {
        return;
      }
      mic := mic.(point := P.Holding(frame));
      Took(P.Capturing(frame));
      hide Valid;
      C.BesideCaptureKeeps(View(), C.Gap(schedule));
      Pause();
      WriteCaptured();
    }

    method WriteCaptured()
      requires Valid() && mic.point.Holding?
      modifies this
      ensures Valid() && schedule == old(schedule) && trail == old(trail) + [P.Captured]
      ensures var ring, bytes := old(mic.ring), old(mic.point).bytes;
        View() == old(View()).(mic := P.Mic(P.Watching,
          if |bytes| <= P.RING_BYTES - |ring| then ring + bytes else ring))
    {
      hide P.Run;
      var bytes := mic.point.bytes;
      mic := mic.(point := P.Watching);
      if |bytes| <= P.RING_BYTES - |mic.ring| {
        mic := mic.(ring := mic.ring + bytes);
      }
      Took(P.Captured);
    }

    /** One callback of the send timer: the oldest captured frame, with the echo reference beside
        it, or silence when there is no whole frame of reference. */
    method SendTimer() returns (frame: seq<int>, echo: seq<int>)
      requires Valid() && sendPoint.Listening? && C.BesideSend(C.Gap(schedule))
      modifies this
      ensures Valid() && sendPoint.Listening?
      ensures !old(flags.running && flags.connected && |mic.ring| >= P.FRAME_BYTES) ==>
        frame == echo == [] && View() == old(View()) && trail == old(trail) && schedule == old(schedule)
      ensures old(flags.running && flags.connected && |mic.ring| >= P.FRAME_BYTES) ==>
        && frame == old(mic.ring)[..P.FRAME_BYTES]
        && trail == old(trail) + [P.Send] + C.Gap(old(schedule)) + [P.Send]
      ensures old(flags.running && flags.connected && |mic.ring| >= P.FRAME_BYTES) ==>
        var m := P.Run(P.SendStep(old(View())), C.Gap(old(schedule)));
        && frame <= m.mic.ring
        && echo == Echo(m.reference)
        && View() == P.SendStep(m)
    {
      hide P.Run;
      frame, echo := [], [];
      if !flags.running || !flags.connected || |mic.ring| < P.FRAME_BYTES {
        return;
      }
      sendPoint := P.Sending;
      Took(P.Send);
      hide Valid;
      C.BesideSendKeeps(View(), C.Gap(schedule));
      Pause();
      frame, echo := TakeFrames();
    }

    static function Echo(reference: seq<int>): seq<int> {
      if |reference| < P.FRAME_BYTES then P.Bytes([], P.FRAME_BYTES) else reference[..P.FRAME_BYTES]
    }

    method TakeFrames() returns (frame: seq<int>, echo: seq<int>)
      requires Valid() && sendPoint.Sending? && |mic.ring| >= P.FRAME_BYTES
      modifies this
      ensures Valid() && schedule == old(schedule) && trail == old(trail) + [P.Send]
      ensures frame == old(mic.ring)[..P.FRAME_BYTES] && echo == Echo(old(reference))
      ensures View() == P.SendStep(old(View()))
    {
      hide P.Run;
      frame := mic.ring[..P.FRAME_BYTES];
      mic := mic.(ring := mic.ring[P.FRAME_BYTES..]);
      echo := P.Bytes([], P.FRAME_BYTES);
      if |reference| >= P.FRAME_BYTES {
        echo := reference[..P.FRAME_BYTES];
        reference := reference[P.FRAME_BYTES..];
      }
      sendPoint := P.Listening;
      Took(P.Send);
    }

    // ---- RTC callbacks ----

    /** All of the sound or none of it, and none between sessions or under an announcement. */
    method PushRemoteAudio(data: seq<int>)
      requires Valid() && !flags.disconnecting
      modifies this
      ensures Valid() && trail == old(trail) + [P.Pushing(data)]
      ensures View() == P.Push(old(View()), data)
    {
      hide P.Run;
      if data != [] && flags.running && flags.connected && !flags.clearPending && !flags.announcing &&
         |data| <= P.INT_MAX && |data| <= P.RING_BYTES - |remote| {
        var tagged := P.Tagged(View(), data);
        remote := remote + tagged;
        heard := heard.(accepted := heard.accepted + tagged);
      }
      Took(P.Pushing(data));
    }

    /** The two stores of an RTC callback. Connecting is one; disconnecting clears the flag first
        and then leaves word for the playback worker, and nothing brings RTC up in between. */
    method SetRtcConnected(connected: bool)
      requires Valid() && !flags.disconnecting && (owner.control.Free? || owner.control.Returned?)
      modifies this
      ensures Valid()
      ensures connected ==> View() == P.Connect(old(View())) && flags.connected
      ensures connected ==> trail == old(trail) + [P.Connecting] && schedule == old(schedule)
      ensures !connected ==>
        var m := P.Run(P.Disconnect(old(View())), C.Gap(old(schedule)));
        View() == if m.flags.disconnecting then P.Disconnect(m) else m
      ensures !connected && C.NoDisconnect(C.Gap(old(schedule))) ==>
        && trail == old(trail) + [P.Disconnecting] + C.Gap(old(schedule)) + [P.Disconnecting]
        && !flags.connected && flags.clearPending && !flags.disconnecting
    {
      hide P.Run;
      if connected {
        var session := if flags.connected then flags.session else flags.session + 1;
        flags := flags.(connected := true, session := session);
        owner := owner.(control := P.Free, flushed := P.Flushed(false, false, false));
        Took(P.Connecting);
        return;
      }
      flags := flags.(disconnecting := true, connected := false);
      Took(P.Disconnecting);
      hide Valid;
      if C.NoDisconnect(C.Gap(schedule)) {
        C.HalfDown(View(), C.Gap(schedule));
      }
      Pause();
      if flags.disconnecting {
        LeaveWord();
      }
    }

    method LeaveWord()
      requires Valid() && flags.disconnecting
      modifies this
      ensures Valid() && schedule == old(schedule) && trail == old(trail) + [P.Disconnecting]
      ensures View() == P.Disconnect(old(View()))
      ensures flags == old(flags).(disconnecting := false, clearPending := true)
    {
      hide P.Run;
      flags := flags.(disconnecting := false, clearPending := true);
      Took(P.Disconnecting);
    }

    // ---- The control owner ----

    /** The gap before the owner's next step: its place and the kind of its flush stay. */
    method OwnerPause()
      requires Valid() && C.AllBesideOwner(schedule)
      modifies this
      ensures Valid() && C.AllBesideOwner(schedule) && old(trail) <= trail
      ensures schedule == C.Later(old(schedule))
      ensures old(schedule) == [] ==> View() == old(View())
      ensures C.OwnerMoved(old(owner), owner)
    {
      hide P.Next;
      C.BesideOwnerKeeps(View(), C.Gap(schedule));
      Pause();
    }

    /** Ends the session: on success nothing of its sound is left. calls says which of the
        calls onto the capture, playback and send workers can be made. */
    method EndSession(calls: (bool, bool, bool), h: P.Hearing) returns (rc: int)
      requires Valid() && C.AllBesideOwner(schedule) && !flags.disconnecting
      requires owner.control.Free? || owner.control.Returned?
      modifies this
      ensures Valid() && old(trail) <= trail
      ensures rc == if calls.0 && calls.1 && calls.2 then 0 else -1
      ensures !flags.connected && (rc == 0 ==> I.Emptied(View()))
    {
      hide Valid;
      DisconnectToEnd();
      OwnerPause();
      ClearPlayback();
      OwnerPause();
      rc := FlushWorkers(calls, h);
    }

    /** The flush alone: meant for the time before RTC is joined, and sure to empty only then. */
    method FlushSession(calls: (bool, bool, bool), h: P.Hearing) returns (rc: int)
      requires Valid() && C.AllBesideOwner(schedule) && !flags.disconnecting
      requires owner.control.Free? || owner.control.Returned?
      modifies this
      ensures Valid() && old(trail) + [P.FlushSession] <= trail
      ensures rc == if calls.0 && calls.1 && calls.2 then 0 else -1
      ensures !old(flags.connected) ==> !flags.connected && (rc == 0 ==> I.Emptied(View()))
    {
      BeginFlush();
      hide Valid;
      OwnerPause();
      rc := FlushWorkers(calls, h);
    }

    method BeginFlush()
      requires Valid() && !flags.disconnecting && (owner.control.Free? || owner.control.Returned?)
      modifies this
      ensures Valid() && schedule == old(schedule) && trail == old(trail) + [P.FlushSession]
      ensures owner.control.CaptureBarrier? && owner.live == old(flags.connected)
    {
      hide P.Run;
      owner := owner.(control := P.CaptureBarrier, live := flags.connected);
      Took(P.FlushSession);
    }

    method DisconnectToEnd()
      requires Valid() && !flags.disconnecting && (owner.control.Free? || owner.control.Returned?)
      modifies this
      ensures Valid() && old(trail) <= trail && schedule == old(schedule) && owner.control.Clearing?
      ensures !owner.live
    {
      hide P.Run;
      flags := flags.(connected := false);
      owner := owner.(control := P.Clearing, live := false);
      Took(P.EndSession);
    }

    method ClearPlayback()
      requires Valid() && owner.control.Clearing?
      modifies this
      ensures Valid() && old(trail) <= trail && schedule == old(schedule) && owner.control.CaptureBarrier?
      ensures owner.live == old(owner).live
    {
      hide P.Run;
      flags := flags.(clearPending := true);
      owner := owner.(control := P.CaptureBarrier);
      Took(P.Control(true));
    }

    /** First the capture worker, then playback, then sending: each feeds the next. */
    method FlushWorkers(calls: (bool, bool, bool), h: P.Hearing) returns (rc: int)
      requires Valid() && C.AllBesideOwner(schedule) && owner.control.CaptureBarrier?
      modifies this
      ensures Valid() && old(trail) <= trail
      ensures rc == if calls.0 && calls.1 && calls.2 then 0 else -1
      ensures !old(owner).live ==> !flags.connected && (rc == 0 ==> I.Emptied(View()))
    {
      hide Valid;
      rc := 0;
      CallCapture(calls.0);
      if !calls.0 {
        rc := -1;
      }
      OwnerPause();
      CallPlayback(calls.1, h);
      if !calls.1 {
        rc := -1;
      }
      OwnerPause();
      CallSend(calls.2);
      if !calls.2 {
        rc := -1;
      }
      ReturnedEmptied();
    }

    lemma StaysDown()
      requires Valid()
      ensures owner.control.Returned? && !owner.live ==> !flags.connected
    {
      Sound();
      hide P.Run, I.LineOk, I.SessionOk, I.FlushedOk, I.OutsOk, I.ReferenceOk, I.PlayerOk;
    }

    lemma ReturnedEmptied()
      requires Valid()
      ensures I.EndedWell(View()) ==> I.Emptied(View())
      ensures owner.control.Returned? && !owner.live ==> !flags.connected
    {
      Sound();
      StaysDown();
      hide P.Run, I.Inv;
      if I.EndedWell(View()) {
        I.EndedIsFlushed(View());
      }
    }

    /** A barrier: the capture callback under way, if any, finishes first. */
    method CallCapture(ok: bool)
      requires Valid() && owner.control.CaptureBarrier?
      modifies this
      ensures Valid() && old(trail) <= trail && schedule == old(schedule)
      ensures owner.control == P.PlaybackFlush(ok) && owner.live == old(owner).live
    {
      hide P.Run;
      if !ok {
        owner := owner.(control := P.PlaybackFlush(false));
        Took(P.Control(false));
        return;
      }
      LetCaptureFinish();
      owner := owner.(control := P.PlaybackFlush(true), flushed := P.CaptureFlushed(View()));
      Took(P.Control(true));
    }

    method LetCaptureFinish()
      requires Valid()
      modifies this
      ensures Valid() && old(trail) <= trail && schedule == old(schedule) && mic.point.Watching?
      ensures owner == old(owner)
    {
      hide P.Run;
      if mic.point.Holding? {
        Other(P.Captured);
      }
    }

    method CallPlayback(ok: bool, h: P.Hearing)
      requires Valid() && owner.control.PlaybackFlush? && C.AllBesideOwner(schedule)
      modifies this
      ensures Valid() && old(trail) <= trail && C.AllBesideOwner(schedule)
      ensures owner.control == P.SendFlush(ok && old(owner.control).ok) && owner.live == old(owner).live
    {
      hide P.Run;
      if !ok {
        owner := owner.(control := P.SendFlush(false));
        Took(P.Control(false));
        return;
      }
      LetPlaybackFinish(h);
      owner := owner.(control := P.PlaybackFlushing(owner.control.ok));
      player := P.At(player, P.Flushing);
      Took(P.Control(true));
      FlushPlayback(h);
    }

    /** The playback callback under way, if any, finishes. */
    method LetPlaybackFinish(h: P.Hearing)
      requires Valid() && owner.control.PlaybackFlush?
      modifies this
      ensures Valid() && old(trail) <= trail && schedule == old(schedule) && player.point.Resting?
      ensures owner.control == old(owner.control) && owner.live == old(owner).live
    {
      while !player.point.Resting?
        invariant Valid() && old(trail) <= trail && schedule == old(schedule)
        invariant owner.control == old(owner.control) && owner.live == old(owner).live
        decreases C.Rank(player.point), |remote|
      {
        hide Valid;
        C.PlaybackProgress(View(), h);
        Other(P.Playback(h));
      }
    }

    /** The flush that runs on the playback worker. */
    method FlushPlayback(h: P.Hearing)
      requires Valid() && owner.control.PlaybackFlushing? && C.AllBesideOwner(schedule)
      modifies this
      ensures Valid() && old(trail) <= trail && C.AllBesideOwner(schedule)
      ensures owner.control == P.SendFlush(old(owner.control).ok) && owner.live == old(owner).live
    {
      while player.point.Flushing?
        invariant Valid() && old(trail) <= trail && C.AllBesideOwner(schedule)
        invariant C.OwnerMoved(old(owner), owner)
        decreases |schedule|, C.Rank(player.point), |remote|
      {
        FlushChunk(h);
        OwnerPause();
      }
      Sound();
      hide P.Run;
      if player.point.Unflagging? {
        UnflagPlayback(h);
      }
    }

    method FlushChunk(h: P.Hearing)
      requires Valid() && player.point.Flushing?
      modifies this
      ensures Valid() && old(trail) <= trail && schedule == old(schedule) && owner == old(owner)
      ensures C.Rank(player.point) < C.Rank(P.Flushing) || (player.point.Flushing? && |remote| < |old(remote)|)
    {
      Sound();
      hide P.Run;
      if remote != [] {
        ReadChunk();
      } else {
        DiscardPending();
        player := P.At(player, P.Unflagging).(generation := flags.announceGeneration);
      }
      Took(P.Playback(h));
    }

    method UnflagPlayback(h: P.Hearing)
      requires Valid() && player.point.Unflagging? && owner.control.PlaybackFlushing?
      modifies this
      ensures Valid() && old(trail) <= trail && schedule == old(schedule)
      ensures owner.control == P.SendFlush(old(owner.control).ok) && owner.live == old(owner).live
    {
      hide P.Run;
      owner := owner.(control := P.SendFlush(owner.control.ok), flushed := P.PlaybackFlushed(View()),
                      forgot := owner.forgot || P.Forgets(View()));
      flags := flags.(clearPending := false);
      player := P.At(player, P.Resting);
      Took(P.Playback(h));
    }

    method CallSend(ok: bool)
      requires Valid() && owner.control.SendFlush? && C.AllBesideOwner(schedule)
      modifies this
      ensures Valid() && old(trail) <= trail
      ensures owner.control == P.Returned(ok && old(owner.control).ok) && owner.live == old(owner).live
    {
      if !ok {
        owner := owner.(control := P.Returned(false));
        Took(P.Control(false));
        return;
      }
      LetSendFinish();
      owner := owner.(control := P.SendFlushing(owner.control.ok));
      sendPoint := P.EmptyingCapture;
      Took(P.Control(true));
      FlushSend();
    }

    method LetSendFinish()
      requires Valid() && owner.control.SendFlush?
      modifies this
      ensures Valid() && old(trail) <= trail && schedule == old(schedule) && sendPoint.Listening?
      ensures owner.control == old(owner.control) && owner.live == old(owner).live
    {
      Sound();
      hide P.Run;
      if sendPoint.Sending? {
        Other(P.Send);
      }
    }

    /** The flush that runs on the send worker. */
    method FlushSend()
      requires Valid() && owner.control.SendFlushing? && C.AllBesideOwner(schedule)
      modifies this
      ensures Valid() && old(trail) <= trail
      ensures owner.control == P.Returned(old(owner.control).ok) && owner.live == old(owner).live
    {
      while owner.control.SendFlushing?
        invariant Valid() && old(trail) <= trail && C.AllBesideOwner(schedule)
        invariant C.OwnerMoved(old(owner), owner)
        decreases |schedule|, owner.control.SendFlushing?, sendPoint.EmptyingCapture?, |mic.ring| + |reference|
      {
        SendChunk();
        if owner.control.SendFlushing? {
          OwnerPause();
        }
      }
    }

    method SendChunk()
      requires Valid() && owner.control.SendFlushing?
      modifies this
      ensures Valid() && old(trail) <= trail && schedule == old(schedule)
      ensures if owner.control.SendFlushing? then
          owner == old(owner) &&
          (if sendPoint == old(sendPoint) then |mic.ring| + |reference| < old(|mic.ring| + |reference|)
           else old(sendPoint).EmptyingCapture? && !sendPoint.EmptyingCapture?)
        else owner.control == P.Returned(old(owner.control).ok) && owner.live == old(owner).live
    {
      Sound();
      hide P.Run;
      if sendPoint.EmptyingCapture? {
        if mic.ring != [] {
          mic := mic.(ring := P.Dropped(mic.ring, P.FRAME_BYTES));
        } else {
          sendPoint := P.EmptyingReference;
        }
      } else if reference != [] {
        reference := P.Dropped(reference, P.FRAME_BYTES);
      } else {
        sendPoint := P.Listening;
        owner := owner.(control := P.Returned(owner.control.ok),
                        flushed := owner.flushed.(send := P.Silent(View())));
      }
      Took(P.Send);
    }
  }
}
