/** The frame queues between camera, encoder and display
    (components/video_engine/video_frame_que.c): per image format, a queue of free tokens and a
    queue of completed frames. */
module FrameQueue {
  import opened Options

  datatype Format = Mjpeg | H264 | Yuv | Unknown

  const FORMATS := 3

  /** Frames are named by their address; 0 is no frame. */
  type Frame = nat

  /** What a frame's header says. */
  datatype Info = Info(
    kind: int, format: Format, crc: int, timestamp: int, width: int, height: int, length: int,
    sequence: int, h264Kind: int)

  /** How a completed frame left the ready queue. */
  datatype Fate = Delivered | Reclaimed | Cleared

  datatype Departure = Departure(frame: Frame, fate: Fate)

  /** usable: both of its message queues exist. held, completed and departed are book-keeping:
      the frames callers hold, and all that entered and left the ready queue, in order. */
  datatype Queue = Queue(
    count: nat,
    usable: bool,
    free: nat,
    ready: seq<Frame>,
    held: set<Frame>,
    completed: seq<Frame>,
    departed: seq<Departure>)

  datatype Pool = Pool(queues: seq<Queue>, frames: map<Frame, Info>)

  function Index(f: Format): int {
    match f
    case Mjpeg => 0
    case H264 => 1
    case Yuv => 2
    case Unknown => -1
  }

  function FormatAt(i: nat): Format {
    if i == 0 then Mjpeg else if i == 1 then H264 else Yuv
  }

  function Capacity(f: Format): nat {
    match f
    case Mjpeg => 4
    case H264 => 6
    case Yuv => 3
    case Unknown => 0
  }

  /** A ready frame may be taken back for a new picture, but for H.264. */
  predicate Reclaimable(f: Format) {
    f.Mjpeg? || f.Yuv?
  }

  function Fresh(f: Format): Info {
    Info(0, f, 0, 0, 0, 0, 0, 0, 0)
  }

  function Unused(): Queue {
    Queue(0, false, 0, [], {}, [], [])
  }

  predicate Shaped(p: Pool) {
    |p.queues| == FORMATS
  }

  /** The queue of a format that is known and initialised. */
  predicate Open(p: Pool, f: Format)
    requires Shaped(p)
  {
    !f.Unknown? && p.queues[Index(f)].count > 0
  }

  function With(p: Pool, f: Format, q: Queue): Pool
    requires Shaped(p) && !f.Unknown?
  {
    p.(queues := p.queues[Index(f) := q])
  }

  /** The oldest ready frame passes to whoever asked for it. */
  function Popped(q: Queue, fate: Fate): Queue
    requires q.ready != []
  {
    q.(ready := q.ready[1..],
       held := q.held + {q.ready[0]},
       departed := q.departed + [Departure(q.ready[0], fate)])
  }

  // ---- Operations ----

  /** freeOk and readyOk: whether each message queue could be made. */
  function Init(p: Pool, f: Format, freeOk: bool, readyOk: bool): (Pool, bool)
    requires Shaped(p)
  {
    if f.Unknown? then (p, false)
    else if p.queues[Index(f)].count > 0 then (p, true)
    else
      var n := Capacity(f);
      if freeOk && readyOk then (With(p, f, Queue(n, true, n, [], {}, [], [])), true)
      else (With(p, f, Unused().(count := n)), false)
  }

  function Taken(p: Pool, f: Format, q: Queue, frame: Frame): (Pool, Option<Frame>)
    requires Shaped(p) && !f.Unknown?
  {
    (Pool(With(p, f, q.(held := q.held + {frame})).queues, p.frames[frame := Fresh(f)]), Some(frame))
  }

  /** memory: the buffer the allocator gives when asked, if any. */
  function Malloc(p: Pool, f: Format, memory: Option<Frame>): (Pool, Option<Frame>)
    requires Shaped(p)
  {
    if !Open(p, f) then (p, None)
    else
      var q := p.queues[Index(f)];
      if q.free > 0 && memory.Some? then Taken(p, f, q.(free := q.free - 1), memory.value)
      else if Reclaimable(f) && q.ready != [] then
        if q.ready[0] == 0 then (With(p, f, Popped(q, Reclaimed)), None)
        else Taken(p, f, Popped(q, Reclaimed), q.ready[0])
      else (p, None)
  }

  function GetFrame(p: Pool, f: Format): (Pool, Option<Frame>)
    requires Shaped(p)
  {
    if !Open(p, f) || p.queues[Index(f)].ready == [] then (p, None)
    else
      var q := p.queues[Index(f)];
      (With(p, f, Popped(q, Delivered)), Some(q.ready[0]))
  }

  function Complete(p: Pool, f: Format, frame: Frame): (Pool, bool)
    requires Shaped(p)
  {
    if !Open(p, f) then (p, false)
    else
      var q := p.queues[Index(f)];
      if q.usable && |q.ready| < q.count then
        (With(p, f, q.(ready := q.ready + [frame],
                       held := q.held - {frame},
                       completed := q.completed + [frame])), true)
      else (Free(p, f, frame), false)
  }

  /** A token that finds the free queue full is lost. */
  function Free(p: Pool, f: Format, frame: Frame): Pool
    requires Shaped(p)
  {
    if !Open(p, f) then p
    else
      var q := p.queues[Index(f)];
      var back := if q.usable && q.free < q.count then q.free + 1 else q.free;
      Pool(With(p, f, q.(free := back, held := q.held - {frame})).queues, p.frames - {frame})
  }

  /** The oldest ready frame, taken out and freed. */
  function ClearOldest(p: Pool, f: Format): Pool
    requires Shaped(p) && !f.Unknown? && p.queues[Index(f)].ready != []
  {
    var q := p.queues[Index(f)];
    var popped := With(p, f, Popped(q, Cleared));
    if q.ready[0] == 0 then popped else Free(popped, f, q.ready[0])
  }

  function Clear(p: Pool, f: Format): (r: Pool)
    requires Shaped(p) && !f.Unknown?
    ensures Shaped(r)
    decreases |p.queues[Index(f)].ready|
  {
    if p.queues[Index(f)].count == 0 || p.queues[Index(f)].ready == [] then p
    else Clear(ClearOldest(p, f), f)
  }

  function ClearAll(p: Pool): Pool
    requires Shaped(p)
  {
    Clear(Clear(Clear(p, Mjpeg), H264), Yuv)
  }

  /** Frames in the ready queue are given back to the allocator; those callers hold are not. */
  function Deinit(p: Pool, f: Format): Pool
    requires Shaped(p)
  {
    if !Open(p, f) then p
    else Pool(With(p, f, Unused()).queues, p.frames - (set x | x in p.queues[Index(f)].ready))
  }

  // ---- The invariant ----

  predicate Distinct(s: seq<Frame>) {
    forall i, j :: 0 <= i < j < |s| ==> s[i] != s[j]
  }

  function Members(s: seq<Frame>): set<Frame> {
    set x | x in s
  }

  /** The frames of a queue: with callers, or waiting. */
  function Owned(q: Queue): set<Frame> {
    q.held + Members(q.ready)
  }

  function Left(q: Queue): (r: seq<Frame>)
    ensures |r| == |q.departed|
  {
    seq(|q.departed|, i requires 0 <= i < |q.departed| => q.departed[i].frame)
  }

  /** Every token is free, waiting with a frame, or with a caller. */
  predicate TokensOk(q: Queue) {
    if q.usable then q.count > 0 && q.free + |q.ready| + |q.held| == q.count
    else q.ready == [] && q.held == {} && q.free == 0
  }

  /** No frame is in two places. */
  predicate PlacesOk(q: Queue) {
    Distinct(q.ready) && q.held !! Members(q.ready) && 0 !in Owned(q)
  }

  /** Frames leave in the order they were completed. */
  predicate OrderOk(q: Queue) {
    q.completed == Left(q) + q.ready
  }

  predicate QueueOk(q: Queue) {
    TokensOk(q) && PlacesOk(q) && OrderOk(q)
  }

  predicate PoolOk(p: Pool) {
    && Shaped(p)
    && (forall i :: 0 <= i < FORMATS ==> QueueOk(p.queues[i]) && Owned(p.queues[i]) <= p.frames.Keys)
    && (forall i, j :: 0 <= i < j < FORMATS ==> Owned(p.queues[i]) !! Owned(p.queues[j]))
    && (forall i :: 0 <= i < FORMATS && p.queues[i].usable ==> p.queues[i].count == Capacity(FormatAt(i)))
  }

  lemma EmptyOk()
    ensures PoolOk(Pool([Unused(), Unused(), Unused()], map[]))
  {
  }

  /** One queue changed, and its frames are new, its own, or gone. */
  lemma OneChanged(p: Pool, f: Format, q: Queue, frames: map<Frame, Info>)
    requires PoolOk(p) && !f.Unknown? && QueueOk(q)
    requires q.usable ==> q.count == Capacity(f)
    requires Owned(q) <= frames.Keys
    requires forall x :: x in Owned(q) ==> x in Owned(p.queues[Index(f)]) || x !in p.frames
    requires forall x :: x in p.frames && x !in frames ==> x in Owned(p.queues[Index(f)])
    ensures PoolOk(Pool(With(p, f, q).queues, frames))
  {
    hide QueueOk, Owned;
    var r := Pool(With(p, f, q).queues, frames);
    forall i | 0 <= i < FORMATS ensures Owned(r.queues[i]) <= r.frames.Keys {
      Apart(p, i, Index(f));
    }
    forall i, j | 0 <= i < j < FORMATS ensures Owned(r.queues[i]) !! Owned(r.queues[j]) {
      StillApart(p, f, q, i, j);
    }
    hide Index, FormatAt, Capacity;
  }

  lemma StillApart(p: Pool, f: Format, q: Queue, i: nat, j: nat)
    requires PoolOk(p) && !f.Unknown? && i < j < FORMATS
    requires forall x :: x in Owned(q) ==> x in Owned(p.queues[Index(f)]) || x !in p.frames
    ensures Owned(With(p, f, q).queues[i]) !! Owned(With(p, f, q).queues[j])
  {
    hide QueueOk, Owned;
    Apart(p, i, j);
    assert Owned(p.queues[i]) <= p.frames.Keys && Owned(p.queues[j]) <= p.frames.Keys;
  }

  lemma Apart(p: Pool, i: nat, j: nat)
    requires PoolOk(p) && i < FORMATS && j < FORMATS
    ensures i != j ==> Owned(p.queues[i]) !! Owned(p.queues[j])
  {
    hide QueueOk, Owned;
    if i < j {
      assert Owned(p.queues[i]) !! Owned(p.queues[j]);
    } else if j < i {
      assert Owned(p.queues[j]) !! Owned(p.queues[i]);
    }
  }

  lemma MembersHeadTail(s: seq<Frame>)
    requires s != [] && Distinct(s)
    ensures Members(s) == {s[0]} + Members(s[1..]) && s[0] !in Members(s[1..]) && Distinct(s[1..])
  {
    assert s == [s[0]] + s[1..];
  }

  lemma MembersSnoc(s: seq<Frame>, x: Frame)
    requires Distinct(s) && x !in Members(s)
    ensures Members(s + [x]) == Members(s) + {x} && Distinct(s + [x])
  {
  }

  // ---- Each operation keeps it ----

  lemma TakenFromAllocator(p: Pool, f: Format, q: Queue, frame: Frame)
    requires PoolOk(p) && !f.Unknown? && q == p.queues[Index(f)]
    requires q.free > 0 && frame != 0 && frame !in p.frames
    ensures PoolOk(Taken(p, f, q.(free := q.free - 1), frame).0)
  {
    hide QueueOk;
    var taken := q.(free := q.free - 1, held := q.held + {frame});
    TokenTaken(q, frame);
    OneChanged(p, f, taken, p.frames[frame := Fresh(f)]);
  }

  lemma TokenTaken(q: Queue, frame: Frame)
    requires QueueOk(q) && q.free > 0 && frame != 0 && frame !in Owned(q)
    ensures var taken := q.(free := q.free - 1, held := q.held + {frame});
      QueueOk(taken) && Owned(taken) == Owned(q) + {frame} && taken.count == q.count
  {
    var taken := q.(free := q.free - 1, held := q.held + {frame});
    assert Left(taken) == Left(q);
    hide Left, Members;
  }

  /** The oldest waiting frame is the next in the order of completion. */
  lemma OldestLeaves(q: Queue, fate: Fate)
    requires QueueOk(q) && q.ready != []
    ensures QueueOk(Popped(q, fate)) && Owned(Popped(q, fate)) == Owned(q)
    ensures q.ready[0] != 0 && q.ready[0] !in q.held
    ensures |q.departed| < |q.completed| && q.ready[0] == q.completed[|q.departed|]
  {
    PlacesPopped(q, fate);
    OrderPopped(q, fate);
    hide PlacesOk, OrderOk, Owned, Members;
    assert q.held !! {q.ready[0]};
  }

  lemma PlacesPopped(q: Queue, fate: Fate)
    requires PlacesOk(q) && q.ready != []
    ensures PlacesOk(Popped(q, fate)) && Owned(Popped(q, fate)) == Owned(q)
    ensures q.ready[0] != 0 && q.ready[0] !in q.held
  {
    MembersHeadTail(q.ready);
    hide Members, Distinct;
  }

  lemma OrderPopped(q: Queue, fate: Fate)
    requires OrderOk(q) && q.ready != []
    ensures OrderOk(Popped(q, fate))
    ensures |q.departed| < |q.completed| && q.ready[0] == q.completed[|q.departed|]
  {
    assert Left(Popped(q, fate)) == Left(q) + [q.ready[0]];
    hide Left;
    assert q.ready == [q.ready[0]] + q.ready[1..];
  }

  lemma PopKeeps(p: Pool, f: Format, fate: Fate, frames: map<Frame, Info>)
    requires PoolOk(p) && !f.Unknown? && p.queues[Index(f)].ready != [] && frames.Keys == p.frames.Keys
    ensures PoolOk(Pool(With(p, f, Popped(p.queues[Index(f)], fate)).queues, frames))
  {
    hide TokensOk, PlacesOk, OrderOk, Owned;
    OldestLeaves(p.queues[Index(f)], fate);
    assert Popped(p.queues[Index(f)], fate).count == p.queues[Index(f)].count;
    hide QueueOk, Popped;
    OneChanged(p, f, Popped(p.queues[Index(f)], fate), frames);
  }

  lemma ReclaimKeeps(p: Pool, f: Format)
    requires PoolOk(p) && !f.Unknown? && p.queues[Index(f)].ready != []
    ensures PoolOk(Taken(p, f, Popped(p.queues[Index(f)], Reclaimed), p.queues[Index(f)].ready[0]).0)
  {
    var q := p.queues[Index(f)];
    var x := q.ready[0];
    assert x in p.frames by { assert x in Members(q.ready); }
    assert Popped(q, Reclaimed).held + {x} == Popped(q, Reclaimed).held;
    PopKeeps(p, f, Reclaimed, p.frames[x := Fresh(f)]);
    hide PoolOk, Popped;
  }

  lemma MallocKeeps(p: Pool, f: Format, memory: Option<Frame>)
    requires PoolOk(p) && (memory.Some? ==> memory.value != 0 && memory.value !in p.frames)
    ensures PoolOk(Malloc(p, f, memory).0)
  {
    if Open(p, f) {
      var q := p.queues[Index(f)];
      if q.free > 0 && memory.Some? {
        TakenFromAllocator(p, f, q, memory.value);
      } else if Reclaimable(f) && q.ready != [] {
        OldestLeaves(q, Reclaimed);
        hide PoolOk, Popped, Taken;
        ReclaimKeeps(p, f);
      }
    }
  }

  lemma GetFrameKeeps(p: Pool, f: Format)
    requires PoolOk(p)
    ensures PoolOk(GetFrame(p, f).0)
  {
    if Open(p, f) && p.queues[Index(f)].ready != [] {
      PopKeeps(p, f, Delivered, p.frames);
      hide PoolOk;
    }
  }

  /** A held frame, completed. */
  function Readied(q: Queue, frame: Frame): Queue {
    q.(ready := q.ready + [frame], held := q.held - {frame}, completed := q.completed + [frame])
  }

  lemma CompletedOk(q: Queue, frame: Frame)
    requires QueueOk(q) && frame in q.held
    ensures q.usable && |q.ready| < q.count
    ensures QueueOk(Readied(q, frame)) && Owned(Readied(q, frame)) == Owned(q)
  {
    OneLess(q.held, frame);
    PlacesReadied(q, frame);
    assert OrderOk(Readied(q, frame)) by {
      assert Left(Readied(q, frame)) == Left(q);
    }
    hide PlacesOk, OrderOk, Owned, Members;
  }

  lemma PlacesReadied(q: Queue, frame: Frame)
    requires PlacesOk(q) && frame in q.held
    ensures PlacesOk(Readied(q, frame)) && Owned(Readied(q, frame)) == Owned(q)
  {
    MembersSnoc(q.ready, frame);
    hide Members, Distinct;
  }

  lemma OneLess(s: set<Frame>, x: Frame)
    requires x in s
    ensures |s - {x}| == |s| - 1
  {
  }

  /** A held frame, given back. */
  function Returned(q: Queue, frame: Frame): Queue {
    q.(free := q.free + 1, held := q.held - {frame})
  }

  lemma FreedOk(q: Queue, frame: Frame)
    requires QueueOk(q) && frame in q.held
    ensures q.usable && q.free < q.count
    ensures QueueOk(Returned(q, frame)) && Owned(Returned(q, frame)) == Owned(q) - {frame}
  {
    OneLess(q.held, frame);
    assert OrderOk(Returned(q, frame)) by {
      assert Left(Returned(q, frame)) == Left(q);
    }
    PlacesReturned(q, frame);
    hide PlacesOk, OrderOk, Owned, Members;
  }

  lemma PlacesReturned(q: Queue, frame: Frame)
    requires PlacesOk(q) && frame in q.held
    ensures PlacesOk(Returned(q, frame)) && Owned(Returned(q, frame)) == Owned(q) - {frame}
  {
    hide Distinct;
    assert frame !in Members(q.ready);
    hide Members;
  }

  /** Completing a held frame always finds room, so it always succeeds. */
  lemma CompleteKeeps(p: Pool, f: Format, frame: Frame)
    requires PoolOk(p) && Open(p, f) && frame in p.queues[Index(f)].held
    ensures PoolOk(Complete(p, f, frame).0) && Complete(p, f, frame).1
  {
    var q := p.queues[Index(f)];
    CompletedOk(q, frame);
    hide QueueOk, Owned, Free;
    OneChanged(p, f, Readied(q, frame), p.frames);
    hide PoolOk;
  }

  lemma FreeForm(p: Pool, f: Format, frame: Frame)
    requires Shaped(p) && Open(p, f) && p.queues[Index(f)].usable
    requires p.queues[Index(f)].free < p.queues[Index(f)].count
    ensures Free(p, f, frame) ==
      Pool(With(p, f, Returned(p.queues[Index(f)], frame)).queues, p.frames - {frame})
  {
  }

  /** Freeing a held frame always gives its token back. */
  lemma FreeKeeps(p: Pool, f: Format, frame: Frame)
    requires PoolOk(p) && Open(p, f) && frame in p.queues[Index(f)].held
    ensures PoolOk(Free(p, f, frame))
    ensures Free(p, f, frame).queues[Index(f)] == Returned(p.queues[Index(f)], frame)
    ensures Free(p, f, frame).frames == p.frames - {frame}
  {
    FreedOk(p.queues[Index(f)], frame);
    FreeForm(p, f, frame);
    assert frame in Owned(p.queues[Index(f)]);
    hide QueueOk, Owned, Free, Returned;
    OneChanged(p, f, Returned(p.queues[Index(f)], frame), p.frames - {frame});
    hide PoolOk;
  }

  /** Clearing one frame is taking it and freeing it. */
  lemma ClearOldestKeeps(p: Pool, f: Format)
    requires PoolOk(p) && Open(p, f) && p.queues[Index(f)].ready != []
    ensures PoolOk(ClearOldest(p, f))
    ensures ClearOldest(p, f).queues[Index(f)] ==
      Returned(Popped(p.queues[Index(f)], Cleared), p.queues[Index(f)].ready[0])
    ensures p.queues[Index(f)].ready[0] !in p.queues[Index(f)].held
  {
    OldestLeaves(p.queues[Index(f)], Cleared);
    PopKeeps(p, f, Cleared, p.frames);
    assert Shaped(p);
    hide QueueOk, Owned, PoolOk, Returned;
    var mid := With(p, f, Popped(p.queues[Index(f)], Cleared));
    assert mid == Pool(mid.queues, p.frames);
    FreeKeeps(mid, f, p.queues[Index(f)].ready[0]);
    hide Free, Popped;
  }

  lemma {:induction false} ClearKeeps(p: Pool, f: Format)
    requires PoolOk(p) && !f.Unknown?
    ensures var q, b := p.queues[Index(f)], Clear(p, f).queues[Index(f)];
      && PoolOk(Clear(p, f))
      && b.held == q.held && (q.count > 0 ==> b.ready == [])
      && b.free == q.free + |q.ready| && b.completed == q.completed && b.count == q.count
    decreases |p.queues[Index(f)].ready|
  {
    if Open(p, f) && p.queues[Index(f)].ready != [] {
      ClearOldestKeeps(p, f);
      ClearedFacts(p.queues[Index(f)]);
      assert Shaped(p);
      hide ClearOldest, PoolOk, Returned, Popped;
      ClearKeeps(ClearOldest(p, f), f);
    } else {
      assert p.queues[Index(f)].ready == [] by { hide Left, Owned, Members; }
      hide PoolOk;
    }
  }

  lemma ClearedFacts(q: Queue)
    requires q.ready != [] && q.ready[0] !in q.held
    ensures var b := Returned(Popped(q, Cleared), q.ready[0]);
      && b.held == q.held && b.ready == q.ready[1..] && b.count == q.count
      && b.free == q.free + 1 && b.completed == q.completed
  {
  }

  lemma InitKeeps(p: Pool, f: Format, freeOk: bool, readyOk: bool)
    requires PoolOk(p)
    ensures PoolOk(Init(p, f, freeOk, readyOk).0)
  {
    if !f.Unknown? && p.queues[Index(f)].count == 0 {
      var n := Capacity(f);
      var made := Queue(n, true, n, [], {}, [], []);
      assert QueueOk(made) && QueueOk(Unused().(count := n));
      assert Owned(made) == {} && Owned(Unused().(count := n)) == {};
      hide QueueOk, Owned;
      OneChanged(p, f, made, p.frames);
      OneChanged(p, f, Unused().(count := n), p.frames);
    }
  }

  lemma DeinitKeeps(p: Pool, f: Format)
    requires PoolOk(p)
    requires Open(p, f) ==> p.queues[Index(f)].held == {}
    ensures PoolOk(Deinit(p, f))
  {
    if Open(p, f) {
      assert QueueOk(Unused()) && Owned(Unused()) == {};
      assert Members(p.queues[Index(f)].ready) <= Owned(p.queues[Index(f)]);
      hide QueueOk, Owned;
      OneChanged(p, f, Unused(), p.frames - (set x | x in p.queues[Index(f)].ready));
    }
  }

  // ---- Runs ----

  datatype Op =
    | InitOp(f: Format, freeOk: bool, readyOk: bool)
    | MallocOp(f: Format, memory: Option<Frame>)
    | GetOp(f: Format)
    | CompleteOp(f: Format, frame: Frame)
    | FreeOp(f: Format, frame: Frame)
    | ClearOp
    | DeinitOp(f: Format)

  /** What callers and the allocator owe: frames are completed and freed by who holds them,
      the allocator gives buffers not in use, and nobody holds a frame of a queue torn down. */
  predicate Legal(p: Pool, op: Op)
    requires Shaped(p)
  {
    match op
    case MallocOp(f, memory) => memory.Some? ==> memory.value != 0 && memory.value !in p.frames
    case CompleteOp(f, frame) => Open(p, f) && frame in p.queues[Index(f)].held
    case FreeOp(f, frame) => Open(p, f) && frame in p.queues[Index(f)].held
    case DeinitOp(f) => Open(p, f) ==> p.queues[Index(f)].held == {}
    case _ => true
  }

  function Step(p: Pool, op: Op): (r: Pool)
    requires Shaped(p)
    ensures Shaped(r)
  {
    match op
    case InitOp(f, freeOk, readyOk) => Init(p, f, freeOk, readyOk).0
    case MallocOp(f, memory) => Malloc(p, f, memory).0
    case GetOp(f) => GetFrame(p, f).0
    case CompleteOp(f, frame) => Complete(p, f, frame).0
    case FreeOp(f, frame) => Free(p, f, frame)
    case ClearOp => ClearAll(p)
    case DeinitOp(f) => Deinit(p, f)
  }

  lemma StepKeeps(p: Pool, op: Op)
    requires PoolOk(p) && Legal(p, op)
    ensures PoolOk(Step(p, op))
  {
    hide Init, Malloc, GetFrame, Complete, Free, Clear, Deinit, QueueOk, Owned;
    match op
    case InitOp(f, freeOk, readyOk) => InitKeeps(p, f, freeOk, readyOk);
    case MallocOp(f, memory) => MallocKeeps(p, f, memory);
    case GetOp(f) => GetFrameKeeps(p, f);
    case CompleteOp(f, frame) => CompleteKeeps(p, f, frame);
    case FreeOp(f, frame) => FreeKeeps(p, f, frame);
    case ClearOp =>
      ClearKeeps(p, Mjpeg);
      ClearKeeps(Clear(p, Mjpeg), H264);
      ClearKeeps(Clear(Clear(p, Mjpeg), H264), Yuv);
    case DeinitOp(f) => DeinitKeeps(p, f);
  }

  /** The pools legal operations lead to. */
  function Run(ops: seq<Op>): (r: Pool)
    ensures Shaped(r)
  {
    if ops == [] then Pool([Unused(), Unused(), Unused()], map[])
    else Step(Run(ops[..|ops| - 1]), ops[|ops| - 1])
  }

  predicate AllLegal(ops: seq<Op>) {
    ops == [] || (AllLegal(ops[..|ops| - 1]) && Legal(Run(ops[..|ops| - 1]), ops[|ops| - 1]))
  }

  lemma {:induction false} RunKeeps(ops: seq<Op>)
    requires AllLegal(ops)
    ensures PoolOk(Run(ops))
    decreases |ops|
  {
    hide PoolOk, Step, Legal;
    if ops == [] {
      EmptyOk();
    } else {
      RunKeeps(ops[..|ops| - 1]);
      StepKeeps(Run(ops[..|ops| - 1]), ops[|ops| - 1]);
    }
  }

  /** Tokens are conserved in every initialised queue. */
  lemma TokensConserved(ops: seq<Op>, f: Format)
    requires AllLegal(ops) && !f.Unknown? && Run(ops).queues[Index(f)].usable
    ensures var q := Run(ops).queues[Index(f)];
      q.free + |q.ready| + |q.held| == q.count == Capacity(f)
  {
    RunKeeps(ops);
    hide Run, AllLegal, Left, Owned;
    assert FormatAt(Index(f)) == f;
  }

  /** Frames come out in the order they were completed, none skipped: the next one out, be it
      to a reader or back to a writer, is always the oldest completed and still there. */
  lemma OldestFirst(ops: seq<Op>, f: Format, memory: Option<Frame>)
    requires AllLegal(ops) && Open(Run(ops), f) && Run(ops).queues[Index(f)].ready != []
    ensures var p := Run(ops);
      var q := p.queues[Index(f)];
      && q.completed == Left(q) + q.ready
      && |q.departed| < |q.completed|
      && GetFrame(p, f).1 == Some(q.completed[|q.departed|])
      && (Malloc(p, f, memory).1 ==
            if q.free > 0 && memory.Some? then memory
            else if Reclaimable(f) then Some(q.completed[|q.departed|])
            else None)
  {
    RunKeeps(ops);
    var p := Run(ops);
    var q := p.queues[Index(f)];
    hide Run, AllLegal;
    OldestLeaves(q, Delivered);
    hide QueueOk, Owned, Left;
  }

  /** Four Mjpeg frames, six H.264 frames and three Yuv frames are in circulation. */
  lemma FramesInCirculation(ops: seq<Op>, f: Format)
    requires AllLegal(ops) && !f.Unknown? && Run(ops).queues[Index(f)].usable
    ensures var q := Run(ops).queues[Index(f)];
      q.free + |q.ready| + |q.held| == q.count == (if f == Mjpeg then 4 else if f == H264 then 6 else 3)
  {
    TokensConserved(ops, f);
    hide Run, AllLegal;
  }

  /** The frame has just been handed out: with its caller, and blank but for its format. */
  predicate HandedOut(p: Pool, f: Format, frame: Frame)
    requires Shaped(p) && !f.Unknown?
  {
    && frame in p.queues[Index(f)].held
    && frame in p.frames
    && p.frames[frame] == Info(0, f, 0, 0, 0, 0, 0, 0, 0)
  }

  /** What asking for a frame gives: a new buffer if a token is free and there is memory; else, but never
      for H.264, the oldest frame waiting, which then waits no more; else nothing. */
  predicate Given(p: Pool, f: Format, memory: Option<Frame>, b: Pool, got: Option<Frame>)
    requires Shaped(p) && Shaped(b) && !f.Unknown?
  {
    var q, r := p.queues[Index(f)], b.queues[Index(f)];
    && (forall i :: 0 <= i < FORMATS && i != Index(f) ==> b.queues[i] == p.queues[i])
    && (if q.free > 0 && memory.Some? then
          got == memory && HandedOut(b, f, memory.value) && r.free == q.free - 1 && r.ready == q.ready
        else if f != H264 && q.ready != [] then
          got == Some(q.ready[0]) && HandedOut(b, f, q.ready[0]) && r.free == q.free && r.ready == q.ready[1..]
        else got == None && b == p)
  }

  lemma AskingForAFrame(ops: seq<Op>, f: Format, memory: Option<Frame>)
    requires AllLegal(ops) && !f.Unknown? && Run(ops).queues[Index(f)].usable
    ensures var (b, got) := Malloc(Run(ops), f, memory);
      Shaped(b) && Given(Run(ops), f, memory, b, got)
  {
    RunKeeps(ops);
    var q := Run(ops).queues[Index(f)];
    hide Run, AllLegal, Malloc, Given;
    UsableOpen(Run(ops), f);
    if q.ready != [] {
      OldestLeaves(q, Reclaimed);
    }
    hide QueueOk, Owned;
    AskingGives(Run(ops), f, memory);
  }

  lemma AskingGives(p: Pool, f: Format, memory: Option<Frame>)
    requires Shaped(p) && Open(p, f)
    requires p.queues[Index(f)].ready != [] ==> p.queues[Index(f)].ready[0] != 0
    ensures var (b, got) := Malloc(p, f, memory);
      Shaped(b) && Given(p, f, memory, b, got)
  {
    var q := p.queues[Index(f)];
    if q.free > 0 && memory.Some? {
      TakenGives(p, f, q.(free := q.free - 1), memory.value);
    } else if Reclaimable(f) && q.ready != [] {
      TakenGives(p, f, Popped(q, Reclaimed), q.ready[0]);
    }
    hide Taken, HandedOut;
  }

  lemma TakenGives(p: Pool, f: Format, q: Queue, frame: Frame)
    requires Shaped(p) && !f.Unknown?
    ensures var (b, got) := Taken(p, f, q, frame);
      && Shaped(b) && got == Some(frame) && HandedOut(b, f, frame)
      && b.queues == p.queues[Index(f) := q.(held := q.held + {frame})]
  {
  }

  lemma UsableOpen(p: Pool, f: Format)
    requires PoolOk(p) && !f.Unknown? && p.queues[Index(f)].usable
    ensures Open(p, f)
  {
    hide PlacesOk, OrderOk, Owned;
  }

  /** Tearing a queue down gives back the frames waiting in it, and no others, and leaves it as new; one
      never initialised stays as it is. */
  lemma TearingDown(p: Pool, f: Format)
    requires Shaped(p) && !f.Unknown?
    ensures var b, q := Step(p, DeinitOp(f)), p.queues[Index(f)];
      if q.count > 0 then
        && b.queues == p.queues[Index(f) := Queue(0, false, 0, [], {}, [], [])]
        && (forall x :: x in b.frames <==> x in p.frames && x !in q.ready)
        && (forall x :: x in b.frames ==> b.frames[x] == p.frames[x])
      else b == p
  {
  }

  /** For a format unknown, or never initialised, there is nothing. */
  lemma AskingInVain(p: Pool, f: Format, memory: Option<Frame>)
    requires Shaped(p) && (f.Unknown? || p.queues[Index(f)].count == 0)
    ensures Malloc(p, f, memory) == (p, None) && GetFrame(p, f) == (p, None)
  {
  }

  // ---- Initialisation ----

  /** How the first attempt to initialise the queue since it was last torn down went, if there was
      one: whether both message queues could be made. */
  function FirstAttempt(ops: seq<Op>, f: Format): Option<bool> {
    if ops == [] then None
    else
      var before, op := FirstAttempt(ops[..|ops| - 1], f), ops[|ops| - 1];
      if op == DeinitOp(f) then None
      else if op.InitOp? && op.f == f && before.None? then Some(op.freeOk && op.readyOk)
      else before
  }

  predicate SameMaking(a: Pool, b: Pool, f: Format)
    requires Shaped(a) && Shaped(b) && !f.Unknown?
  {
    var q, r := a.queues[Index(f)], b.queues[Index(f)];
    r.count == q.count && r.usable == q.usable
  }

  /** Nothing else makes a message queue or takes one down. */
  lemma OthersKeepMaking(p: Pool, op: Op, f: Format)
    requires Shaped(p) && !f.Unknown?
    requires op != DeinitOp(f) && !(op.InitOp? && op.f == f)
    ensures SameMaking(p, Step(p, op), f)
  {
    match op
    case InitOp(g, _, _) =>
    case MallocOp(g, _) =>
    case GetOp(g) =>
    case CompleteOp(g, _) =>
    case FreeOp(g, _) =>
    case ClearOp =>
      ClearKeepsMaking(p, Mjpeg, f);
      ClearKeepsMaking(Clear(p, Mjpeg), H264, f);
      ClearKeepsMaking(Clear(Clear(p, Mjpeg), H264), Yuv, f);
      hide Clear;
    case DeinitOp(g) =>
  }

  lemma {:induction false} ClearKeepsMaking(p: Pool, g: Format, f: Format)
    requires Shaped(p) && !g.Unknown? && !f.Unknown?
    ensures SameMaking(p, Clear(p, g), f)
    decreases |p.queues[Index(g)].ready|
  {
    if p.queues[Index(g)].count > 0 && p.queues[Index(g)].ready != [] {
      ClearKeepsMaking(ClearOldest(p, g), g, f);
    }
  }

  /** A queue counts as made after any attempt, but works only if the first one succeeded. */
  lemma {:induction false} FirstAttemptDecides(ops: seq<Op>, f: Format)
    requires !f.Unknown?
    ensures var q := Run(ops).queues[Index(f)];
      && (q.count == 0 <==> FirstAttempt(ops, f) == None)
      && (q.usable <==> FirstAttempt(ops, f) == Some(true))
    decreases |ops|
  {
    if ops != [] {
      var before, op := Run(ops[..|ops| - 1]), ops[|ops| - 1];
      FirstAttemptDecides(ops[..|ops| - 1], f);
      if op != DeinitOp(f) && !(op.InitOp? && op.f == f) {
        OthersKeepMaking(before, op, f);
        hide Step;
      }
    }
  }

  /** After any operations at all, an initialisation reports success when it succeeds, or when it is
      not the first since the last teardown; and the queue then works exactly when the first attempt
      since then, be it this one, made both message queues. */
  lemma ReadyMeansUsable(ops: seq<Op>, f: Format, freeOk: bool, readyOk: bool)
    requires !f.Unknown?
    ensures Init(Run(ops), f, freeOk, readyOk).1 <==>
      FirstAttempt(ops, f).Some? || (freeOk && readyOk)
    ensures Init(Run(ops), f, freeOk, readyOk).0.queues[Index(f)].usable <==>
      FirstAttempt(ops + [InitOp(f, freeOk, readyOk)], f) == Some(true)
    ensures Init(Run(ops), f, freeOk, readyOk).1 ==>
      (Init(Run(ops), f, freeOk, readyOk).0.queues[Index(f)].usable <==> FirstAttempt(ops, f) != Some(false))
  {
    var more := ops + [InitOp(f, freeOk, readyOk)];
    assert more[..|more| - 1] == ops;
    FirstAttemptDecides(ops, f);
    hide Run;
  }

  /** After a failed attempt the second one reports success on a queue that does not work. */
  lemma FailedInitReportsReady()
    ensures var ops := [InitOp(Mjpeg, true, false)];
      && Init(Run(ops), Mjpeg, true, true).1
      && !Init(Run(ops), Mjpeg, true, true).0.queues[Index(Mjpeg)].usable
  {
    var ops := [InitOp(Mjpeg, true, false)];
    assert ops[..|ops| - 1] == [];
    assert Run([]) == Pool([Unused(), Unused(), Unused()], map[]);
  }

  // ---- Clearing ----

  lemma ClearOthers(p: Pool, f: Format, i: nat)
    requires Shaped(p) && !f.Unknown? && i < FORMATS && i != Index(f)
    ensures Clear(p, f).queues[i] == p.queues[i]
    decreases |p.queues[Index(f)].ready|
  {
    if p.queues[Index(f)].count > 0 && p.queues[Index(f)].ready != [] {
      ClearOthers(ClearOldest(p, f), f, i);
    }
  }

  /** After a clear nothing is ready, and every token not with a caller is free. */
  lemma ClearAllEmpties(p: Pool, f: Format)
    requires PoolOk(p) && Open(p, f)
    ensures var q, b := p.queues[Index(f)], ClearAll(p).queues[Index(f)];
      && b.ready == [] && b.held == q.held && b.free == q.free + |q.ready|
  {
    var p1 := Clear(p, Mjpeg);
    var p2 := Clear(p1, H264);
    ClearKeeps(p, Mjpeg);
    hide PoolOk;
    ClearKeeps(p1, H264);
    ClearKeeps(p2, Yuv);
    hide Clear;
    match f
    case Mjpeg =>
      ClearOthers(p1, H264, 0);
      ClearOthers(p2, Yuv, 0);
    case H264 =>
      ClearOthers(p, Mjpeg, 1);
      ClearOthers(p2, Yuv, 1);
    case Yuv =>
      ClearOthers(p, Mjpeg, 2);
      ClearOthers(p1, H264, 2);
  }

  // ---- The program ----

  class FrameQueues {
    const queues: array<Queue>
    var frames: map<Frame, Info>

    predicate Valid()
      reads this, queues
    {
      queues.Length == FORMATS
    }

    function View(): Pool
      reads this, queues
      requires Valid()
    {
      Pool(queues[..], frames)
    }

    constructor ()
      ensures Valid() && fresh(queues)
      ensures View() == Run([])
    {
      queues := new Queue[FORMATS](_ => Unused());
      frames := map[];
      new;
      assert queues[..] == [Unused(), Unused(), Unused()];
    }

    method InitQueue(f: Format, freeOk: bool, readyOk: bool) returns (ok: bool)
      requires Valid()
      modifies this, queues
      ensures Valid() && (View(), ok) == Init(old(View()), f, freeOk, readyOk)
    {
      var index := Index(f);
      if index < 0 || index >= FORMATS {
        return false;
      }
      if queues[index].count > 0 {
        return true;
      }
      queues[index] := Unused().(count := Capacity(f));
      if !freeOk {
        return false;
      }
      var free := 0;
      for i := 0 to Capacity(f)
        invariant free == i
      {
        free := free + 1;
      }
      if !readyOk {
        return false;
      }
      queues[index] := queues[index].(usable := true, free := free);
      assert queues[..] == old(queues[..])[index := queues[index]];
      return true;
    }

    method MallocFrame(f: Format, memory: Option<Frame>) returns (frame: Option<Frame>)
      requires Valid()
      modifies this, queues
      ensures Valid() && (View(), frame) == Malloc(old(View()), f, memory)
    {
      frame := None;
      var index := Index(f);
      if index < 0 || index >= FORMATS || queues[index].count == 0 {
        return;
      }
      var q := queues[index];
      if q.free > 0 {
        frame := memory;
        if frame.Some? {
          q := q.(free := q.free - 1);
        }
      }
      if frame.None? && (f == Mjpeg || f == Yuv) && q.ready != [] {
        if q.ready[0] != 0 {
          frame := Some(q.ready[0]);
        }
        q := Popped(q, Reclaimed);
      }
      if frame.Some? {
        q := q.(held := q.held + {frame.value});
        frames := frames[frame.value := Fresh(f)];
      }
      queues[index] := q;
      assert frame.None? && q == old(queues[index]) ==> queues[..] == old(queues[..]);
    }

    method GetReady(f: Format) returns (frame: Option<Frame>)
      requires Valid()
      modifies this, queues
      ensures Valid() && (View(), frame) == GetFrame(old(View()), f)
    {
      var index := Index(f);
      if index < 0 || index >= FORMATS || queues[index].count == 0 || queues[index].ready == [] {
        return None;
      }
      frame := Some(queues[index].ready[0]);
      queues[index] := Popped(queues[index], Delivered);
    }

    method CompleteFrame(f: Format, frame: Frame) returns (ok: bool)
      requires Valid()
      modifies this, queues
      ensures Valid() && (View(), ok) == Complete(old(View()), f, frame)
    {
      var index := Index(f);
      if index < 0 || index >= FORMATS || queues[index].count == 0 {
        return false;
      }
      var q := queues[index];
      if !q.usable || |q.ready| >= q.count {
        FreeFrame(f, frame);
        return false;
      }
      queues[index] := Readied(q, frame);
      return true;
    }

    method FreeFrame(f: Format, frame: Frame)
      requires Valid()
      modifies this, queues
      ensures Valid() && View() == Free(old(View()), f, frame)
    {
      var index := Index(f);
      if index < 0 || index >= FORMATS || queues[index].count == 0 {
        return;
      }
      var q := queues[index];
      frames := frames - {frame};
      if q.usable && q.free < q.count {
        q := q.(free := q.free + 1);
      }
      queues[index] := q.(held := q.held - {frame});
    }

    method ClearQueue(f: Format)
      requires Valid() && !f.Unknown?
      modifies this, queues
      ensures Valid() && View() == Clear(old(View()), f)
    {
      var index := Index(f);
      if queues[index].count == 0 {
        return;
      }
      while queues[index].ready != []
        invariant Valid() && queues[index].count > 0
        invariant Clear(View(), f) == Clear(old(View()), f)
        decreases |queues[index].ready|
      {
        var frame := queues[index].ready[0];
        queues[index] := Popped(queues[index], Cleared);
        if frame != 0 {
          FreeFrame(f, frame);
        }
      }
    }

    method ClearEvery()
      requires Valid()
      modifies this, queues
      ensures Valid() && View() == ClearAll(old(View()))
    {
      ClearQueue(Mjpeg);
      ClearQueue(H264);
      ClearQueue(Yuv);
    }

    method DeinitQueue(f: Format)
      requires Valid()
      modifies this, queues
      ensures Valid() && View() == Deinit(old(View()), f)
    {
      var index := Index(f);
      if index < 0 || index >= FORMATS || queues[index].count == 0 {
        return;
      }
      var ready := queues[index].ready;
      var i := 0;
      while i < |ready|
        invariant 0 <= i <= |ready|
        invariant frames == old(frames) - (set x | x in ready[..i])
        invariant queues[..] == old(queues[..])
      {
        frames := frames - {ready[i]};
        assert ready[..i + 1] == ready[..i] + [ready[i]];
        i := i + 1;
      }
      assert ready[..i] == ready;
      queues[index] := Unused();
    }
  }
}
