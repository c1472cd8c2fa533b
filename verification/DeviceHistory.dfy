/** What a device has done, as seen from outside, and the automata that judge it.

    Every network change, HTTP call, published state and callback of the device
    lifecycle is one entry; the automata below read the entries in order. */
module DeviceHistory {
  datatype State = Unprovisioned | Pairing | AwaitingClaim | Runtime | InConversation

  /** The mailbox other threads stop a conversation through. */
  datatype StopMail = NoMail | DeviceHangup | Failure

  datatype Kind =
    | PairPoll
    | DevicePoll
    | StopCall(conversation: string, reason: string)

  /** HTTP work handed to the background worker: a snapshot, never updated. */
  datatype Request = Request(
    kind: Kind,
    networkGeneration: nat,
    bindingGeneration: nat,
    serverBase: string,
    deviceId: string,
    credential: string)

  /** The HTTP calls the control owner makes itself. */
  datatype Call = PairCodeCall | StartCall | RenewCall

  /** Stale: the network changed during the call. */
  datatype Outcome = Accepted | Failed | Stale

  datatype Entry =
    | Network(up: bool)
    | Began(call: Call)
    | Ended(call: Call, outcome: Outcome)
    | Published(state: State, mail: StopMail, renewalRequested: bool, renewalPending: bool)
    | Started(id: string, token: string)
    | Stopped
    | PairCodeShown(code: string)
    | TokenRenewed
    | Submitted(request: Request)

  // ---- Conversations ----

  /** Hung: stopped locally, its STOP request not yet submitted. */
  datatype Phase =
    | Idle
    | Entering
    | Talking(id: string, token: string)
    | Hung(id: string, token: string)
    | BadPhase

  function NextPhase(p: Phase, e: Entry): Phase {
    match e
    case Published(s, mail, requested, pending) =>
      if s.InConversation? then
        if (p.Idle? || p.Hung?) && mail == NoMail && !requested && !pending then Entering else BadPhase
      else if p.Idle? || p.Hung? then p
      else BadPhase
    case Started(id, token) => if p.Entering? then Talking(id, token) else BadPhase
    case Stopped => if p.Talking? then Hung(p.id, p.token) else BadPhase
    case Submitted(r) =>
      if !r.kind.StopCall? then p
      else if p == Hung(r.kind.conversation, r.credential) then Idle
      else BadPhase
    case _ => p
  }

  function PhaseOf(log: seq<Entry>): Phase {
    if log == [] then Idle else NextPhase(PhaseOf(log[..|log| - 1]), log[|log| - 1])
  }

  lemma PhaseOfSnoc(log: seq<Entry>, e: Entry)
    ensures PhaseOf(log + [e]) == NextPhase(PhaseOf(log), e)
  {
    assert (log + [e])[..|log|] == log;
  }

  // ---- Calls and the network ----

  /** Steady: the network has been up since the call began. */
  datatype Progress =
    | NoCall
    | Calling(call: Call, steady: bool)
    | Granted(call: Call)
    | BadCall

  datatype Link = Link(up: bool, progress: Progress)

  function NextLink(l: Link, e: Entry): Link {
    match e
    case Network(up) =>
      Link(up, if l.progress.Calling? then Calling(l.progress.call, l.progress.steady && up) else l.progress)
    case Began(c) =>
      l.(progress := if l.progress.NoCall? || l.progress.Granted? then Calling(c, l.up) else BadCall)
    case Ended(c, o) =>
      l.(progress :=
        if !l.progress.Calling? || l.progress.call != c then BadCall
        else if !o.Accepted? then NoCall
        else if l.progress.steady then Granted(c)
        else BadCall)
    case Started(_, _) => l.(progress := if l.progress == Granted(StartCall) then NoCall else BadCall)
    case PairCodeShown(_) => l.(progress := if l.progress == Granted(PairCodeCall) then NoCall else BadCall)
    case TokenRenewed => l.(progress := if l.progress == Granted(RenewCall) then NoCall else BadCall)
    case _ => l
  }

  /** The network counts as up when the device starts. */
  function LinkOf(log: seq<Entry>): Link {
    if log == [] then Link(true, NoCall) else NextLink(LinkOf(log[..|log| - 1]), log[|log| - 1])
  }

  lemma LinkOfSnoc(log: seq<Entry>, e: Entry)
    ensures LinkOf(log + [e]) == NextLink(LinkOf(log), e)
  {
    assert (log + [e])[..|log|] == log;
  }

  // ---- Failed pair-code calls in a row ----

  function NextFailures(n: nat, e: Entry): nat {
    match e
    case Ended(c, o) =>
      if !c.PairCodeCall? || o.Stale? then n else if o.Accepted? then 0 else n + 1
    case _ => n
  }

  function FailuresOf(log: seq<Entry>): nat {
    if log == [] then 0 else NextFailures(FailuresOf(log[..|log| - 1]), log[|log| - 1])
  }

  lemma FailuresOfSnoc(log: seq<Entry>, e: Entry)
    ensures FailuresOf(log + [e]) == NextFailures(FailuresOf(log), e)
  {
    assert (log + [e])[..|log|] == log;
  }

  // ---- What an unbroken history means, entry by entry ----

  function Starts(log: seq<Entry>): nat {
    if log == [] then 0 else Starts(log[..|log| - 1]) + if log[|log| - 1].Started? then 1 else 0
  }

  function Stops(log: seq<Entry>): nat {
    if log == [] then 0 else Stops(log[..|log| - 1]) + if log[|log| - 1].Stopped? then 1 else 0
  }

  predicate StopRequest(e: Entry) {
    e.Submitted? && e.request.kind.StopCall?
  }

  lemma BadPhaseStays(log: seq<Entry>, n: nat)
    requires n <= |log| && PhaseOf(log) != BadPhase
    ensures PhaseOf(log[..n]) != BadPhase
    decreases |log|
  {
    if n < |log| {
      var front := log[..|log| - 1];
      BadPhaseStays(front, n);
      assert front[..n] == log[..n];
    } else {
      assert log[..n] == log;
    }
  }

  lemma BadCallStays(log: seq<Entry>, n: nat)
    requires n <= |log| && LinkOf(log).progress != BadCall
    ensures LinkOf(log[..n]).progress != BadCall
    decreases |log|
  {
    if n < |log| {
      var front := log[..|log| - 1];
      BadCallStays(front, n);
      assert front[..n] == log[..n];
    } else {
      assert log[..n] == log;
    }
  }

  /** Starts outnumber stops by one while talking, and never otherwise. */
  lemma {:induction false} Accounting(log: seq<Entry>)
    requires PhaseOf(log) != BadPhase
    ensures Starts(log) == Stops(log) + if PhaseOf(log).Talking? then 1 else 0
  {
    if log != [] {
      Accounting(log[..|log| - 1]);
    }
  }

  /** While talking, the conversation's start is the last start or stop of the history. */
  lemma {:induction false} TalkingSince(log: seq<Entry>) returns (i: nat)
    requires PhaseOf(log).Talking?
    ensures i < |log| && log[i] == Started(PhaseOf(log).id, PhaseOf(log).token)
    ensures forall k :: i < k < |log| ==> !log[k].Started? && !log[k].Stopped? && !StopRequest(log[k])
  {
    var front, e := log[..|log| - 1], log[|log| - 1];
    if e.Started? {
      i := |log| - 1;
    } else {
      i := TalkingSince(front);
      assert forall k :: i < k < |front| ==> log[k] == front[k];
    }
  }

  /** After a local stop, the conversation it ended is the last one started. */
  lemma {:induction false} HungSince(log: seq<Entry>) returns (i: nat, j: nat)
    requires PhaseOf(log).Hung?
    ensures i < j < |log| && log[i] == Started(PhaseOf(log).id, PhaseOf(log).token) && log[j].Stopped?
    ensures forall k :: i < k < |log| && k != j ==> !log[k].Started? && !log[k].Stopped? && !StopRequest(log[k])
  {
    var front, e := log[..|log| - 1], log[|log| - 1];
    if e.Stopped? {
      i := TalkingSince(front);
      j := |log| - 1;
    } else {
      i, j := HungSince(front);
    }
    assert forall k :: i < k < |front| ==> log[k] == front[k];
  }

  /** A STOP request comes after the local stop of the conversation it names, carries that
      conversation's own token, and is the only one for it. */
  lemma StopRequestFollowsItsConversation(log: seq<Entry>, n: nat) returns (i: nat, j: nat)
    requires PhaseOf(log) != BadPhase && n < |log| && StopRequest(log[n])
    ensures i < j < n && log[j].Stopped?
    ensures log[i] == Started(log[n].request.kind.conversation, log[n].request.credential)
    ensures forall k :: i < k < n && k != j ==> !log[k].Started? && !log[k].Stopped? && !StopRequest(log[k])
  {
    BadPhaseStays(log, n + 1);
    var front := log[..n + 1];
    assert front[..|front| - 1] == log[..n] && front[|front| - 1] == log[n];
    i, j := HungSince(log[..n]);
    assert forall k :: i <= k < n ==> log[k] == log[..n][k];
  }

  /** No two STOP requests share a conversation: a new start lies between them. */
  lemma OneStopRequestEach(log: seq<Entry>, m: nat, n: nat) returns (i: nat)
    requires PhaseOf(log) != BadPhase && m < n < |log| && StopRequest(log[m]) && StopRequest(log[n])
    ensures m < i < n && log[i] == Started(log[n].request.kind.conversation, log[n].request.credential)
  {
    var j;
    i, j := StopRequestFollowsItsConversation(log, n);
  }

  /** A conversation opens on an empty stop mailbox and without a renewal to do. */
  lemma ConversationsOpenClean(log: seq<Entry>, n: nat)
    requires PhaseOf(log) != BadPhase && n < |log| && log[n].Published? && log[n].state.InConversation?
    ensures log[n].mail == NoMail && !log[n].renewalRequested && !log[n].renewalPending
  {
    BadPhaseStays(log, n + 1);
    var front := log[..n + 1];
    assert front[..|front| - 1] == log[..n] && front[|front| - 1] == log[n];
  }

  /** A call under way began after everything but network changes and publications. */
  lemma {:induction false} CallingSince(log: seq<Entry>) returns (i: nat)
    requires LinkOf(log).progress.Calling? && LinkOf(log).progress.steady
    ensures i < |log| && log[i] == Began(LinkOf(log).progress.call) && LinkOf(log[..i]).up
    ensures forall k :: i < k < |log| ==> log[k] != Network(false)
  {
    var front, e := log[..|log| - 1], log[|log| - 1];
    if e.Began? {
      i := |log| - 1;
    } else {
      i := CallingSince(front);
      assert front[..i] == log[..i];
      assert forall k :: i < k < |front| ==> log[k] == front[k];
    }
  }

  lemma {:induction false} GrantedSince(log: seq<Entry>) returns (i: nat, j: nat)
    requires LinkOf(log).progress.Granted?
    ensures i < j < |log| && log[i] == Began(LinkOf(log).progress.call) && LinkOf(log[..i]).up
    ensures log[j] == Ended(LinkOf(log).progress.call, Accepted)
    ensures forall k :: i < k < j ==> log[k] != Network(false)
    ensures forall k :: j < k < |log| ==> !log[k].Began? && !log[k].Ended?
  {
    var front, e := log[..|log| - 1], log[|log| - 1];
    if e.Ended? {
      i := CallingSince(front);
      j := |log| - 1;
    } else {
      i, j := GrantedSince(front);
    }
    assert front[..i] == log[..i];
    assert forall k :: i < k < |front| ==> log[k] == front[k];
  }

  predicate FromCall(e: Entry, c: Call) {
    match e
    case Started(_, _) => c == StartCall
    case PairCodeShown(_) => c == PairCodeCall
    case TokenRenewed => c == RenewCall
    case _ => false
  }

  /** Every started conversation, shown pair code and renewed token comes from the last call
      made, which began online and saw no loss of the network until it was answered. */
  lemma GrantedOnline(log: seq<Entry>, n: nat, c: Call) returns (i: nat, j: nat)
    requires LinkOf(log).progress != BadCall && n < |log| && FromCall(log[n], c)
    ensures i < j < n && log[i] == Began(c) && log[j] == Ended(c, Accepted)
    ensures LinkOf(log[..i]).up && forall k :: i < k < j ==> log[k] != Network(false)
    ensures forall k :: j < k < n ==> !log[k].Began? && !log[k].Ended?
  {
    BadCallStays(log, n + 1);
    var front := log[..n + 1];
    assert front[..|front| - 1] == log[..n] && front[|front| - 1] == log[n];
    i, j := GrantedSince(log[..n]);
    assert log[..n][..i] == log[..i];
    assert forall k :: i <= k < n ==> log[k] == log[..n][k];
  }
}
