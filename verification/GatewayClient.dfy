/** One websocket connection: what it has seen of its room, and its bounded queues. The writer
    takes from the queues at any time; everything else happens under the connection's mutex. */
module GatewayClient {
  import opened Wrappers

  datatype Phase = Countdown | Playing | Recovering | Finalizing | Ended | Cancelled

  datatype Grant = Grant(epoch: int, generation: string)

  datatype Frame = Frame(sessionID: string, epoch: int, sequence: int, phase: Phase, alive: set<string>)

  /** A view is a frame rendered with this connection's grant, answering request `messageID` if it is not "". */
  datatype Content = Text(body: string) | View(frame: Frame, grant: Option<Grant>, messageID: string)

  /** `broadcast` is the version of a broadcast session snapshot. */
  datatype Message = Message(content: Content, broadcast: Option<int>)

  const SECOND := 1_000_000_000

  // ----- order of frames

  datatype Position = Position(epoch: int, sequence: int)

  predicate AtMost(a: Position, b: Position) {
    a.epoch < b.epoch || (a.epoch == b.epoch && a.sequence <= b.sequence)
  }

  ghost predicate NeverBack(trail: seq<Position>) {
    forall i, j :: 0 <= i < j < |trail| ==> AtMost(trail[i], trail[j])
  }

  function At(f: Frame): Position { Position(f.epoch, f.sequence) }

  /** A trail that goes on from its last position, or further, never goes back. */
  lemma TrailGoesOn(trail: seq<Position>, next: Position)
    requires NeverBack(trail) && trail != [] && AtMost(trail[|trail| - 1], next)
    ensures NeverBack(trail + [next])
  {
    var longer := trail + [next];
    forall i, j | 0 <= i < j < |longer|
      ensures AtMost(longer[i], longer[j])
    {
      if j == |trail| && i < |trail| - 1 { assert AtMost(trail[i], trail[|trail| - 1]); }
    }
  }

  // ----- what activation keeps of the buffered messages

  /** Message j is stale when the initial version or an earlier snapshot is at least as new. */
  predicate Stale(pending: seq<Message>, initial: int, j: nat)
    requires j < |pending|
  {
    && pending[j].broadcast.Some?
    && (pending[j].broadcast.value <= initial
        || exists i :: 0 <= i < j && pending[i].broadcast.Some?
            && pending[j].broadcast.value <= pending[i].broadcast.value)
  }

  /** The first n buffered messages in arrival order, without the stale ones. */
  function Kept(pending: seq<Message>, initial: int, n: nat): seq<Message>
    requires n <= |pending|
  {
    if n == 0 then []
    else Kept(pending, initial, n - 1) + if Stale(pending, initial, n - 1) then [] else [pending[n - 1]]
  }

  /** The newest version among the initial one and the first n messages. */
  function Newest(pending: seq<Message>, initial: int, n: nat): int
    requires n <= |pending|
  {
    if n == 0 then initial
    else
      var before, last := Newest(pending, initial, n - 1), pending[n - 1];
      if last.broadcast.Some? && last.broadcast.value > before then last.broadcast.value else before
  }

  /** A buffered message is stale exactly when it is a snapshot no newer than the newest so far. */
  lemma {:induction false} StaleIsNotNewer(pending: seq<Message>, initial: int, n: nat, version: int)
    requires n <= |pending|
    ensures version <= Newest(pending, initial, n) <==>
            version <= initial || exists i ::
                0 <= i < n && pending[i].broadcast.Some?
                && version <= pending[i].broadcast.value
  {
    if n > 0 {
      StaleIsNotNewer(pending, initial, n - 1, version);
      assert pending[n - 1].broadcast.Some? && version <= pending[n - 1].broadcast.value ==>
          exists i :: 0 <= i < n && pending[i].broadcast.Some? && version <= pending[i].broadcast.value;
    }
  }

  /** One more message: it is kept unless it is a snapshot no newer than the newest so far. */
  lemma KeptStep(pending: seq<Message>, initial: int, n: nat)
    requires n < |pending|
    ensures var m, newest := pending[n], Newest(pending, initial, n);
            if m.broadcast.Some? && m.broadcast.value <= newest then
              Kept(pending, initial, n + 1) == Kept(pending, initial, n) && Newest(pending, initial, n + 1) == newest
            else
              && Kept(pending, initial, n + 1) == Kept(pending, initial, n) + [m]
              && Newest(pending, initial, n + 1) == if m.broadcast.Some? then m.broadcast.value else newest
  {
    if pending[n].broadcast.Some? { StaleIsNotNewer(pending, initial, n, pending[n].broadcast.value); }
  }

  /** Nothing is added, and a message that is not a broadcast snapshot is never dropped. */
  lemma {:induction false} KeptLength(pending: seq<Message>, initial: int, n: nat)
    requires n <= |pending|
    ensures |Kept(pending, initial, n)| <= n
    ensures (forall j :: 0 <= j < n ==> !Stale(pending, initial, j)) ==> Kept(pending, initial, n) == pending[..n]
  {
    if n > 0 {
      KeptLength(pending, initial, n - 1);
      assert pending[..n] == pending[..n - 1] + [pending[n - 1]];
    }
  }

  /** What a longer prefix keeps is at least as long. */
  lemma {:induction false} KeptGrows(pending: seq<Message>, initial: int, n: nat, k: nat)
    requires n <= k <= |pending|
    ensures |Kept(pending, initial, n)| <= |Kept(pending, initial, k)|
    decreases k
  {
    if n < k { KeptGrows(pending, initial, n, k - 1); }
  }

  // ----- broadcast versions

  /** Broadcast snapshots carry strictly rising versions, none above `bound`. */
  ghost predicate Rising(messages: seq<Message>, bound: int) {
    && (forall i, j :: 0 <= i < j < |messages| && messages[i].broadcast.Some? && messages[j].broadcast.Some? ==>
          messages[i].broadcast.value < messages[j].broadcast.value)
    && (forall i :: 0 <= i < |messages| && messages[i].broadcast.Some? ==> messages[i].broadcast.value <= bound)
  }

  lemma RisingStep(messages: seq<Message>, bound: int, m: Message)
    requires Rising(messages, bound) && (m.broadcast.Some? ==> m.broadcast.value > bound)
    ensures Rising(messages + [m], if m.broadcast.Some? then m.broadcast.value else bound)
  {
  }

  /** What a correct activation queues. */
  function Opening(welcome: string, initial: string, version: int, state: Option<string>): seq<Message> {
    [Message(Text(welcome), None), Message(Text(initial), Some(version))]
    + if state.Some? then [Message(Text(state.value), None)] else []
  }

  function Wanted(welcome: string, initial: string, version: int, state: Option<string>,
      pending: seq<Message>): seq<Message> {
    Opening(welcome, initial, version, state) + Kept(pending, version, |pending|)
  }

  /** Without a turn state every buffer the bound allows fits; with one, exactly those that keep
      one message fewer. */
  lemma ActivationFits(welcome: string, initial: string, pending: seq<Message>, version: int, state: Option<string>,
      capacity: int)
    requires capacity >= 3 && |pending| <= capacity - 2
    ensures state.None? ==> |Wanted(welcome, initial, version, state, pending)| <= capacity
    ensures state.Some? ==> (|Wanted(welcome, initial, version, state, pending)| <= capacity <==>
            |Kept(pending, version, |pending|)| <= capacity - 3)
  {
    KeptLength(pending, version, |pending|);
  }

  /** The bound on the buffer is one message too generous for a turn game. */
  lemma TurnActivationOverflows(welcome: string, initial: string, capacity: int, version: int, m: Message,
      state: string)
    requires capacity >= 3 && m.broadcast.None?
    ensures var pending := seq(capacity - 2, _ => m);
            |pending| <= capacity - 2 && |Wanted(welcome, initial, version, Some(state), pending)| == capacity + 1
  {
    var pending := seq(capacity - 2, _ => m);
    KeptLength(pending, version, |pending|);
  }

  // ----- what the connection has seen

  class ClientState {
    var epoch: int
    var sequence: int
    var phase: Option<Phase>
    var grant: Option<Grant>
    var frame: Option<Frame>
    var needSnapshot: bool
    var needBind: bool
    var lastBind: Option<int>

    // Every position seen so far.
    ghost var trail: seq<Position>

    constructor (epoch: int)
      ensures Valid() && Seen() == Position(epoch, 0) && phase.None? && grant.None? && frame.None?
      ensures needSnapshot && needBind && lastBind.None?
    {
      this.epoch, sequence, phase, grant, frame := epoch, 0, None, None, None;
      needSnapshot, needBind, lastBind := true, true, None;
      trail := [Position(epoch, 0)];
    }

    /** The newest position seen. */
    function Seen(): Position
      reads this
    {
      Position(epoch, sequence)
    }

    /** The positions seen never go back, and a held grant and a cached frame belong to exactly the
        newest of them. */
    ghost predicate Valid()
      reads this
    {
      && trail != [] && trail[|trail| - 1] == Seen() && NeverBack(trail)
      && (frame.Some? ==> At(frame.value) == Seen())
      && (grant.Some? ==> grant.value.epoch == epoch)
    }

    predicate IsNewer(published: Frame)
      reads this
    {
      published.epoch > epoch || (published.epoch == epoch && published.sequence > sequence)
    }

    /** The frame to show for a published one: itself when it is newer, the newest frame for a
        request of this epoch, otherwise none. */
    function Showing(published: Frame, targeted: bool): Option<Frame>
      reads this
    {
      if IsNewer(published) then Some(published)
      else if targeted && published.epoch == epoch then frame
      else None
    }

    method Observe(published: Frame, targeted: bool) returns (current: Option<Frame>)
      requires Valid()
      modifies this
      ensures Valid() && current == old(Showing(published, targeted))
      ensures trail == if current.Some? then old(trail) + [Seen()] else old(trail)
      ensures current.None? ==> unchanged(this)
      ensures current.Some? ==> frame == current && Seen() == At(current.value) && phase == Some(current.value.phase)
      ensures needSnapshot == old(needSnapshot)
      ensures if published.epoch > old(epoch) then grant.None? && needBind && lastBind.None?
              else grant == old(grant) && needBind == old(needBind) && lastBind == old(lastBind)
    {
      if published.epoch < epoch {
        return None;
      }
      var shown := published;
      if published.epoch == epoch && published.sequence <= sequence {
        // A request is answered with the newer frame already seen.
        if !targeted || frame.None? {
          return None;
        }
        shown := frame.value;
      }
      if shown.epoch > epoch {
        grant := None;
        sequence := 0;
        needBind := true;
        lastBind := None;
      }
      epoch, sequence, phase, frame := shown.epoch, shown.sequence, Some(shown.phase), Some(shown);
      Advance();
      return Some(shown);
    }

    /** A grant of a newer epoch forgets the frames of the older one. */
    method Take(granted: Grant) returns (taken: bool)
      requires Valid()
      modifies this
      ensures Valid() && trail == (if taken then old(trail) + [Seen()] else old(trail))
      ensures taken == (granted.epoch >= old(epoch)) && (!taken ==> unchanged(this))
      ensures taken ==> epoch == granted.epoch && grant == Some(granted) && !needBind
      ensures taken && granted.epoch > old(epoch) ==> sequence == 0 && frame.None? && needSnapshot
      ensures granted.epoch == old(epoch) ==>
              sequence == old(sequence) && frame == old(frame)
              && needSnapshot == old(needSnapshot)
      ensures phase == old(phase) && lastBind == old(lastBind)
    {
      if granted.epoch < epoch {
        return false;
      }
      if granted.epoch > epoch {
        sequence := 0;
        frame := None;
        needSnapshot := true;
      }
      epoch, grant, needBind := granted.epoch, Some(granted), false;
      Advance();
      return true;
    }

    /** A re-elected owner's newer epoch needs a fresh snapshot and bind. */
    method Elect(elected: int)
      requires Valid()
      modifies this
      ensures Valid() && trail == (if elected > old(epoch) then old(trail) + [Seen()] else old(trail))
      ensures elected <= old(epoch) ==> unchanged(this)
      ensures elected > old(epoch) ==>
              Seen() == Position(elected, 0) && grant.None? && frame.None?
              && phase == Some(Recovering)
                                       && needSnapshot && needBind && lastBind.None?
    {
      if elected > epoch {
        epoch, sequence := elected, 0;
        grant, frame := None, None;
        phase := Some(Recovering);
        needSnapshot, needBind := true, true;
        lastBind := None;
        Advance();
      }
    }

    /** The position seen joins the trail. */
    ghost method Advance()
      requires trail != [] && NeverBack(trail) && AtMost(trail[|trail| - 1], Seen())
      modifies this`trail
      ensures trail == old(trail) + [Seen()] && NeverBack(trail)
    {
      TrailGoesOn(trail, Seen());
      trail := trail + [Seen()];
    }

    /** What is still owed to the runtime: a snapshot request once, and a bind of a living player at
        most once a second. */
    method Owed(userID: string, now: int) returns (askSnapshot: bool, askBind: bool)
      requires Valid()
      modifies this`needSnapshot, this`lastBind
      ensures Valid() && askSnapshot == old(needSnapshot) && !needSnapshot
      ensures askBind <==> && needBind && phase == Some(Playing) && frame.Some? && userID in frame.value.alive
                           && (old(lastBind).None? || now - old(lastBind).value >= SECOND)
      ensures lastBind == if askBind then Some(now) else old(lastBind)
    {
      askSnapshot := needSnapshot;
      needSnapshot := false;
      askBind := && needBind && phase == Some(Playing) && (lastBind.None? || now - lastBind.value >= SECOND)
                 && frame.Some? && userID in frame.value.alive;
      if askBind {
        lastBind := Some(now);
      }
    }

    /** A resync asks for a fresh bind. */
    method Resync()
      requires Valid()
      modifies this`needBind, this`lastBind
      ensures Valid() && needBind && lastBind.None?
    {
      needBind := true;
      lastBind := None;
    }
  }

  // ----- the connection

  class Client {
    const roomID: string
    const userID: string
    const capacity: nat
    const v2: ClientState

    var active: bool
    var stopped: bool
    var outbound: seq<Message>
    var snapshots: seq<Message>
    var controlSignal: bool
    var sessionVersion: int
    var pending: seq<Message>
    var pendingSnapshot: Option<Message>

    // Everything ever put on the outbound queue, the position of the frame shown last, and
    // whether activation gave up.
    ghost var sent: seq<Message>
    ghost var shown: Option<Position>
    ghost var aborted: bool

    constructor (roomID: string, userID: string, capacity: nat, epoch: int)
      ensures Valid() && fresh(v2) && v2.Seen() == Position(epoch, 0)
      ensures !active && !aborted && !stopped && pending == [] && pendingSnapshot.None? && sent == []
      ensures this.roomID == roomID && this.userID == userID && this.capacity == capacity
    {
      this.roomID, this.userID, this.capacity := roomID, userID, capacity;
      v2 := new ClientState(epoch);
      active, stopped, outbound, snapshots, controlSignal, sessionVersion := false, false, [], [], false, 0;
      pending, pendingSnapshot, sent, shown, aborted := [], None, [], None, false;
    }

    ghost predicate Valid()
      reads v2, `active, `aborted, `outbound, `snapshots, `sent, `sessionVersion, `pending, `pendingSnapshot, `shown
    {
      v2.Valid() && Shown() && Bounded() && Buffered()
    }

    /** Nothing shown, or waiting to be shown, is past the position seen. */
    ghost predicate Shown()
      reads v2, `shown, `pendingSnapshot
    {
      && (shown.Some? ==> AtMost(shown.value, v2.Seen()))
      && (pendingSnapshot.Some? ==>
          pendingSnapshot.value.content.View? && AtMost(At(pendingSnapshot.value.content.frame), v2.Seen()))
    }

    /** No queue exceeds its capacity, and broadcast versions only rise. */
    ghost predicate Bounded()
      reads `outbound, `snapshots, `sent, `sessionVersion
    {
      && |outbound| <= capacity && |snapshots| <= 1
      && Rising(sent, sessionVersion)
    }

    /** Before activation messages wait in arrival order; afterwards nothing waits. */
    ghost predicate Buffered()
      reads `active, `aborted, `outbound, `snapshots, `sent, `pending, `pendingSnapshot, `shown
    {
      if active then
        pending == [] && pendingSnapshot.None?
      else
        && snapshots == [] && shown.None? && (|pending| <= capacity - 2 || pending == [])
        && (!aborted ==> outbound == [] && sent == [])
    }

    method SignalControl()
      modifies this`controlSignal
      ensures controlSignal
    {
      controlSignal := true;
    }

    /** A send that would block if the queue were full; nobody may rely on it blocking. */
    method PushOutbound(m: Message)
      requires |outbound| < capacity
      modifies this`outbound, this`sent
      ensures outbound == old(outbound) + [m] && sent == old(sent) + [m]
    {
      outbound := outbound + [m];
      sent := sent + [m];
    }

    /** The send to the one-slot snapshot queue: it must find the slot empty. */
    method PushSnapshot(m: Message)
      requires |snapshots| == 0 && m.content.View?
      modifies this`snapshots, this`shown
      ensures snapshots == [m] && shown == Some(At(m.content.frame))
    {
      snapshots := [m];
      shown := Some(At(m.content.frame));
    }

    /** The writer takes the oldest outbound message. */
    method TakeOutbound() returns (m: Message)
      requires Valid() && active && outbound != []
      modifies this`outbound
      ensures Valid() && [m] + outbound == old(outbound)
    {
      m := outbound[0];
      outbound := outbound[1..];
    }

    /** The writer takes the coalesced frame. */
    method TakeSnapshot() returns (m: Message)
      requires Valid() && active && snapshots != []
      modifies this`snapshots
      ensures Valid() && snapshots == [] && [m] == old(snapshots)
    {
      m := snapshots[0];
      snapshots := [];
    }

    /** Queue a message, or buffer it before activation. A session snapshot that is not newer is
        dropped; a full queue or buffer stops the connection. */
    method EnqueueV2(m: Message) returns (ok: bool)
      requires Valid()
      modifies this`pending, this`outbound, this`sent, this`sessionVersion, this`stopped
      ensures Valid()
      ensures stopped == (old(stopped) || !ok)
      ensures !active ==>
                && ok == (|old(pending)| < capacity - 2)
                && pending == (if ok then old(pending) + [m] else old(pending))
                && outbound == old(outbound) && sent == old(sent) && sessionVersion == old(sessionVersion)
      ensures active ==>
                && pending == old(pending)
                && var stale := m.broadcast.Some? && m.broadcast.value <= old(sessionVersion);
                && ok == (stale || |old(outbound)| < capacity)
                && outbound == (if stale || !ok then old(outbound) else old(outbound) + [m])
                && sent == (if stale || !ok then old(sent) else old(sent) + [m])
                && sessionVersion == (if stale || m.broadcast.None? then old(sessionVersion) else m.broadcast.value)
    {
      if !active {
        if |pending| >= capacity - 2 {
          stopped := true;
          return false;
        }
        pending := pending + [m];
        return true;
      }
      if m.broadcast.Some? && m.broadcast.value <= sessionVersion {
        return true;
      }
      ok := TrySend(m);
      stopped := stopped || !ok;
    }

    /** A send that gives up instead of blocking. */
    method TrySend(m: Message) returns (ok: bool)
      requires Bounded() && (m.broadcast.Some? ==> m.broadcast.value > sessionVersion)
      modifies this`outbound, this`sent, this`sessionVersion
      ensures Bounded() && ok == (|old(outbound)| < capacity)
      ensures outbound == if ok then old(outbound) + [m] else old(outbound)
      ensures sent == if ok then old(sent) + [m] else old(sent)
      ensures sessionVersion == if m.broadcast.Some? then m.broadcast.value else old(sessionVersion)
    {
      RisingStep(sent, sessionVersion, m);
      if m.broadcast.Some? {
        sessionVersion := m.broadcast.value;
      }
      if |outbound| < capacity {
        PushOutbound(m);
        return true;
      }
      return false;
    }

    /** Welcome, the initial snapshot, a turn game's state, then what was buffered. */
    method ActivateV2(welcome: string, initial: string, version: int, state: Option<string>) returns (ok: bool)
      requires Valid() && !active && !aborted
      modifies this`active, this`aborted, this`outbound, this`snapshots, this`controlSignal, this`sessionVersion
      modifies this`pending, this`pendingSnapshot, this`sent, this`shown
      ensures Valid()
      ensures ok <==> capacity >= 3 && |Wanted(welcome, initial, version, state, old(pending))| <= capacity
      ensures active == ok && aborted == (!ok && capacity >= 3) && (ok ==> controlSignal)
      ensures ok ==> sent == outbound == Wanted(welcome, initial, version, state, old(pending))
      ensures ok ==> sessionVersion == Newest(old(pending), version, |old(pending)|)
      ensures ok ==> snapshots == if old(pendingSnapshot).Some? then [old(pendingSnapshot).value] else []
      ensures !ok ==> pending == old(pending) && pendingSnapshot == old(pendingSnapshot) && snapshots == []
    {
      if capacity < 3 {
        return false;
      }
      aborted := true;
      PushOpening(welcome, initial, version, state);
      var fits := FlushPending(version);
      if !fits {
        return false;
      }
      aborted := false;
      GoLive();
      return true;
    }

    /** From here on nothing is buffered. */
    method GoLive()
      requires v2.Valid() && Shown() && Bounded() && snapshots == [] && shown.None?
      modifies this`pending, this`active, this`snapshots, this`shown, this`pendingSnapshot, this`controlSignal
      ensures Valid() && active && controlSignal
      ensures snapshots == if old(pendingSnapshot).Some? then [old(pendingSnapshot).value] else []
    {
      pending := [];
      active := true;
      if pendingSnapshot.Some? {
        PushSnapshot(pendingSnapshot.value);
        pendingSnapshot := None;
      }
      SignalControl();
    }

    method PushOpening(welcome: string, initial: string, version: int, state: Option<string>)
      requires outbound == sent == snapshots == [] && capacity >= 3
      modifies this`outbound, this`sent, this`sessionVersion
      ensures outbound == sent == Opening(welcome, initial, version, state)
      ensures sessionVersion == version && Bounded()
    {
      PushOutbound(Message(Text(welcome), None));
      PushOutbound(Message(Text(initial), Some(version)));
      if state.Some? {
        PushOutbound(Message(Text(state.value), None));
      }
      sessionVersion := version;
    }

    /** The loop over the buffered messages: it stops at the first that does not fit. */
    method FlushPending(version: int) returns (fits: bool)
      requires Bounded() && outbound == sent && sessionVersion == version
      modifies this`outbound, this`sent, this`sessionVersion
      ensures Bounded() && (fits <==> |old(sent)| + |Kept(pending, version, |pending|)| <= capacity)
      ensures fits ==>
              outbound == sent == old(sent) + Kept(pending, version, |pending|)
              && sessionVersion == Newest(pending, version, |pending|)
    {
      for index := 0 to |pending|
        invariant Bounded() && sessionVersion == Newest(pending, version, index)
        invariant outbound == sent == old(sent) + Kept(pending, version, index)
      {
        var m := pending[index];
        KeptStep(pending, version, index);
        if m.broadcast.Some? && m.broadcast.value <= sessionVersion {
          continue;
        }
        var queued := TrySend(m);
        if !queued {
          KeptGrows(pending, version, index + 1, |pending|);
          return false;
        }
      }
      return true;
    }

    /** A control grant is taken unless its epoch is older, and then announced. */
    method HandleGrant(granted: Grant, notice: string) returns (taken: bool)
      requires Valid()
      modifies v2, this`pending, this`outbound, this`sent, this`sessionVersion, this`stopped
      ensures Valid() && AtMost(old(v2.Seen()), v2.Seen())
      ensures taken == (granted.epoch >= old(v2.epoch))
      ensures !taken ==>
              unchanged(v2) && outbound == old(outbound) && pending == old(pending)
              && stopped == old(stopped)
      ensures taken ==> v2.epoch == granted.epoch && v2.grant == Some(granted) && !v2.needBind
      ensures granted.epoch > old(v2.epoch) ==> v2.sequence == 0 && v2.frame.None? && v2.needSnapshot
      ensures granted.epoch <= old(v2.epoch) ==>
                v2.sequence == old(v2.sequence) && v2.frame == old(v2.frame) && v2.needSnapshot == old(v2.needSnapshot)
      ensures v2.phase == old(v2.phase) && v2.lastBind == old(v2.lastBind)
      ensures taken && active ==>
                if |old(outbound)| < capacity then outbound == old(outbound) + [Message(Text(notice), None)]
                    && stopped == old(stopped)
                else outbound == old(outbound) && stopped
      ensures taken && !active ==>
                if |old(pending)| < capacity - 2 then pending == old(pending) + [Message(Text(notice), None)]
                    && stopped == old(stopped)
                else pending == old(pending) && stopped
    {
      taken := v2.Take(granted);
      if taken {
        var ok := EnqueueV2(Message(Text(notice), None));
      }
    }

    /** A published frame. `renders` is the verdict of the game's view. */
    method EnqueueGameFrame(published: Frame, messageID: string, targeted: bool, renders: bool)
      requires Valid()
      modifies v2, this`pendingSnapshot, this`snapshots, this`outbound, this`sent, this`sessionVersion, this`shown,
          this`stopped, this`controlSignal
      ensures Valid() && AtMost(old(v2.Seen()), v2.Seen())
      ensures old(shown).Some? ==> shown.Some? && AtMost(old(shown).value, shown.value)
      ensures var current := old(v2.Showing(published, targeted));
              if published.sessionID != roomID || current.None? then
                unchanged(v2) && QueuesKept()
              else
                && v2.frame == current && v2.Seen() == At(current.value) && v2.phase == Some(current.value.phase)
                && var view := View(current.value, v2.grant, if targeted then messageID else "");
                   if renders then Queued(Message(view, None), current.value, targeted) else QueuesKept()
      ensures published.sessionID == roomID && old(v2.Showing(published, targeted)).Some? && !stopped ==> controlSignal
    {
      if published.sessionID != roomID {
        return;
      }
      var current := v2.Observe(published, targeted);
      if current.None? {
        return;
      }
      Project(current.value, messageID, targeted, renders);
    }

    /** Renders the frame with the current grant and queues the view. */
    method Project(current: Frame, messageID: string, targeted: bool, renders: bool)
      requires Valid() && v2.Seen() == At(current)
      modifies this`pendingSnapshot, this`snapshots, this`outbound, this`sent, this`sessionVersion, this`shown,
          this`stopped, this`controlSignal
      ensures Valid() && (old(shown).Some? ==> shown.Some? && AtMost(old(shown).value, shown.value))
      ensures var view := View(current, v2.grant, if targeted then messageID else "");
              if renders then Queued(Message(view, None), current, targeted) else QueuesKept()
      ensures !stopped ==> controlSignal
    {
      if renders {
        var ok := Show(current, targeted, Message(View(current, v2.grant, if targeted then messageID else ""), None));
        if !ok {
          return;
        }
      }
      SignalControl();
    }

    method Show(current: Frame, targeted: bool, view: Message) returns (ok: bool)
      requires Valid() && view.broadcast.None? && view.content.View? && view.content.frame == current
               && v2.Seen() == At(current)
      modifies this`pendingSnapshot, this`snapshots, this`outbound, this`sent, this`sessionVersion, this`shown,
          this`stopped
      ensures Valid() && Queued(view, current, targeted) && (!ok ==> stopped)
      ensures old(shown).Some? ==> shown.Some? && AtMost(old(shown).value, shown.value)
    {
      if !active {
        pendingSnapshot := Some(view);
      } else if targeted || current.phase.Ended? || current.phase.Cancelled? {
        // Terminal frames are control messages: they stay ordered before the result.
        snapshots := [];
        ok := TrySend(view);
        if !ok {
          stopped := true;
          return;
        }
        shown := Some(At(current));
      } else {
        snapshots := [];
        PushSnapshot(view);
      }
      return true;
    }

    /** Where a rendered view of `current` goes: it waits for activation, it is sent as a control message
        when it answers a request or ends the match, otherwise it replaces the waiting frame. */
    twostate predicate Queued(view: Message, current: Frame, targeted: bool)
      reads `active, `outbound, `snapshots, `pendingSnapshot, `stopped
    {
      if !active then
        outbound == old(outbound) && snapshots == old(snapshots) && pendingSnapshot == Some(view)
            && stopped == old(stopped)
      else if targeted || current.phase.Ended? || current.phase.Cancelled? then
        && snapshots == []
        && (if |old(outbound)| < capacity then outbound == old(outbound) + [view] && stopped == old(stopped)
            else outbound == old(outbound) && stopped)
      else
        outbound == old(outbound) && snapshots == [view] && stopped == old(stopped)
    }

    twostate predicate QueuesKept()
      reads `outbound, `snapshots, `pendingSnapshot, `stopped
    {
      outbound == old(outbound) && snapshots == old(snapshots) && pendingSnapshot == old(pendingSnapshot)
          && stopped == old(stopped)
    }

    /** A presence refresh that re-elected an owner learns its epoch. */
    method RefreshPresence(touched: bool, ownerless: bool, elected: Option<int>) returns (continues: bool)
      requires Valid()
      modifies v2, this`stopped, this`controlSignal
      ensures Valid() && AtMost(old(v2.Seen()), v2.Seen())
      ensures continues == touched && stopped == (old(stopped) || !touched) && (touched ==> controlSignal)
      ensures if touched && ownerless && elected.Some? && elected.value > old(v2.epoch) then
                v2.Seen() == Position(elected.value, 0) && v2.grant.None? && v2.frame.None? && v2.needSnapshot
                    && v2.needBind
              else
                unchanged(v2)
    {
      if !touched {
        stopped := true;
        return false;
      }
      if ownerless && elected.Some? {
        v2.Elect(elected.value);
      }
      SignalControl();
      return true;
    }
  }
}
