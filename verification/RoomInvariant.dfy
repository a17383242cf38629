/** What every reachable state of the protocol satisfies about messages, activations and the
    history of generation claims: the inductive core of durable fencing. */
module RoomInvariant {
  import opened Wrappers
  import opened GameDomain
  import opened RoomLease
  import opened RuntimeOwner
  import opened RuntimeCheckpoint
  import opened GameMatch
  import opened RoomProtocol

  // ----- facts that stay true once they are true

  /** Message `value.lease` acquired the lease `value` for an activation that had read `expected`. */
  ghost predicate Acquired(w: World, value: LeaseValue, expected: int) {
    && value.lease < |w.net|
    && w.net[value.lease].request == Acquire(value.instance, expected)
    && w.net[value.lease].reply == Some(Granted(value.token))
  }

  ghost predicate EverAcquired(w: World, value: LeaseValue) {
    && value.lease < |w.net|
    && w.net[value.lease].request.Acquire?
    && w.net[value.lease].request.instance == value.instance
    && w.net[value.lease].reply == Some(Granted(value.token))
  }

  /** Generation `generation` was claimed under lease `lease`. */
  ghost predicate ClaimedUnder(w: World, generation: int, lease: LeaseID) {
    1 <= generation <= |w.servers.claims| && w.servers.claims[generation - 1].lease == lease
  }

  ghost predicate OwnerRecorded(w: World, doc: OwnerDoc) {
    && 1 <= doc.generation <= |w.servers.claims|
    && w.servers.claims[doc.generation - 1] == OwnerRef(doc.generation, doc.instance, doc.lease)
  }

  // ----- messages

  ghost predicate RequestOk(w: World, m: Message)
    requires m.from < |w.procs|
  {
    match m.request
    case Acquire(instance, expected) => w.procs[m.from].instance == instance && 0 <= expected <= |w.servers.claims|
    case Claim(expected, instance, lease) =>
      && 0 <= expected <= |w.servers.claims|
      && lease < |w.net| && w.net[lease].request == Acquire(instance, expected)
      && w.net[lease].reply.Some? && w.net[lease].reply.value.Granted?
    case SaveCheckpoint(value, doc) =>
      && ClaimedUnder(w, doc.epoch, value.lease)
      && EverAcquired(w, value) && w.net[value.lease].from == m.from
    case Publish(value, event) => ClaimedUnder(w, event.generation, value.lease)
    case Complete(c) => ValidCompletion(c) && c.owner.Some?
    case _ => true
  }

  ghost predicate ReplyOk(w: World, m: Message) {
    m.reply.Some? ==>
      match m.reply.value
      case OwnerRead(doc) => 0 <= Generation(doc) <= |w.servers.claims| && (doc.Some? ==> OwnerRecorded(w, doc.value))
      case HolderRead(holder) => holder.Some? ==> EverAcquired(w, holder.value)
      case Claimed(doc) =>
        && OwnerRecorded(w, doc)
        && m.request == Claim(doc.generation - 1, doc.instance, doc.lease)
      case _ => true
  }

  ghost predicate MessageOk(w: World, id: nat)
    requires id < |w.net|
  {
    w.net[id].from < |w.procs| && w.net[id].sentAt <= w.now && RequestOk(w, w.net[id]) && ReplyOk(w, w.net[id])
  }

  // ----- activations

  predicate BeforeLease(at: Point) {
    at.ReadGeneration? || at.AcquireFirst? || at.ReadHolder? || at.FreeOwn? || at.AcquireAgain?
    || at.ReadHolderAgain? || at.Observe? || at.ObserveLease? || at.Observed?
  }

  predicate BeforeClaim(at: Point) {
    at.LoadSession? || at.Claiming?
  }

  predicate Winding(at: Point) {
    at.Releasing? || at.Ended?
  }

  ghost predicate CallOk(w: World, p: nat, q: Proc) {
    q.call.Some? ==>
      && q.call.value < |w.net|
      && RequestAt(q) == Some(w.net[q.call.value].request)
      && w.net[q.call.value].from == p
      && w.net[q.call.value].sentAt == q.callAt
  }

  ghost predicate LeaseOk(w: World, p: nat, q: Proc) {
    && 0 <= q.expected <= |w.servers.claims|
    && (BeforeLease(q.at) ==> q.lease.None?)
    && (!BeforeLease(q.at) && !q.at.Ended? ==> q.lease.Some?)
    && (q.lease.Some? ==>
          && q.lease.value.instance == q.instance
          && Acquired(w, q.lease.value, q.expected)
          && w.net[q.lease.value.lease].from == p)
    && (q.at.FreeOwn? ==> q.at.own.instance == q.instance && EverAcquired(w, q.at.own))
    && (Winding(q.at) || q.at.Observed? ==> q.stopped)
    && (q.stopped ==> q.renewal.None? && q.saving.None?)
  }

  ghost predicate OwnerOk(w: World, p: nat, q: Proc) {
    && (q.owner.Some? ==>
          && q.lease.Some?
          && OwnerRecorded(w, q.owner.value)
          && q.owner.value.generation == q.expected + 1
          && q.owner.value.instance == q.instance
          && q.owner.value.lease == q.lease.value.lease)
    && (!BeforeLease(q.at) && !BeforeClaim(q.at) && !Winding(q.at) ==> q.owner.Some?)
    && (BeforeClaim(q.at) ==> q.owner.None?)
    && (q.owner.None? ==> q.runtime.NoRuntime?)
    && (q.deadline.Some? ==> q.owner.Some?)
    && (q.at.ObserveLease? && q.at.seen.Some? ==> OwnerRecorded(w, q.at.seen.value))
    && (q.at.Commit? ==> ValidCompletion(q.at.completion) && q.at.completion.owner.Some?)
  }

  /** `q` may be the state of activation `p`. */
  ghost predicate ProcOk(w: World, p: nat, q: Proc) {
    CallOk(w, p, q) && LeaseOk(w, p, q) && OwnerOk(w, p, q)
  }

  ghost predicate Shape(w: World) {
    && (forall id :: 0 <= id < |w.net| ==> MessageOk(w, id))
    && (forall p :: 0 <= p < |w.procs| ==> ProcOk(w, p, w.procs[p]))
  }

  // ----- the durable record and the lease key

  ghost predicate History(w: World) {
    && |w.servers.claims| == Generation(w.servers.store.owner)
    && (w.servers.store.owner.Some? ==> OwnerRecorded(w, w.servers.store.owner.value))
    && (forall k :: 0 <= k < |w.servers.claims| ==> ClaimBacked(w, k))
    && (w.servers.lease.key.Some? ==> EverAcquired(w, w.servers.lease.key.value.value))
  }

  /** Claim number `k` was made by an activation that had read generation `k` before it acquired its lease. */
  ghost predicate ClaimBacked(w: World, k: nat)
    requires k < |w.servers.claims|
  {
    var c := w.servers.claims[k];
    && c.generation == k + 1
    && c.lease < |w.net|
    && w.net[c.lease].request == Acquire(c.instance, k)
    && w.net[c.lease].reply.Some? && w.net[c.lease].reply.value.Granted?
  }

  ghost predicate Fenced(w: World) {
    w.servers.lease.key.Some? ==>
      var holder := w.servers.lease.key.value.value.lease;
      && (forall k :: 0 <= k < |w.servers.claims| && w.servers.claims[k].lease == holder ==>
          k == |w.servers.claims| - 1)
      && (|w.servers.claims| > 0 && w.servers.claims[|w.servers.claims| - 1].lease == holder ==> NoRival(w, holder))
  }

  /** Every other lease ever granted belongs to an activation whose generation is already out of date. */
  ghost predicate NoRival(w: World, holder: LeaseID) {
    forall id :: 0 <= id < |w.net| && id != holder && w.net[id].request.Acquire? && w.net[id].reply.Some?
        && w.net[id].reply.value.Granted?
      ==> w.net[id].request.expected < |w.servers.claims|
  }

  ghost predicate Inv(w: World) {
    Shape(w) && History(w) && Fenced(w)
  }

  // ----- a step keeps what was recorded

  ghost predicate Extends(w: World, w': World) {
    && w.now <= w'.now
    && |w.net| <= |w'.net| && |w.procs| <= |w'.procs|
    && (forall id :: 0 <= id < |w.net| ==> KeepsMessage(w.net[id], w'.net[id]))
    && (forall p :: 0 <= p < |w.procs| ==> w'.procs[p].instance == w.procs[p].instance)
    && w.servers.claims <= w'.servers.claims
  }

  predicate KeepsMessage(m: Message, m': Message) {
    m'.from == m.from && m'.request == m.request && m'.sentAt == m.sentAt && (m.reply.Some? ==> m'.reply == m.reply)
  }

  lemma StepExtends(w: World, a: Action)
    requires Enabled(w, a)
    ensures Extends(w, Apply(w, a))
  {
    match a
    case Serve(id) => ServeExtends(w, id);
    case Call(p) => CallExtends(w, p);
    case RenewCall(_) => SideExtends(w, a);
    case SaveCall(_, _, _) => SideExtends(w, a);
    case PublishCall(_, _) => SideExtends(w, a);
    case Return(p) => ReturnExtends(w, p);
    case Fail(p) => InstanceKept(w, a, p);
    case Choose(p, _) => InstanceKept(w, a, p);
    case RenewReturn(_) => SideExtends(w, a);
    case SaveReturn(_) => SideExtends(w, a);
    case _ =>
  }

  lemma CallExtends(w: World, p: nat)
    requires Enabled(w, Call(p))
    ensures Extends(w, Apply(w, Call(p)))
  {
  }

  lemma ReturnExtends(w: World, p: nat)
    requires Enabled(w, Return(p))
    ensures Extends(w, Apply(w, Return(p)))
  {
    InstanceKept(w, Return(p), p);
  }

  lemma SideExtends(w: World, a: Action)
    requires Enabled(w, a)
    requires a.RenewCall? || a.SaveCall? || a.PublishCall? || a.RenewReturn? || a.SaveReturn?
    ensures Extends(w, Apply(w, a))
  {
  }

  lemma ServeExtends(w: World, id: nat)
    requires Enabled(w, Serve(id))
    ensures Extends(w, Apply(w, Serve(id)))
  {
    ClaimsOnlyGrow(w.servers, w.now, w.ttl, id, w.net[id].request);
  }

  lemma ClaimsOnlyGrow(s: Servers, now: int, ttl: int, id: nat, request: Request)
    ensures s.claims <= Handle(s, now, ttl, id, request).0.claims
  {
  }

  lemma InstanceKept(w: World, a: Action, p: nat)
    requires Enabled(w, a) && p < |w.procs|
    ensures p < |Apply(w, a).procs| && Apply(w, a).procs[p].instance == w.procs[p].instance
  {
  }

  lemma RequestKept(w: World, w': World, m: Message)
    requires Extends(w, w') && m.from < |w.procs| && RequestOk(w, m)
    ensures RequestOk(w', m)
  {
    match m.request
    case Claim(expected, instance, lease) => assert KeepsMessage(w.net[lease], w'.net[lease]);
    case SaveCheckpoint(value, doc) => assert KeepsMessage(w.net[value.lease], w'.net[value.lease]);
    case _ =>
  }

  lemma ReplyKept(w: World, w': World, m: Message)
    requires Extends(w, w') && ReplyOk(w, m)
    ensures ReplyOk(w', m)
  {
    if m.reply.Some? && m.reply.value.HolderRead? && m.reply.value.holder.Some? {
      var v := m.reply.value.holder.value;
      assert KeepsMessage(w.net[v.lease], w'.net[v.lease]);
    }
  }

  lemma ProcKept(w: World, w': World, p: nat, q: Proc)
    requires Extends(w, w') && ProcOk(w, p, q)
    ensures ProcOk(w', p, q)
  {
    if q.call.Some? { assert KeepsMessage(w.net[q.call.value], w'.net[q.call.value]); }
    if q.lease.Some? { assert KeepsMessage(w.net[q.lease.value.lease], w'.net[q.lease.value.lease]); }
    if q.at.FreeOwn? { assert KeepsMessage(w.net[q.at.own.lease], w'.net[q.at.own.lease]); }
  }

  // ----- each kind of step, for messages

  /** What a served message answers is true of the servers. */
  lemma ServedOk(w: World, id: nat)
    requires Inv(w) && Enabled(w, Serve(id))
    ensures ReplyOk(Apply(w, Serve(id)), Apply(w, Serve(id)).net[id])
  {
    StepExtends(w, Serve(id));
    var w' := Apply(w, Serve(id));
    assert MessageOk(w, id);
    match w.net[id].request
    case CurrentHolder =>
      if Present(w.servers.lease, w.now) {
        var v := w.servers.lease.key.value.value;
        assert KeepsMessage(w.net[v.lease], w'.net[v.lease]);
      }
    case _ =>
  }

  /** The call an activation makes is one its own facts justify. */
  lemma CallRequestOk(w: World, p: nat)
    requires Inv(w) && Enabled(w, Call(p))
    ensures RequestOk(w, Message(p, RequestAt(w.procs[p]).value, w.now, None))
  {
    assert ProcOk(w, p, w.procs[p]);
  }

  lemma MessagesKept(w: World, a: Action)
    requires Inv(w) && Enabled(w, a)
    ensures var w' := Apply(w, a); forall id :: 0 <= id < |w'.net| ==> MessageOk(w', id)
  {
    var w' := Apply(w, a);
    StepExtends(w, a);
    forall id | 0 <= id < |w'.net|
      ensures MessageOk(w', id)
    {
      if id < |w.net| {
        assert MessageOk(w, id) && KeepsMessage(w.net[id], w'.net[id]);
        RequestKept(w, w', w.net[id]);
        ReplyKept(w, w', w.net[id]);
        if a == Serve(id) {
          ServedOk(w, id);
          assert RequestOk(w', w'.net[id]);
        } else {
          assert w'.net[id] == w.net[id];
        }
      } else {
        NewMessageOk(w, a);
      }
    }
  }

  lemma NewMessageOk(w: World, a: Action)
    requires Inv(w) && Enabled(w, a) && |Apply(w, a).net| > |w.net|
    ensures |Apply(w, a).net| == |w.net| + 1 && MessageOk(Apply(w, a), |w.net|)
  {
    var w' := Apply(w, a);
    StepExtends(w, a);
    NewRequestOk(w, a);
    RequestKept(w, w', w'.net[|w.net|]);
  }

  /** What a step sends is justified by the facts of its sender. */
  lemma NewRequestOk(w: World, a: Action)
    requires Inv(w) && Enabled(w, a) && |Apply(w, a).net| > |w.net|
    ensures var w' := Apply(w, a);
            && |w'.net| == |w.net| + 1 && w'.net[|w.net|].from < |w.procs| && RequestOk(w, w'.net[|w.net|])
            && w'.net[|w.net|].reply.None? && w'.net[|w.net|].sentAt == w.now
  {
    assert ProcOk(w, a.p, w.procs[a.p]);
    if a.Call? { CallRequestOk(w, a.p); }
  }

  // ----- each kind of step, for activations

  lemma StoppingOk(w: World, p: nat, q: Proc)
    requires ProcOk(w, p, q)
    ensures ProcOk(w, p, Stopping(q)) && ProcOk(w, p, Ending(q))
  {
  }

  /** What a move may be, given the point it is made from. */
  ghost predicate MoveOk(w: World, p: nat, q: Proc, move: Move) {
    match move
    case Goto(at) =>
      || (BeforeLease(q.at) && BeforeLease(at) && !at.Observed? && !at.ObserveLease?
          && (at.FreeOwn? ==> at.own.instance == q.instance && EverAcquired(w, at.own)))
      || (at.ObserveLease? && BeforeLease(q.at) && (at.seen.Some? ==> OwnerRecorded(w, at.seen.value)))
      || (at.Claiming? && q.at.LoadSession?)
      || (RoomPoint(q.at) && (at.Open? || at.RestoreInstall? || at.ReadBack? || at.Resolve?
          || (at.Releasing? && q.stopped)))
    case Learn(generation) => BeforeLease(q.at) && 0 <= generation <= |w.servers.claims|
    case Grant(value) =>
      BeforeLease(q.at) && value.instance == q.instance && Acquired(w, value, q.expected)
          && w.net[value.lease].from == p
    case Own(claim) =>
      && q.at.Claiming? && q.lease.Some? && OwnerRecorded(w, claim) && claim.generation == q.expected + 1
          && claim.instance == q.instance
      && claim.lease == q.lease.value.lease
    case Date(_) => q.at.FirstRenew?
    case Watch(_, _) => BeforeLease(q.at)
    case Halt => true
    case Exit => true
    case _ => RoomPoint(q.at)
  }

  predicate RoomPoint(at: Point) {
    !BeforeLease(at) && !BeforeClaim(at) && !Winding(at) && !at.FirstRenew?
  }

  lemma AnswerOk(w: World, p: nat, q: Proc, m: Message)
    requires ProcOk(w, p, q) && q.call.Some? && w.net[q.call.value] == m && ReplyOk(w, m) && m.reply.Some?
    ensures MoveOk(w, p, q, Answer(q, q.call.value, m.reply.value, w.now, w.ttl))
  {
  }

  lemma AdvanceOk(w: World, p: nat, q: Proc, move: Move)
    requires ProcOk(w, p, q) && MoveOk(w, p, q, move)
    ensures ProcOk(w, p, Advance(q, move))
  {
    StoppingOk(w, p, q);
    AdvanceLease(w, p, q, move);
    AdvanceOwner(w, p, q, move);
  }

  lemma AdvanceLease(w: World, p: nat, q: Proc, move: Move)
    requires ProcOk(w, p, q) && MoveOk(w, p, q, move)
    ensures CallOk(w, p, Advance(q, move)) && LeaseOk(w, p, Advance(q, move))
  {
  }

  lemma AdvanceOwner(w: World, p: nat, q: Proc, move: Move)
    requires ProcOk(w, p, q) && MoveOk(w, p, q, move)
    ensures OwnerOk(w, p, Advance(q, move))
  {
  }

  lemma ReturnOk(w: World, p: nat)
    requires Inv(w) && Enabled(w, Return(p))
    ensures ProcOk(w, p, Apply(w, Return(p)).procs[p])
  {
    var q := w.procs[p];
    var m := w.net[q.call.value];
    assert ProcOk(w, p, q) && MessageOk(w, q.call.value);
    AnswerOk(w, p, q, m);
    AdvanceOk(w, p, q, Answer(q, q.call.value, m.reply.value, w.now, w.ttl));
  }

  lemma FailOk(w: World, p: nat, q: Proc)
    requires ProcOk(w, p, q)
    ensures ProcOk(w, p, OnFailure(q))
  {
    if GoesOn(q.at) {
      FailGoesOn(w, p, q);
    } else {
      StoppingOk(w, p, q);
      assert OnFailure(q) == Stopping(q) || OnFailure(q) == Ending(q);
    }
  }

  /** Where a failed call does not end the room. */
  predicate GoesOn(at: Point) {
    at.Commit? || at.TriggerSave? || at.Resolve? || at.ReadBack? || at.DropCheckpoint?
  }

  lemma FailGoesOn(w: World, p: nat, q: Proc)
    requires ProcOk(w, p, q) && GoesOn(q.at)
    ensures ProcOk(w, p, OnFailure(q))
  {
    FailLease(w, p, q);
    FailOwner(w, p, q);
  }

  lemma FailLease(w: World, p: nat, q: Proc)
    requires ProcOk(w, p, q) && GoesOn(q.at)
    ensures CallOk(w, p, OnFailure(q)) && LeaseOk(w, p, OnFailure(q))
  {
    FailCall(w, p, q);
    FailLeaseOnly(w, p, q);
  }

  lemma FailCall(w: World, p: nat, q: Proc)
    requires CallOk(w, p, q) && GoesOn(q.at)
    ensures CallOk(w, p, OnFailure(q))
  {
  }

  lemma FailLeaseOnly(w: World, p: nat, q: Proc)
    requires LeaseOk(w, p, q) && GoesOn(q.at)
    ensures LeaseOk(w, p, OnFailure(q))
  {
  }

  lemma FailOwner(w: World, p: nat, q: Proc)
    requires ProcOk(w, p, q) && GoesOn(q.at)
    ensures OwnerOk(w, p, OnFailure(q))
  {
  }

  lemma ChooseOk(w: World, p: nat, q: Proc, choice: Choice)
    requires ProcOk(w, p, q) && MayChoose(q, choice, w.now)
    ensures ProcOk(w, p, Choosing(q, choice))
  {
    ChooseLease(w, p, q, choice);
    ChooseOwner(w, p, q, choice);
  }

  lemma ChooseLease(w: World, p: nat, q: Proc, choice: Choice)
    requires ProcOk(w, p, q) && MayChoose(q, choice, w.now)
    ensures CallOk(w, p, Choosing(q, choice)) && LeaseOk(w, p, Choosing(q, choice))
  {
  }

  lemma ChooseOwner(w: World, p: nat, q: Proc, choice: Choice)
    requires ProcOk(w, p, q) && MayChoose(q, choice, w.now)
    ensures OwnerOk(w, p, Choosing(q, choice))
  {
  }

  /** Renewals and checkpoint saves change nothing the facts mention, or stop the room. */
  lemma RenewSaveOk(w: World, p: nat, q: Proc, renewal: Option<Renewal>, saving: Option<Saving>, protected: int,
      critical: string, wipe: nat)
    requires ProcOk(w, p, q) && (q.stopped ==> renewal.None? && saving.None?)
    ensures ProcOk(w, p, q.(renewal := renewal, saving := saving, protected := protected, critical := critical,
            wipe := wipe))
    ensures q.deadline.Some? ==> forall d :: ProcOk(w, p, q.(renewal := renewal, deadline := Some(d)))
  {
    assert RequestAt(q.(renewal := renewal, saving := saving, protected := protected, critical := critical,
        wipe := wipe)) == RequestAt(q);
    forall d | q.deadline.Some?
      ensures ProcOk(w, p, q.(renewal := renewal, deadline := Some(d)))
    {
      assert RequestAt(q.(renewal := renewal, deadline := Some(d))) == RequestAt(q);
    }
  }

  /** The activation that a step changes, seen in the state before it. */
  lemma SubjectOk(w: World, a: Action, p: nat)
    requires Inv(w) && Enabled(w, a) && Subject(a) == Some(p) && p < |w.procs|
    requires !a.Call?
    ensures ProcOk(w, p, Apply(w, a).procs[p])
  {
    var q := w.procs[p];
    assert ProcOk(w, p, q);
    match a
    case Return(_) => ReturnOk(w, p);
    case Fail(_) => FailOk(w, p, q);
    case Choose(_, choice) => ChooseOk(w, p, q, choice);
    case Stop(_) => StoppingOk(w, p, q);
    case Crash(_) => StoppingOk(w, p, q);
    case _ => RoomSubjectOk(w, a, p, q);
  }

  lemma RoomSubjectOk(w: World, a: Action, p: nat, q: Proc)
    requires ProcOk(w, p, q) && p < |w.procs| && q == w.procs[p]
    requires Enabled(w, a)
    requires a == RenewCall(p) || a == RenewReturn(p) || a == SaveReturn(p) || a == SaveFail(p)
             || (a.SaveCall? && a.p == p)
    ensures ProcOk(w, p, Apply(w, a).procs[p])
  {
    var q' := Apply(w, a).procs[p];
    StoppingOk(w, p, q);
    RenewSaveOk(w, p, q, q'.renewal, q'.saving, q'.protected, q'.critical, q'.wipe);
  }

  lemma CallProcOk(w: World, p: nat)
    requires Inv(w) && Enabled(w, Call(p))
    ensures ProcOk(Apply(w, Call(p)), p, Apply(w, Call(p)).procs[p])
  {
    var w' := Apply(w, Call(p));
    StepExtends(w, Call(p));
    ProcKept(w, w', p, w.procs[p]);
  }

  /** The activation a step belongs to, if any. */
  function Subject(a: Action): Option<nat> {
    match a
    case Call(p) => Some(p)
    case Return(p) => Some(p)
    case Fail(p) => Some(p)
    case Choose(p, _) => Some(p)
    case RenewCall(p) => Some(p)
    case RenewReturn(p) => Some(p)
    case SaveCall(p, _, _) => Some(p)
    case SaveReturn(p) => Some(p)
    case SaveFail(p) => Some(p)
    case Stop(p) => Some(p)
    case Crash(p) => Some(p)
    case _ => None
  }

  lemma ProcsKept(w: World, a: Action)
    requires Inv(w) && Enabled(w, a)
    ensures var w' := Apply(w, a); forall p :: 0 <= p < |w'.procs| ==> ProcOk(w', p, w'.procs[p])
  {
    var w' := Apply(w, a);
    StepExtends(w, a);
    forall p | 0 <= p < |w'.procs|
      ensures ProcOk(w', p, w'.procs[p])
    {
      if p < |w.procs| {
        assert ProcOk(w, p, w.procs[p]);
        if a == Call(p) {
          CallProcOk(w, p);
        } else if Subject(a) == Some(p) {
          SubjectOk(w, a, p);
          ProcKept(w, w', p, w'.procs[p]);
        } else {
          assert w'.procs[p] == w.procs[p];
          ProcKept(w, w', p, w.procs[p]);
        }
      }
    }
  }

  // ----- the claims and the key

  lemma HistoryKept(w: World, a: Action)
    requires Inv(w) && Enabled(w, a)
    ensures History(Apply(w, a))
  {
    var w' := Apply(w, a);
    StepExtends(w, a);
    if a.Serve? {
      ServeHistory(w, a.id);
    } else {
      assert w'.servers.claims == w.servers.claims;
      forall k | 0 <= k < |w'.servers.claims|
        ensures ClaimBacked(w', k)
      {
        assert ClaimBacked(w, k) && KeepsMessage(w.net[w.servers.claims[k].lease], w'.net[w.servers.claims[k].lease]);
      }
      if w'.servers.lease.key.Some? {
        var v := w'.servers.lease.key.value.value;
        assert EverAcquired(w, v) && KeepsMessage(w.net[v.lease], w'.net[v.lease]);
      }
    }
  }

  lemma ServeHistory(w: World, id: nat)
    requires Inv(w) && Enabled(w, Serve(id))
    ensures History(Apply(w, Serve(id)))
  {
    var w' := Apply(w, Serve(id));
    StepExtends(w, Serve(id));
    ServeOwnerRecord(w, id);
    forall k | 0 <= k < |w'.servers.claims|
      ensures ClaimBacked(w', k)
    {
      ServeClaimBacked(w, id, k);
    }
    if w'.servers.lease.key.Some? { ServeKeyAcquired(w, id); }
  }

  lemma ServeOwnerRecord(w: World, id: nat)
    requires Inv(w) && Enabled(w, Serve(id))
    ensures var s := Apply(w, Serve(id)).servers;
            |s.claims| == Generation(s.store.owner)
                && (s.store.owner.Some? ==> OwnerRecorded(Apply(w, Serve(id)), s.store.owner.value))
  {
    assert MessageOk(w, id);
    if !w.net[id].request.Claim? { ServeKeepsOwner(w, id); }
  }

  /** Only a claim writes who owns the record. */
  lemma ServeKeepsOwner(w: World, id: nat)
    requires Enabled(w, Serve(id)) && !w.net[id].request.Claim?
    ensures var s, s' := w.servers, Apply(w, Serve(id)).servers;
            && s'.claims == s.claims && s'.store.owner.Some? == s.store.owner.Some?
            && (s.store.owner.Some? ==>
                  Names(OwnerRef(s.store.owner.value.generation, s.store.owner.value.instance,
                      s.store.owner.value.lease), s'.store.owner))
  {
  }

  lemma ServeClaimBacked(w: World, id: nat, k: nat)
    requires Inv(w) && Enabled(w, Serve(id)) && k < |Apply(w, Serve(id)).servers.claims|
    ensures ClaimBacked(Apply(w, Serve(id)), k)
  {
    var w' := Apply(w, Serve(id));
    StepExtends(w, Serve(id));
    assert MessageOk(w, id);
    if k < |w.servers.claims| {
      assert ClaimBacked(w, k) && KeepsMessage(w.net[w.servers.claims[k].lease], w'.net[w.servers.claims[k].lease]);
    } else {
      assert KeepsMessage(w.net[w.net[id].request.lease], w'.net[w.net[id].request.lease]);
    }
  }

  lemma ServeKeyAcquired(w: World, id: nat)
    requires Inv(w) && Enabled(w, Serve(id)) && Apply(w, Serve(id)).servers.lease.key.Some?
    ensures EverAcquired(Apply(w, Serve(id)), Apply(w, Serve(id)).servers.lease.key.value.value)
  {
    var w' := Apply(w, Serve(id));
    StepExtends(w, Serve(id));
    if !(w.net[id].request.Acquire? && w'.net[id].reply.value.Granted?) {
      var v := w.servers.lease.key.value.value;
      assert EverAcquired(w, v) && KeepsMessage(w.net[v.lease], w'.net[v.lease]);
    }
  }

  lemma FencedKept(w: World, a: Action)
    requires Inv(w) && Enabled(w, a)
    ensures Fenced(Apply(w, a))
  {
    var w' := Apply(w, a);
    StepExtends(w, a);
    if a.Serve? {
      if w.net[a.id].request.Claim? { ServeClaimFenced(w, a.id); }
      else if w.net[a.id].request.Acquire? { ServeAcquireFenced(w, a.id); }
      else { assert NoRivalSame(w, w'); }
    } else {
      assert NoRivalSame(w, w');
    }
  }

  /** No lease was granted and no generation claimed. */
  ghost predicate NoRivalSame(w: World, w': World) {
    && w'.servers.claims == w.servers.claims
    && (w'.servers.lease.key.Some? ==>
        w.servers.lease.key.Some? && w'.servers.lease.key.value.value == w.servers.lease.key.value.value)
    && (forall id ::
          0 <= id < |w'.net| && w'.net[id].request.Acquire? && w'.net[id].reply.Some?
          && w'.net[id].reply.value.Granted?
          ==> id < |w.net| && w.net[id].request == w'.net[id].request && w.net[id].reply == w'.net[id].reply)
  }

  /** While the lease of the last claim is in the key, no claim succeeds. */
  lemma RivalRefused(w: World, id: nat, k: nat)
    requires Inv(w) && id < |w.net| && w.net[id].request.Claim?
    requires w.servers.lease.key.Some? && k < |w.servers.claims|
    requires w.servers.claims[k].lease == w.servers.lease.key.value.value.lease
    ensures w.net[id].request.expected < |w.servers.claims|
  {
    var holder := w.servers.lease.key.value.value.lease;
    assert MessageOk(w, id) && ClaimBacked(w, k) && NoRival(w, holder);
  }

  lemma ServeClaimFenced(w: World, id: nat)
    requires Inv(w) && Enabled(w, Serve(id)) && w.net[id].request.Claim?
    ensures Fenced(Apply(w, Serve(id)))
  {
    var w' := Apply(w, Serve(id));
    assert MessageOk(w, id);
    if w.servers.lease.key.Some? && |w'.servers.claims| > |w.servers.claims| {
      var holder := w.servers.lease.key.value.value.lease;
      forall k | 0 <= k < |w.servers.claims|
        ensures w.servers.claims[k].lease != holder
      {
        if w.servers.claims[k].lease == holder { RivalRefused(w, id, k); }
      }
      forall i | 0 <= i < |w'.net| && w'.net[i].request.Acquire? && w'.net[i].reply.Some?
          && w'.net[i].reply.value.Granted?
        ensures w'.net[i].request.expected < |w'.servers.claims|
      {
        assert MessageOk(w, i);
      }
    }
  }

  /** A fresh lease has claimed nothing yet. */
  lemma ServeAcquireFenced(w: World, id: nat)
    requires Inv(w) && Enabled(w, Serve(id)) && w.net[id].request.Acquire?
    ensures Fenced(Apply(w, Serve(id)))
  {
    var w' := Apply(w, Serve(id));
    if w'.net[id].reply.value.Granted? {
      forall k | 0 <= k < |w.servers.claims|
        ensures w.servers.claims[k].lease != id
      {
        assert ClaimBacked(w, k);
      }
    } else {
      assert NoRivalSame(w, w');
    }
  }

  // ----- the invariant

  lemma InitInv(w: World)
    requires Init(w)
    ensures Inv(w)
  {
  }

  lemma StepInv(w: World, a: Action)
    requires Inv(w) && Enabled(w, a)
    ensures Inv(Apply(w, a))
  {
    MessagesKept(w, a);
    ProcsKept(w, a);
    HistoryKept(w, a);
    FencedKept(w, a);
  }
}
