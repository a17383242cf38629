/** Ownership of one room and completion of its match, as a concurrent step system.

    Server instances run activations of the room. Every remote call is a message: the servers
    handle it at most once, at any later time, and the caller may give up on it at any time,
    whether or not it took or will take effect. */
module RoomProtocol {
  import opened Wrappers
  import opened GameDomain
  import opened RoomLease
  import opened RuntimeOwner
  import opened RuntimeCheckpoint
  import opened GameMatch

  // ----- what the servers hold

  /** `covered` is the sequence of the protected checkpoint an event relies on, 0 when it relies on none,
      and `critical` is the critical key of the change it announces. */
  datatype Event = Event(generation: int, covered: int, critical: string, wipe: nat)
  {
    /** The checkpoint that protects the change. */
    function Protection(): CheckpointDoc { CheckpointDoc(generation, covered, critical) }
  }

  /** `wipes` counts the times the checkpoint was deleted, expired or lost; `lostAt` is when
      Redis was reset; `channel` is everything published so far; `claims` and `starts` are the
      successful generation claims and runtime starts so far. */
  datatype Servers = Servers(
    lease: LeaseState,
    checkpoint: Option<CheckpointDoc>,
    wipes: nat,
    lostAt: Option<int>,
    store: MatchStore,
    channel: seq<Event>,
    claims: seq<OwnerRef>,
    starts: seq<OwnerRef>)

  // ----- messages

  datatype Request =
    | FindOwner
    | Acquire(instance: string, expected: int) // the message's own number is the lease ID
    | CurrentHolder
    | Release(value: LeaseValue)
    | FindSession
    | Claim(expected: int, instance: string, lease: LeaseID)
    | Renew(value: LeaseValue)
    | SaveCheckpoint(value: LeaseValue, doc: CheckpointDoc)
    | LoadCheckpoint(value: LeaseValue)
    | DeleteCheckpoint(value: LeaseValue)
    | MarkStarted(ref: OwnerRef)
    | SaveTrigger(ref: OwnerRef, command: Command)
    | Complete(completion: MatchCompletion)
    | FindResult
    | Publish(value: LeaseValue, event: Event)

  datatype Reply =
    | OwnerRead(doc: Option<OwnerDoc>)
    | Granted(token: int)
    | Busy
    | HolderRead(holder: Option<LeaseValue>)
    | Freed
    | SessionRead(terminal: bool)
    | Claimed(claim: OwnerDoc)
    | Refused
    | Renewed
    | CheckpointSaved(wipe: nat)
    | Loaded(found: Option<CheckpointDoc>)
    | Deleted
    | Accepted
    | Completed(outcome: Outcome)
    | ResultRead(result: Option<ResultDoc>)
    | Published

  datatype Message = Message(from: nat, request: Request, sentAt: int, reply: Option<Reply>)

  /** One server step: handle message `id`. */
  function Handle(s: Servers, now: int, ttl: int, id: LeaseID, request: Request): (Servers, Reply) {
    match request
    case FindOwner => (s, OwnerRead(s.store.owner))
    case Acquire(instance, _) =>
      var r := AcquireScript(s.lease, now, instance, id, ttl);
      (s.(lease := r.0), if r.1 == 0 then Busy else Granted(r.1))
    case CurrentHolder => (s, HolderRead(Holder(s.lease, now)))
    case Release(value) => (s.(lease := ReleaseScript(s.lease, now, value).0), Freed)
    case FindSession => (s, SessionRead(s.store.session.None? || IsTerminal(s.store.session.value.state)))
    case Claim(expected, instance, lease) =>
      var r := ClaimUpdate(s.store.owner, expected, instance, lease);
      if r.1.Some? then
        (s.(store := s.store.(owner := r.0), claims := s.claims + [OwnerRef(r.1.value.generation, instance, lease)]),
            Claimed(r.1.value))
      else
        (s, Refused)
    case Renew(value) =>
      var r := RenewScript(s.lease, now, value, ttl);
      (s.(lease := r.0), if r.1 then Renewed else Refused)
    case SaveCheckpoint(value, doc) =>
      var r := SaveScript(s.lease, now, value, s.checkpoint, doc);
      (s.(checkpoint := r.0), if r.1.Saved? then CheckpointSaved(s.wipes) else Refused)
    case LoadCheckpoint(value) =>
      (s, if Holds(s.lease, now, value) then Loaded(s.checkpoint) else Refused)
    case DeleteCheckpoint(value) =>
      if Holds(s.lease, now, value) then (s.(checkpoint := None, wipes := s.wipes + 1), Deleted) else (s, Refused)
    case MarkStarted(ref) =>
      var r := MarkStartedUpdate(s.store.owner, ref);
      if r.1 then (s.(store := s.store.(owner := r.0), starts := s.starts + [ref]), Accepted) else (s, Refused)
    case SaveTrigger(ref, command) =>
      var r := TriggerUpdate(s.store.owner, ref, command);
      (s.(store := s.store.(owner := r.0)), if r.1 then Accepted else Refused)
    case Complete(c) =>
      var r := CompleteTransaction(s.store, c);
      (s.(store := r.0), Completed(r.1))
    case FindResult => (s, ResultRead(s.store.result))
    case Publish(value, event) =>
      if Holds(s.lease, now, value) then (s.(channel := s.channel + [event]), Published) else (s, Refused)
  }

  // ----- one activation and the room it opens

  /** Where the activation, and later the room's lifecycle loop, stands. */
  datatype Point =
    | ReadGeneration
    | AcquireFirst
    | ReadHolder
    | FreeOwn(own: LeaseValue)
    | AcquireAgain
    | ReadHolderAgain
    | Observe(other: LeaseValue)
    | ObserveLease(other: LeaseValue, seen: Option<OwnerDoc>)
    | Observed(other: LeaseValue, generation: int)
    | LoadSession
    | Claiming
    | FirstRenew
    | Open
    | SpawnMark
    | AbandonMark(fallback: MatchResult)
    | RestoreLoad(fallback: MatchResult)
    | RestoreInstall(fallback: MatchResult)
    | TriggerSave(command: Command)
    | Commit(completion: MatchCompletion)
    | Resolve(completion: MatchCompletion)
    | ReadBack(completion: MatchCompletion)
    | DropCheckpoint
    | Releasing
    | Ended

  datatype Runtime = NoRuntime | Spawned | Restored

  datatype Renewal = Renewal(id: nat, startedAt: int)

  datatype Saving = Saving(id: nat, doc: CheckpointDoc)

  /** `protected` and `wipe` are the last protected sequence and the wipe count its save reported. */
  datatype Proc = Proc(
    instance: string,
    at: Point,
    call: Option<nat>,
    callAt: int,
    expected: int,
    lease: Option<LeaseValue>,
    owner: Option<OwnerDoc>,
    deadline: Option<int>,
    renewal: Option<Renewal>,
    saving: Option<Saving>,
    protected: int,
    critical: string,
    wipe: nat,
    released: bool,
    stopped: bool,
    runtime: Runtime,
    proposal: Option<MatchResult>,
    committed: Option<MatchCompletion>)

  function NewProc(instance: string): Proc {
    Proc(instance, ReadGeneration, None, 0, 0, None, None, None, None, None, 0, "", 0, false, false, NoRuntime, None,
        None)
  }

  predicate Finished(p: Proc) {
    p.at.Ended? || p.at.Observed?
  }

  /** managedRoom.leaseValid. */
  predicate LeaseValid(p: Proc, now: int) {
    !p.stopped && p.deadline.Some? && now < p.deadline.value
  }

  function Ref(p: Proc): OwnerRef
    requires p.lease.Some? && p.owner.Some?
  {
    OwnerRef(p.owner.value.generation, p.instance, p.lease.value.lease)
  }

  /** The remote call made at the point where `p` stands. */
  function RequestAt(p: Proc): Option<Request> {
    match p.at
    case ReadGeneration => Some(FindOwner)
    case AcquireFirst => Some(Acquire(p.instance, p.expected))
    case ReadHolder => Some(CurrentHolder)
    case FreeOwn(own) => Some(Release(own))
    case AcquireAgain => Some(Acquire(p.instance, p.expected))
    case ReadHolderAgain => Some(CurrentHolder)
    case Observe(_) => Some(FindOwner)
    case ObserveLease(_, _) => Some(CurrentHolder)
    case Observed(_, _) => None
    case LoadSession => Some(FindSession)
    case Claiming => if p.lease.Some? then Some(Claim(p.expected, p.instance, p.lease.value.lease)) else None
    case FirstRenew => if p.lease.Some? then Some(Renew(p.lease.value)) else None
    case Open => None
    case SpawnMark => if p.lease.Some? && p.owner.Some? then Some(MarkStarted(Ref(p))) else None
    case AbandonMark(_) => if p.lease.Some? && p.owner.Some? then Some(MarkStarted(Ref(p))) else None
    case RestoreLoad(_) => if p.lease.Some? then Some(LoadCheckpoint(p.lease.value)) else None
    case RestoreInstall(_) => None
    case TriggerSave(command) => if p.lease.Some? && p.owner.Some? then Some(SaveTrigger(Ref(p), command)) else None
    case Commit(c) => Some(Complete(c))
    case Resolve(_) => Some(FindResult)
    case ReadBack(_) => Some(FindResult)
    case DropCheckpoint => if p.lease.Some? then Some(DeleteCheckpoint(p.lease.value)) else None
    case Releasing => if p.lease.Some? then Some(Release(p.lease.value)) else None
    case Ended => None
  }

  /** Cancel the room's context; whoever holds a lease goes on to release it. */
  function Stopping(p: Proc): Proc {
    p.(stopped := true, call := None, renewal := None, saving := None, at := if p.lease.Some? then Releasing else Ended)
  }

  function Ending(p: Proc): Proc {
    p.(stopped := true, call := None, renewal := None, saving := None, at := Ended)
  }

  /** What an activation makes of an answer. */
  datatype Move =
    | Goto(at: Point)
    | Learn(generation: int)
    | Grant(value: LeaseValue)
    | Own(claim: OwnerDoc)
    | Date(deadline: int)
    | Run
    | Fall(result: MatchResult)
    | Note(command: Command)
    | Seal(completion: MatchCompletion)
    | Watch(other: LeaseValue, generation: int)
    | Halt
    | Exit

  /** The decision taken when the outstanding call `id` answers `reply`. */
  function Answer(p: Proc, id: nat, reply: Reply, now: int, ttl: int): Move {
    match p.at
    case ReadGeneration => if reply.OwnerRead? then Learn(Generation(reply.doc)) else Halt
    case AcquireFirst => AnswerAcquire(p.instance, id, reply, ReadHolder)
    case ReadHolder =>
      if !(reply.HolderRead? && reply.holder.Some?) then Halt
      else if reply.holder.value.instance == p.instance then Goto(FreeOwn(reply.holder.value))
      else Goto(Observe(reply.holder.value))
    case FreeOwn(_) => Goto(AcquireAgain)
    case AcquireAgain => AnswerAcquire(p.instance, id, reply, ReadHolderAgain)
    case ReadHolderAgain => if reply.HolderRead? && reply.holder.Some? then Goto(Observe(reply.holder.value)) else Halt
    case Observe(v) => if reply.OwnerRead? then Goto(ObserveLease(v, reply.doc)) else Halt
    case ObserveLease(v, seen) =>
      if !(reply.HolderRead? && reply.holder.Some?) then Halt
      else if reply.holder.value.lease != v.lease || reply.holder.value.instance != v.instance then Halt
      else if Generation(seen) > 0 && seen.value.lease == v.lease && seen.value.instance == v.instance then
        Watch(v, seen.value.generation)
      else Goto(Observe(v))
    case Observed(_, _) => Exit
    case LoadSession => if reply.SessionRead? && !reply.terminal then Goto(Claiming) else Halt
    case Claiming => if reply.Claimed? then Own(reply.claim) else Halt
    case FirstRenew => if reply.Renewed? then Date(p.callAt + ttl) else Halt
    case Open => Halt
    case SpawnMark => if reply.Accepted? && LeaseValid(p, now) then Run else Halt
    case AbandonMark(fallback) => if reply.Accepted? then Fall(fallback) else Halt
    case RestoreLoad(fallback) =>
      if !reply.Loaded? then Halt
      else if reply.found.Some? then Goto(RestoreInstall(fallback))
      else Fall(fallback)
    case RestoreInstall(_) => Halt
    case TriggerSave(command) => if reply.Accepted? then Note(command) else Goto(Open)
    case Commit(c) => if reply.Completed? && reply.outcome.Success() then Goto(ReadBack(c)) else Goto(Resolve(c))
    case Resolve(c) =>
      if !(reply.ResultRead? && reply.result.Some?) then Goto(Open)
      else if SameMatchResult(reply.result.value, Proposed(c)) then Goto(ReadBack(c))
      else Halt
    case ReadBack(c) => if reply.ResultRead? && reply.result.Some? && reply.result.value.Readable() then Seal(c)
        else Goto(Open)
    case DropCheckpoint => Goto(if p.stopped then Releasing else Open)
    case Releasing => Exit
    case Ended => Exit
  }

  function AnswerAcquire(instance: string, id: nat, reply: Reply, busy: Point): Move {
    if reply.Granted? then Grant(LeaseValue(instance, id, reply.token))
    else if reply.Busy? then Goto(busy)
    else Halt
  }

  function Advance(p: Proc, move: Move): Proc {
    match move
    case Goto(at) => p.(call := None, at := at)
    case Learn(generation) => p.(call := None, at := AcquireFirst, expected := generation)
    case Grant(value) => p.(call := None, at := LoadSession, lease := Some(value))
    case Own(claim) => p.(call := None, at := FirstRenew, owner := Some(claim))
    case Date(deadline) => p.(call := None, at := Open, deadline := Some(deadline))
    case Run => p.(call := None, at := Open, runtime := Spawned)
    case Fall(result) => p.(call := None, at := Open, proposal := Some(result))
    case Note(command) =>
      p.(call := None, at := Open, owner := if p.owner.Some? then Some(p.owner.value.(trigger := Some(command)))
          else None)
    case Seal(c) => p.(call := None, at := Open, committed := Some(c))
    case Watch(other, generation) => Ending(p).(at := Observed(other, generation))
    case Halt => Stopping(p)
    case Exit => Ending(p)
  }

  /** The point reached when the outstanding call fails, whatever became of its request. */
  function OnFailure(p: Proc): Proc {
    var q := p.(call := None);
    if p.at.Commit? then q.(at := Resolve(p.at.completion))
    else if p.at.TriggerSave? || p.at.Resolve? || p.at.ReadBack? then q.(at := Open)
    else if p.at.DropCheckpoint? then q.(at := if p.stopped then Releasing else Open)
    else if p.at.Releasing? then Ending(p)
    else Stopping(p)
  }

  /** What an open room may start next. */
  datatype Choice =
    | Spawn
    | Abandon(fallback: MatchResult)
    | Restore(fallback: MatchResult)
    | Install
    | RefuseCheckpoint
    | Propose(result: MatchResult)
    | Trigger(command: Command)
    | Finish(completion: MatchCompletion)
    | Drop

  predicate MayChoose(p: Proc, choice: Choice, now: int) {
    && p.call.None? && p.owner.Some? && p.lease.Some? && (choice.Drop? || LeaseValid(p, now))
    && match choice
       case Spawn =>
         p.at.Open? && !p.owner.value.started && p.runtime.NoRuntime? && p.proposal.None? && p.protected > 0
       case Abandon(_) => p.at.Open? && !p.owner.value.started && p.runtime.NoRuntime? && p.proposal.None?
       case Restore(_) => p.at.Open? && p.owner.value.started && p.runtime.NoRuntime? && p.proposal.None?
       case Install => p.at.RestoreInstall? && p.protected > 0
       case RefuseCheckpoint => p.at.RestoreInstall?
       case Propose(_) => p.at.Open? && !p.runtime.NoRuntime? && p.proposal.None?
       case Trigger(command) => p.at.Open? && !p.runtime.NoRuntime? && p.proposal.None? && command.Described()
       case Finish(c) =>
         p.at.Open? && p.proposal == Some(c.result) && c.owner == Some(Ref(p)) && ValidCompletion(c)
       case Drop => (p.at.Open? || p.at.Releasing?) && p.committed.Some? && p.saving.None?
  }

  function Choosing(p: Proc, choice: Choice): Proc {
    match choice
    case Spawn => p.(at := SpawnMark)
    case Abandon(r) => p.(at := AbandonMark(r))
    case Restore(r) => p.(at := RestoreLoad(r))
    case Install => p.(at := Open, runtime := Restored)
    case RefuseCheckpoint => if p.at.RestoreInstall? then p.(at := Open, proposal := Some(p.at.fallback)) else p
    case Propose(r) => p.(proposal := Some(r))
    case Trigger(command) => p.(at := TriggerSave(command))
    case Finish(c) => p.(at := Commit(c))
    case Drop => p.(at := DropCheckpoint, released := true)
  }

  // ----- the whole system

  datatype World = World(now: int, ttl: int, servers: Servers, net: seq<Message>, procs: seq<Proc>)

  datatype Action =
    | Begin(instance: string)
    | Call(p: nat)
    | Serve(id: nat)
    | Return(p: nat)
    | Fail(p: nat)
    | Choose(p: nat, choice: Choice)
    | RenewCall(p: nat)
    | RenewReturn(p: nat)
    | SaveCall(p: nat, sequence: int, critical: string)
    | SaveReturn(p: nat)
    | SaveFail(p: nat)
    | PublishCall(p: nat, change: Option<string>)
    | Stop(p: nat)
    | Crash(p: nat)
    | Tick(elapsed: nat)
    | WriteSession(session: SessionSnapshot, receipts: Receipts)
    | FenceLapse
    | CheckpointLapse
    | RedisReset

  predicate Answered(w: World, id: nat) {
    id < |w.net| && w.net[id].reply.Some?
  }

  predicate HoldsCheckpoint(p: Proc, critical: string) {
    p.released || (p.protected > 0 && p.critical == critical)
  }

  predicate Enabled(w: World, a: Action) {
    match a
    case Begin(instance) => instance != "" && forall i :: 0 <= i < |w.procs| && w.procs[i].instance == instance ==>
        Finished(w.procs[i])
    case Call(p) => p < |w.procs| && w.procs[p].call.None? && RequestAt(w.procs[p]).Some?
    case Serve(id) => id < |w.net| && w.net[id].reply.None?
    case Return(p) => p < |w.procs| && w.procs[p].call.Some? && Answered(w, w.procs[p].call.value)
    case Fail(p) => p < |w.procs| && w.procs[p].call.Some?
    case Choose(p, choice) => p < |w.procs| && MayChoose(w.procs[p], choice, w.now)
    case RenewCall(p) =>
      p < |w.procs| && w.procs[p].renewal.None? && w.procs[p].lease.Some? && LeaseValid(w.procs[p], w.now)
    case RenewReturn(p) => p < |w.procs| && w.procs[p].renewal.Some? && Answered(w, w.procs[p].renewal.value.id)
    case SaveCall(p, sequence, _) =>
      && p < |w.procs|
      && var q := w.procs[p];
         q.saving.None? && !q.released && q.lease.Some? && q.owner.Some? && LeaseValid(q, w.now)
             && sequence > q.protected
    case SaveReturn(p) => p < |w.procs| && w.procs[p].saving.Some? && Answered(w, w.procs[p].saving.value.id)
    case SaveFail(p) => p < |w.procs| && w.procs[p].saving.Some?
    case PublishCall(p, critical) =>
      && p < |w.procs|
      && var q := w.procs[p];
         q.lease.Some? && q.owner.Some? && LeaseValid(q, w.now)
             && (critical.Some? ==> HoldsCheckpoint(q, critical.value))
    case Stop(p) => p < |w.procs| && !Finished(w.procs[p])
    case Crash(p) => p < |w.procs| && !Finished(w.procs[p])
    case Tick(_) => true
    case WriteSession(_, receipts) => w.servers.store.receipts.Items <= receipts.Items
    case FenceLapse => true
    case CheckpointLapse => true
    case RedisReset => true
  }

  function Send(w: World, p: nat, request: Request): World {
    w.(net := w.net + [Message(p, request, w.now, None)])
  }

  function WithProc(w: World, p: nat, q: Proc): World
    requires p < |w.procs|
  {
    w.(procs := w.procs[p := q])
  }

  function Apply(w: World, a: Action): World
    requires Enabled(w, a)
  {
    match a
    case Begin(instance) => w.(procs := w.procs + [NewProc(instance)])
    case Call(p) =>
      WithProc(Send(w, p, RequestAt(w.procs[p]).value), p, w.procs[p].(call := Some(|w.net|), callAt := w.now))
    case Serve(id) =>
      var r := Handle(w.servers, w.now, w.ttl, id, w.net[id].request);
      w.(servers := r.0, net := w.net[id := w.net[id].(reply := Some(r.1))])
    case Return(p) =>
      var id := w.procs[p].call.value;
      WithProc(w, p, Advance(w.procs[p], Answer(w.procs[p], id, w.net[id].reply.value, w.now, w.ttl)))
    case Fail(p) => WithProc(w, p, OnFailure(w.procs[p]))
    case Choose(p, choice) => WithProc(w, p, Choosing(w.procs[p], choice))
    case RenewCall(p) =>
      WithProc(Send(w, p, Renew(w.procs[p].lease.value)), p, w.procs[p].(renewal := Some(Renewal(|w.net|, w.now))))
    case RenewReturn(p) =>
      var q := w.procs[p];
      WithProc(w, p,
               if w.net[q.renewal.value.id].reply == Some(Renewed) && LeaseValid(q, w.now) then
                 q.(renewal := None, deadline := Some(q.renewal.value.startedAt + w.ttl))
               else
                 Stopping(q))
    case SaveCall(p, sequence, critical) =>
      var q := w.procs[p];
      var doc := CheckpointDoc(q.owner.value.generation, sequence, critical);
      WithProc(Send(w, p, SaveCheckpoint(q.lease.value, doc)), p, q.(saving := Some(Saving(|w.net|, doc))))
    case SaveReturn(p) =>
      var q := w.procs[p];
      var reply := w.net[q.saving.value.id].reply.value;
      WithProc(w, p,
               if reply.CheckpointSaved? then
                 q.(saving := None, protected := q.saving.value.doc.sequence, critical := q.saving.value.doc.critical,
                     wipe := reply.wipe)
               else
                 q.(saving := None))
    case SaveFail(p) => WithProc(w, p, w.procs[p].(saving := None))
    case PublishCall(p, critical) =>
      var q := w.procs[p];
      Send(w, p, Publish(q.lease.value,
                         Event(q.owner.value.generation,
                               if critical.Some? && !q.released then q.protected else 0,
                               if critical.Some? then critical.value else "",
                               q.wipe)))
    case Stop(p) => WithProc(w, p, Stopping(w.procs[p]))
    case Crash(p) => WithProc(w, p, Ending(w.procs[p]))
    case Tick(elapsed) => w.(now := w.now + elapsed)
    case WriteSession(session, receipts) =>
      w.(servers := w.servers.(store := w.servers.store.(session := Some(session), receipts := receipts)))
    case FenceLapse => w.(servers := w.servers.(lease := w.servers.lease.(fence := 0)))
    case CheckpointLapse => w.(servers := w.servers.(checkpoint := None, wipes := w.servers.wipes + 1))
    case RedisReset =>
      w.(servers := w.servers.(lease := LeaseState(None, 0), checkpoint := None, wipes := w.servers.wipes + 1,
                              lostAt := Some(w.now)))
  }

  ghost predicate Next(w: World, w': World) {
    exists a :: Enabled(w, a) && w' == Apply(w, a)
  }

  /** A new session: nobody has claimed, completed, published or saved anything. */
  ghost predicate Init(w: World) {
    && w.ttl > 0
    && w.servers.lease == LeaseState(None, 0)
    && w.servers.checkpoint.None? && w.servers.wipes == 0 && w.servers.lostAt.None?
    && w.servers.store.owner.None? && w.servers.store.result.None?
    && w.servers.channel == [] && w.servers.claims == [] && w.servers.starts == []
    && w.net == [] && w.procs == []
  }

  /** A finite run of the system from a new session. */
  ghost predicate Behavior(run: seq<World>) {
    && |run| > 0
    && Init(run[0])
    && forall i, j :: 0 <= i < j < |run| && j == i + 1 ==> Next(run[i], run[j])
  }
}
