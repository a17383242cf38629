/** Mutual exclusion in time: while a room believes its lease valid, Redis holds that lease. */
module RoomTime {
  import opened Wrappers
  import opened RoomLease
  import opened RuntimeOwner
  import opened RoomProtocol
  import opened RoomInvariant

  // ----- one activation at a time on each instance

  ghost predicate OnePerInstance(w: World) {
    forall p, q :: 0 <= p < |w.procs| && 0 <= q < |w.procs| && p != q && w.procs[p].instance == w.procs[q].instance
      ==> Finished(w.procs[p]) || Finished(w.procs[q])
  }

  /** A finished activation stays finished, and every stopped one stays stopped. */
  lemma StoppedStays(w: World, a: Action, p: nat)
    requires Inv(w) && Enabled(w, a) && p < |w.procs|
    ensures w.procs[p].stopped ==> Apply(w, a).procs[p].stopped
    ensures Finished(w.procs[p]) ==> Finished(Apply(w, a).procs[p])
  {
    var q := w.procs[p];
    assert ProcOk(w, p, q);
    if Subject(a) == Some(p) && q.stopped { SubjectStopped(w, a, p, q); }
  }

  lemma SubjectStopped(w: World, a: Action, p: nat, q: Proc)
    requires p < |w.procs| && q == w.procs[p] && q.stopped && CallOk(w, p, q) && q.renewal.None? && q.saving.None?
    requires Enabled(w, a) && Subject(a) == Some(p)
    ensures Apply(w, a).procs[p].stopped
    ensures !Finished(q)
  {
  }

  lemma OnePerInstanceKept(w: World, a: Action)
    requires Inv(w) && OnePerInstance(w) && Enabled(w, a)
    ensures OnePerInstance(Apply(w, a))
  {
    var w' := Apply(w, a);
    StepExtends(w, a);
    forall p, q | 0 <= p < |w'.procs| && 0 <= q < |w'.procs| && p != q && w'.procs[p].instance == w'.procs[q].instance
      ensures Finished(w'.procs[p]) || Finished(w'.procs[q])
    {
      if p < |w.procs| { StoppedStays(w, a, p); }
      if q < |w.procs| { StoppedStays(w, a, q); }
    }
  }

  // ----- nobody releases the lease of a running room

  /** Message `id` asks for a lease on behalf of `p` and was not turned down. */
  ghost predicate Asked(w: World, id: nat, p: nat) {
    id < |w.net| && w.net[id].request.Acquire? && w.net[id].from == p && w.net[id].reply != Some(Busy)
  }

  /** A running activation holds, or still waits for, every lease it asked for. */
  ghost predicate OwnGrants(w: World, p: nat, q: Proc) {
    !q.stopped ==> forall id :: Asked(w, id, p) ==> q.call == Some(id) || (q.lease.Some? && q.lease.value.lease == id)
  }

  /** Whoever acquired the lease that a message releases has stopped. */
  ghost predicate ReleaseSafe(w: World, id: nat)
    requires id < |w.net|
  {
    w.net[id].request.Release? ==>
      var v := w.net[id].request.value;
      EverAcquired(w, v) && w.net[v.lease].from < |w.procs| && w.procs[w.net[v.lease].from].stopped
  }

  ghost predicate Releases(w: World) {
    && OnePerInstance(w)
    && (forall p :: 0 <= p < |w.procs| ==> OwnGrants(w, p, w.procs[p]))
    && (forall id :: 0 <= id < |w.net| ==> ReleaseSafe(w, id))
  }

  /** The answer to a call leaves no lease behind. */
  lemma ReturnGrants(w: World, p: nat, q: Proc)
    requires ProcOk(w, p, q) && OwnGrants(w, p, q) && q.call.Some? && Answered(w, q.call.value)
    ensures OwnGrants(w, p, Advance(q, Answer(q, q.call.value, w.net[q.call.value].reply.value, w.now, w.ttl)))
  {
    var reply := w.net[q.call.value].reply.value;
    var move := Answer(q, q.call.value, reply, w.now, w.ttl);
    GrantMove(q, q.call.value, reply, w.now, w.ttl);
    MoveLease(q, move);
  }

  /** A grant sets the lease; every other move keeps it or stops the activation. */
  lemma MoveLease(q: Proc, move: Move)
    ensures var q' := Advance(q, move);
            && (q'.stopped || q'.lease == (if move.Grant? then Some(move.value) else q.lease))
            && (move.Halt? || move.Exit? || move.Watch? ==> q'.stopped)
            && (!q'.stopped ==> !q.stopped)
  {
  }

  /** Only an acquisition's answer is a grant. */
  lemma GrantMove(q: Proc, id: nat, reply: Reply, now: int, ttl: int)
    ensures var move := Answer(q, id, reply, now, ttl);
            && (move.Grant? ==> (q.at.AcquireFirst? || q.at.AcquireAgain?) && move.value.lease == id)
            && (q.at.AcquireFirst? || q.at.AcquireAgain? ==> move.Grant? || move.Halt? || reply.Busy?)
  {
  }

  lemma OwnGrantsKept(w: World, a: Action, p: nat)
    requires Inv(w) && Releases(w) && Enabled(w, a) && p < |Apply(w, a).procs|
    ensures OwnGrants(Apply(w, a), p, Apply(w, a).procs[p])
  {
    var w' := Apply(w, a);
    StepExtends(w, a);
    if p == |w.procs| {
      forall id: nat | id < |w'.net|
        ensures !Asked(w', id, p)
      {
        assert MessageOk(w, id);
      }
    } else if a == Call(p) {
      CallGrants(w, p);
    } else {
      SubjectGrants(w, a, p);
      if |w'.net| > |w.net| { NewlyAsked(w, a, p); }
      forall id: nat | Asked(w', id, p)
        ensures Asked(w, id, p)
      {
        if id < |w.net| { assert KeepsMessage(w.net[id], w'.net[id]); }
      }
    }
  }

  /** Whoever gives up on an acquisition stops. */
  lemma FailGrants(w: World, p: nat, q: Proc)
    requires ProcOk(w, p, q) && OwnGrants(w, p, q) && q.call.Some?
    ensures OwnGrants(w, p, OnFailure(q))
  {
  }

  /** The activation after the step, judged by the messages before it. */
  lemma SubjectGrants(w: World, a: Action, p: nat)
    requires Inv(w) && Releases(w) && Enabled(w, a) && p < |w.procs| && a != Call(p)
    ensures OwnGrants(w, p, Apply(w, a).procs[p])
  {
    var q := w.procs[p];
    assert ProcOk(w, p, q) && OwnGrants(w, p, q);
    if a == Return(p) { ReturnGrants(w, p, q); }
    else if a == Fail(p) { FailGrants(w, p, q); }
    else { OtherStep(w, a, p); }
  }

  /** No other step moves an activation's call or lease, unless it stops it. */
  lemma OtherStep(w: World, a: Action, p: nat)
    requires Enabled(w, a) && p < |w.procs| && a != Call(p) && a != Return(p) && a != Fail(p)
    ensures var q' := Apply(w, a).procs[p];
            q'.stopped || (q'.call == w.procs[p].call && q'.lease == w.procs[p].lease
            && q'.stopped == w.procs[p].stopped)
  {
  }

  /** Only a call asks for a lease. */
  lemma NewlyAsked(w: World, a: Action, p: nat)
    requires Inv(w) && Enabled(w, a) && p < |w.procs| && |Apply(w, a).net| > |w.net| && a != Call(p)
    ensures !Asked(Apply(w, a), |w.net|, p)
  {
  }

  lemma CallGrants(w: World, p: nat)
    requires Inv(w) && Releases(w) && Enabled(w, Call(p))
    ensures OwnGrants(Apply(w, Call(p)), p, Apply(w, Call(p)).procs[p])
  {
    var w' := Apply(w, Call(p));
    assert OwnGrants(w, p, w.procs[p]);
    forall id: nat | Asked(w', id, p) && id < |w.net|
      ensures Asked(w, id, p)
    {
      assert w'.net[id] == w.net[id];
    }
  }

  /** An activation frees a lease of its own instance only when no running activation has it. */
  lemma FreeOwnSafe(w: World, p: nat)
    requires Inv(w) && Releases(w) && p < |w.procs| && w.procs[p].at.FreeOwn? && w.procs[p].call.None?
    ensures var v := w.procs[p].at.own; w.net[v.lease].from < |w.procs| && w.procs[w.net[v.lease].from].stopped
  {
    var v := w.procs[p].at.own;
    assert ProcOk(w, p, w.procs[p]) && OwnGrants(w, p, w.procs[p]);
    var r := w.net[v.lease].from;
    assert MessageOk(w, v.lease);
    assert ProcOk(w, r, w.procs[r]);
    assert Asked(w, v.lease, r);
  }

  lemma ReleaseSafeKept(w: World, a: Action, id: nat)
    requires Inv(w) && Releases(w) && Enabled(w, a) && id < |Apply(w, a).net|
    ensures ReleaseSafe(Apply(w, a), id)
  {
    var w' := Apply(w, a);
    StepExtends(w, a);
    if w'.net[id].request.Release? {
      var v := w'.net[id].request.value;
      if id < |w.net| {
        assert ReleaseSafe(w, id);
      } else {
        NewReleaseSafe(w, a);
      }
      StoppedStays(w, a, w.net[v.lease].from);
      assert KeepsMessage(w.net[v.lease], w'.net[v.lease]);
    }
  }

  lemma NewReleaseSafe(w: World, a: Action)
    requires Inv(w) && Releases(w) && Enabled(w, a) && |Apply(w, a).net| > |w.net|
             && Apply(w, a).net[|w.net|].request.Release?
    ensures var v := Apply(w, a).net[|w.net|].request.value;
            EverAcquired(w, v) && w.net[v.lease].from < |w.procs| && w.procs[w.net[v.lease].from].stopped
  {
    ReleaseIsCall(w, a);
    CallReleaseSafe(w, a.p);
  }

  lemma ReleaseIsCall(w: World, a: Action)
    requires Enabled(w, a) && |Apply(w, a).net| > |w.net| && Apply(w, a).net[|w.net|].request.Release?
    ensures a.Call?
  {
  }

  lemma CallReleaseSafe(w: World, p: nat)
    requires Inv(w) && Releases(w) && Enabled(w, Call(p)) && RequestAt(w.procs[p]).value.Release?
    ensures var v := RequestAt(w.procs[p]).value.value;
            EverAcquired(w, v) && w.net[v.lease].from < |w.procs| && w.procs[w.net[v.lease].from].stopped
  {
    var q := w.procs[p];
    assert ProcOk(w, p, q);
    if q.at.FreeOwn? { FreeOwnSafe(w, p); }
  }

  lemma ReleasesKept(w: World, a: Action)
    requires Inv(w) && Releases(w) && Enabled(w, a)
    ensures Releases(Apply(w, a))
  {
    var w' := Apply(w, a);
    OnePerInstanceKept(w, a);
    forall p | 0 <= p < |w'.procs| ensures OwnGrants(w', p, w'.procs[p]) { OwnGrantsKept(w, a, p); }
    forall id | 0 <= id < |w'.net| ensures ReleaseSafe(w', id) { ReleaseSafeKept(w, a, id); }
  }

  // ----- local deadlines never outlive the key

  /** A deadline dated after the last reset of Redis. */
  ghost predicate Binding(w: World, deadline: int) {
    w.servers.lostAt.None? || deadline > w.servers.lostAt.value + w.ttl
  }

  /** Until `deadline`, the key holds `value` and does not expire first, unless a reset took it away. */
  ghost predicate Backed(w: World, value: LeaseValue, deadline: int) {
    && deadline <= w.now + w.ttl
    && (w.now < deadline && Binding(w, deadline) ==>
          && w.servers.lease.key.Some?
          && w.servers.lease.key.value.value == value
          && deadline <= w.servers.lease.key.value.expiresAt)
  }

  /** A renewal sent at `startedAt` and confirmed backs a deadline counted from its sending. */
  ghost predicate RenewalBacked(w: World, id: nat, value: LeaseValue, startedAt: int) {
    && id < |w.net|
    && w.net[id].request == Renew(value)
    && w.net[id].sentAt == startedAt
    && (w.net[id].reply == Some(Renewed) ==> Backed(w, value, startedAt + w.ttl))
  }

  ghost predicate Timed(w: World, q: Proc) {
    && (q.renewal.Some? ==> q.lease.Some?)
    && (!q.stopped && q.deadline.Some? ==> q.lease.Some? && Backed(w, q.lease.value, q.deadline.value))
    && (!q.stopped && q.renewal.Some? ==>
        RenewalBacked(w, q.renewal.value.id, q.lease.value, q.renewal.value.startedAt))
    && (!q.stopped && q.at.FirstRenew? && q.call.Some? ==>
        q.lease.Some? && RenewalBacked(w, q.call.value, q.lease.value, q.callAt))
  }

  ghost predicate Clocks(w: World) {
    && w.ttl > 0
    && (forall p :: 0 <= p < |w.procs| ==> Timed(w, w.procs[p]))
  }

  /** No server step takes the key from a running room before its deadline. */
  lemma ServeBacked(w: World, id: nat, p: nat, deadline: int)
    requires Inv(w) && Releases(w) && w.ttl > 0 && Enabled(w, Serve(id)) && p < |w.procs|
    requires var q := w.procs[p]; !q.stopped && q.lease.Some? && Backed(w, q.lease.value, deadline)
    ensures Backed(Apply(w, Serve(id)), w.procs[p].lease.value, deadline)
  {
    assert ProcOk(w, p, w.procs[p]) && ReleaseSafe(w, id);
  }

  lemma ServeTimed(w: World, id: nat, p: nat)
    requires Inv(w) && Releases(w) && Clocks(w) && Enabled(w, Serve(id)) && p < |w.procs|
    ensures Timed(Apply(w, Serve(id)), w.procs[p])
  {
    var w' := Apply(w, Serve(id));
    var q := w.procs[p];
    assert Timed(w, q);
    if !q.stopped && q.lease.Some? {
      if q.deadline.Some? { ServeBacked(w, id, p, q.deadline.value); }
      if q.renewal.Some? { ServeRenewal(w, id, p, q.renewal.value.id, q.renewal.value.startedAt); }
      if q.at.FirstRenew? && q.call.Some? { ServeRenewal(w, id, p, q.call.value, q.callAt); }
    }
  }

  lemma ServeRenewal(w: World, id: nat, p: nat, renewal: nat, startedAt: int)
    requires Inv(w) && Releases(w) && w.ttl > 0 && Enabled(w, Serve(id)) && p < |w.procs|
    requires var q := w.procs[p]; !q.stopped && q.lease.Some? && RenewalBacked(w, renewal, q.lease.value, startedAt)
    ensures RenewalBacked(Apply(w, Serve(id)), renewal, w.procs[p].lease.value, startedAt)
  {
    if renewal == id {
      assert MessageOk(w, id);
    } else if w.net[renewal].reply == Some(Renewed) {
      ServeBacked(w, id, p, startedAt + w.ttl);
    }
  }

  /** Steps that leave the key alone. */
  lemma QuietTimed(w: World, w': World, q: Proc)
    requires Timed(w, q)
    requires w.now <= w'.now && w'.ttl == w.ttl && w'.servers.lease.key == w.servers.lease.key && w.net <= w'.net
    requires w'.servers.lostAt == w.servers.lostAt
    ensures Timed(w', q)
  {
  }

  /** A reset leaves no deadline binding: none is later than one time to live from now. */
  lemma ResetTimed(w: World, q: Proc)
    requires Timed(w, q)
    ensures Timed(Apply(w, RedisReset), q)
  {
  }

  lemma QuietStep(w: World, a: Action)
    requires Enabled(w, a) && !a.Serve? && !a.RedisReset?
    ensures var w' := Apply(w, a);
            w.now <= w'.now && w'.ttl == w.ttl && w'.servers.lease.key == w.servers.lease.key && w.net <= w'.net
            && w'.servers.lostAt == w.servers.lostAt
  {
  }

  lemma SubjectTimed(w: World, a: Action, p: nat)
    requires Inv(w) && Clocks(w) && Enabled(w, a) && p < |w.procs| && Subject(a) == Some(p)
    ensures Timed(Apply(w, a), Apply(w, a).procs[p])
  {
    var q := w.procs[p];
    assert Timed(w, q) && ProcOk(w, p, q);
    match a
    case Return(_) => ReturnTimed(w, p, q);
    case Call(_) => CallTimed(w, p, q);
    case _ => RoomTimed(w, a, p);
  }

  lemma ReturnTimed(w: World, p: nat, q: Proc)
    requires ProcOk(w, p, q) && Timed(w, q) && q.call.Some? && Answered(w, q.call.value)
    ensures Timed(w, Advance(q, Answer(q, q.call.value, w.net[q.call.value].reply.value, w.now, w.ttl)))
  {
    var reply := w.net[q.call.value].reply.value;
    ClockMove(q, q.call.value, reply, w.now, w.ttl);
    AdvanceTimed(w, p, q, Answer(q, q.call.value, reply, w.now, w.ttl));
  }

  /** Only the first renewal's answer sets a deadline, and only before it is there no lease. */
  lemma ClockMove(q: Proc, id: nat, reply: Reply, now: int, ttl: int)
    ensures var move := Answer(q, id, reply, now, ttl);
            && (move.Date? ==> q.at.FirstRenew? && reply.Renewed? && move.deadline == q.callAt + ttl)
            && (move.Grant? ==> BeforeLease(q.at))
  {
  }

  lemma AdvanceTimed(w: World, p: nat, q: Proc, move: Move)
    requires ProcOk(w, p, q) && Timed(w, q)
    requires move.Grant? ==> BeforeLease(q.at)
    requires move.Date? ==>
             q.at.FirstRenew? && q.call.Some? && w.net[q.call.value].reply == Some(Renewed)
             && move.deadline == q.callAt + w.ttl
    ensures Timed(w, Advance(q, move))
  {
  }

  lemma CallTimed(w: World, p: nat, q: Proc)
    requires ProcOk(w, p, q) && Timed(w, q) && p < |w.procs| && q == w.procs[p] && Enabled(w, Call(p)) && w.ttl > 0
    ensures Timed(Apply(w, Call(p)), Apply(w, Call(p)).procs[p])
  {
  }

  lemma RoomTimed(w: World, a: Action, p: nat)
    requires p < |w.procs| && Enabled(w, a) && Subject(a) == Some(p) && !a.Call? && !a.Return? && w.ttl > 0
    requires ProcOk(w, p, w.procs[p]) && Timed(w, w.procs[p])
    ensures Timed(Apply(w, a), Apply(w, a).procs[p])
  {
    if !a.RenewCall? && !a.RenewReturn? {
      QuietStep(w, a);
      QuietTimed(w, Apply(w, a), w.procs[p]);
      RoomKeepsClock(w, a, p);
      SameClockTimed(Apply(w, a), w.procs[p], Apply(w, a).procs[p]);
    }
  }

  predicate SameClock(q: Proc, q': Proc) {
    || (q'.stopped && (q'.renewal.None? || (q'.renewal == q.renewal && q'.lease == q.lease)))
    || (q'.deadline == q.deadline && q'.renewal == q.renewal && q'.stopped == q.stopped && q'.lease == q.lease
        && (q'.at.FirstRenew? && q'.call.Some? ==> q.at.FirstRenew? && q'.call == q.call && q'.callAt == q.callAt))
  }

  lemma RoomKeepsClock(w: World, a: Action, p: nat)
    requires p < |w.procs| && Enabled(w, a) && Subject(a) == Some(p) && !a.Call? && !a.Return? && !a.RenewCall?
             && !a.RenewReturn?
    ensures SameClock(w.procs[p], Apply(w, a).procs[p])
  {
    if a.Choose? {
      ChooseKeepsClock(w.procs[p], a.choice, w.now);
    } else if a.Fail? {
      FailKeepsClock(w.procs[p]);
    }
  }

  lemma ChooseKeepsClock(q: Proc, choice: Choice, now: int)
    requires MayChoose(q, choice, now)
    ensures SameClock(q, Choosing(q, choice))
  {
  }

  lemma FailKeepsClock(q: Proc)
    ensures SameClock(q, OnFailure(q))
  {
  }

  lemma SameClockTimed(w: World, q: Proc, q': Proc)
    requires Timed(w, q) && SameClock(q, q')
    ensures Timed(w, q')
  {
  }

  lemma ClocksKept(w: World, a: Action)
    requires Inv(w) && Releases(w) && Clocks(w) && Enabled(w, a)
    ensures Clocks(Apply(w, a))
  {
    var w' := Apply(w, a);
    forall p | 0 <= p < |w'.procs|
      ensures Timed(w', w'.procs[p])
    {
      if p < |w.procs| {
        assert Timed(w, w.procs[p]);
        if a.Serve? { ServeTimed(w, a.id, p); }
        else if Subject(a) == Some(p) { SubjectTimed(w, a, p); }
        else if a.RedisReset? { ResetTimed(w, w.procs[p]); }
        else { QuietStep(w, a); QuietTimed(w, w', w.procs[p]); }
      }
    }
  }

  ghost predicate TimeInv(w: World) {
    Inv(w) && Releases(w) && Clocks(w)
  }

  lemma InitTimeInv(w: World)
    requires Init(w)
    ensures TimeInv(w)
  {
    InitInv(w);
  }

  lemma StepTimeInv(w: World, a: Action)
    requires TimeInv(w) && Enabled(w, a)
    ensures TimeInv(Apply(w, a))
  {
    StepInv(w, a);
    ReleasesKept(w, a);
    ClocksKept(w, a);
  }
}
