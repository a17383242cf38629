/** A match is spawned at most once, over every generation that ever owns the room. */
module RoomSpawn {
  import opened Wrappers
  import opened GameDomain
  import opened RoomLease
  import opened RuntimeOwner
  import opened GameMatch
  import opened RoomProtocol
  import opened RoomInvariant

  /** The owner record is started exactly when one start was recorded. */
  ghost predicate StartsRecorded(s: Servers) {
    && |s.starts| <= 1
    && ((s.store.owner.Some? && s.store.owner.value.started) <==> |s.starts| == 1)
    && (|s.starts| == 1 ==>
        1 <= s.starts[0].generation <= |s.claims|
        && s.claims[s.starts[0].generation - 1] == s.starts[0])
  }

  /** A generation after the one that started the match knows that it started. */
  ghost predicate Informed(s: Servers, doc: OwnerDoc) {
    |s.starts| == 1 && doc.generation > s.starts[0].generation ==> doc.started
  }

  ghost predicate StartReplyOk(s: Servers, m: Message) {
    && (m.request.MarkStarted? && m.reply == Some(Accepted) ==> s.starts == [m.request.ref])
    && (m.reply.Some? && m.reply.value.Claimed? ==>
        Informed(s, m.reply.value.claim) && m.reply.value.claim.generation <= |s.claims|)
  }

  ghost predicate SpawnOk(s: Servers, q: Proc) {
    && (q.owner.Some? ==> Informed(s, q.owner.value) && q.owner.value.generation <= |s.claims|)
    && (q.runtime.Spawned? ==> q.owner.Some? && q.lease.Some? && s.starts == [Ref(q)] && !q.owner.value.started)
    && (q.runtime.Restored? ==> q.owner.Some? && q.owner.value.started)
    && (q.at.SpawnMark? ==> q.owner.Some? && !q.owner.value.started && q.runtime.NoRuntime?)
    && (q.at.AbandonMark? ==> q.owner.Some? && !q.owner.value.started && q.runtime.NoRuntime?)
    && (q.at.RestoreLoad? || q.at.RestoreInstall? ==> q.owner.Some? && q.owner.value.started && q.runtime.NoRuntime?)
  }

  ghost predicate SpawnInv(w: World) {
    && StartsRecorded(w.servers)
    && (forall id :: 0 <= id < |w.net| ==> StartReplyOk(w.servers, w.net[id]))
    && (forall p :: 0 <= p < |w.procs| ==> SpawnOk(w.servers, w.procs[p]))
  }

  /** One server step, for the record itself and for what was already answered. */
  lemma ServeStarts(w: World, id: nat)
    requires Inv(w) && SpawnInv(w) && Enabled(w, Serve(id))
    ensures StartsRecorded(Apply(w, Serve(id)).servers)
    ensures Apply(w, Serve(id)).servers.starts == w.servers.starts || MarkedNow(w, id)
  {
    assert MessageOk(w, id);
    if w.net[id].request.MarkStarted? {
      ServeMark(w, id);
    } else if w.net[id].request.Complete? || w.net[id].request.SaveTrigger? {
      ServeBarrier(w, id);
    } else {
      ServeOther(w, id);
    }
  }

  lemma ServeMark(w: World, id: nat)
    requires Inv(w) && SpawnInv(w) && Enabled(w, Serve(id)) && w.net[id].request.MarkStarted? && MessageOk(w, id)
    ensures StartsRecorded(Apply(w, Serve(id)).servers)
    ensures Apply(w, Serve(id)).servers.starts == w.servers.starts || MarkedNow(w, id)
  {
  }

  lemma ServeBarrier(w: World, id: nat)
    requires Inv(w) && SpawnInv(w) && Enabled(w, Serve(id))
             && (w.net[id].request.Complete? || w.net[id].request.SaveTrigger?)
    ensures StartsRecorded(Apply(w, Serve(id)).servers) && Apply(w, Serve(id)).servers.starts == w.servers.starts
  {
  }

  lemma ServeOther(w: World, id: nat)
    requires Inv(w) && SpawnInv(w) && Enabled(w, Serve(id))
    requires !w.net[id].request.MarkStarted? && !w.net[id].request.Complete? && !w.net[id].request.SaveTrigger?
    ensures StartsRecorded(Apply(w, Serve(id)).servers) && Apply(w, Serve(id)).servers.starts == w.servers.starts
  {
  }

  ghost predicate MarkedNow(w: World, id: nat)
    requires Enabled(w, Serve(id))
  {
    var m := w.net[id];
    && m.request.MarkStarted? && w.servers.starts == []
    && Apply(w, Serve(id)).servers.starts == [m.request.ref]
    && m.request.ref.generation == |w.servers.claims|
    && Apply(w, Serve(id)).servers.claims == w.servers.claims
  }

  lemma ServeReplies(w: World, id: nat, i: nat)
    requires Inv(w) && SpawnInv(w) && Enabled(w, Serve(id)) && i < |w.net|
    ensures StartReplyOk(Apply(w, Serve(id)).servers, Apply(w, Serve(id)).net[i])
  {
    ServeStarts(w, id);
    StepExtends(w, Serve(id));
    assert MessageOk(w, id) && StartReplyOk(w.servers, w.net[i]);
  }

  lemma ServeProcs(w: World, id: nat, p: nat)
    requires Inv(w) && SpawnInv(w) && Enabled(w, Serve(id)) && p < |w.procs|
    ensures SpawnOk(Apply(w, Serve(id)).servers, w.procs[p])
  {
    ServeStarts(w, id);
    StepExtends(w, Serve(id));
    assert SpawnOk(w.servers, w.procs[p]);
  }

  /** Where a room starts, abandons or restores its match: only a choice leads there. */
  predicate StartPoint(at: Point) {
    at.SpawnMark? || at.AbandonMark? || at.RestoreLoad?
  }

  /** What an answered call can do to an activation's runtime and claim. */
  lemma SpawnMove(q: Proc, id: nat, reply: Reply, now: int, ttl: int)
    ensures var move := Answer(q, id, reply, now, ttl);
            && (move.Run? ==> q.at.SpawnMark? && reply.Accepted?)
            && (move.Own? ==> q.at.Claiming? && reply.Claimed? && move.claim == reply.claim)
            && (move.Grant? ==> BeforeLease(q.at))
            && (move.Goto? ==> !StartPoint(move.at) && (move.at.RestoreInstall? ==> q.at.RestoreLoad?))
  {
  }

  ghost predicate SpawnMoveOk(s: Servers, q: Proc, move: Move) {
    && (move.Run? ==> q.at.SpawnMark? && q.owner.Some? && q.lease.Some? && s.starts == [Ref(q)])
    && (move.Own? ==>
        q.runtime.NoRuntime? && q.owner.None? && Informed(s, move.claim)
        && move.claim.generation <= |s.claims|)
    && (move.Grant? ==> q.owner.None?)
    && (move.Goto? ==> !StartPoint(move.at) && (move.at.RestoreInstall? ==> q.at.RestoreLoad?))
  }

  lemma AdvanceSpawn(s: Servers, q: Proc, move: Move)
    requires SpawnOk(s, q) && SpawnMoveOk(s, q, move)
    ensures SpawnOk(s, Advance(q, move))
  {
  }

  lemma ReturnSpawn(w: World, p: nat)
    requires Inv(w) && SpawnInv(w) && Enabled(w, Return(p))
    ensures SpawnOk(w.servers, Apply(w, Return(p)).procs[p])
  {
    var q := w.procs[p];
    var m := w.net[q.call.value];
    assert ProcOk(w, p, q) && SpawnOk(w.servers, q) && StartReplyOk(w.servers, m);
    SpawnMove(q, q.call.value, m.reply.value, w.now, w.ttl);
    AdvanceSpawn(w.servers, q, Answer(q, q.call.value, m.reply.value, w.now, w.ttl));
  }

  lemma OtherSpawn(w: World, a: Action, p: nat)
    requires SpawnInv(w) && Enabled(w, a) && Subject(a) == Some(p) && p < |w.procs| && !a.Return?
    ensures SpawnOk(w.servers, Apply(w, a).procs[p])
  {
    assert SpawnOk(w.servers, w.procs[p]);
    if a.Choose? {
      ChooseSpawn(w.servers, w.procs[p], a.choice, w.now);
    } else if a.Fail? {
      FailSpawn(w.servers, w.procs[p]);
    } else if a.Stop? || a.Crash? || a.RenewReturn? {
      StopSpawn(w, a, p);
    } else {
      SideSpawn(w, a, p);
    }
  }

  lemma ChooseSpawn(s: Servers, q: Proc, choice: Choice, now: int)
    requires SpawnOk(s, q) && MayChoose(q, choice, now)
    ensures SpawnOk(s, Choosing(q, choice))
  {
  }

  lemma FailSpawn(s: Servers, q: Proc)
    requires SpawnOk(s, q)
    ensures SpawnOk(s, OnFailure(q))
  {
  }

  lemma StopSpawn(w: World, a: Action, p: nat)
    requires Enabled(w, a) && Subject(a) == Some(p) && p < |w.procs| && (a.Stop? || a.Crash? || a.RenewReturn?)
    requires SpawnOk(w.servers, w.procs[p])
    ensures SpawnOk(w.servers, Apply(w, a).procs[p])
  {
  }

  lemma SideSpawn(w: World, a: Action, p: nat)
    requires Enabled(w, a) && Subject(a) == Some(p) && p < |w.procs|
    requires a.Call? || a.RenewCall? || a.SaveCall? || a.SaveReturn? || a.SaveFail?
    requires SpawnOk(w.servers, w.procs[p])
    ensures SpawnOk(w.servers, Apply(w, a).procs[p])
  {
  }

  lemma QuietServers(w: World, a: Action)
    requires Enabled(w, a) && !a.Serve?
    ensures var s := w.servers; var s' := Apply(w, a).servers;
            s'.starts == s.starts && s'.claims == s.claims && s'.store.owner == s.store.owner
                && s'.store.result == s.store.result
            && s'.channel == s.channel
    ensures forall id :: 0 <= id < |w.net| ==> Apply(w, a).net[id] == w.net[id]
    ensures forall id :: |w.net| <= id < |Apply(w, a).net| ==> Apply(w, a).net[id].reply.None?
  {
  }

  lemma StepSpawnInv(w: World, a: Action)
    requires Inv(w) && SpawnInv(w) && Enabled(w, a)
    ensures SpawnInv(Apply(w, a))
  {
    if a.Serve? { ServeSpawnInv(w, a.id); } else { QuietSpawnInv(w, a); }
  }

  lemma ServeSpawnInv(w: World, id: nat)
    requires Inv(w) && SpawnInv(w) && Enabled(w, Serve(id))
    ensures SpawnInv(Apply(w, Serve(id)))
  {
    var w' := Apply(w, Serve(id));
    ServeStarts(w, id);
    forall i | 0 <= i < |w'.net| ensures StartReplyOk(w'.servers, w'.net[i]) { ServeReplies(w, id, i); }
    forall p | 0 <= p < |w'.procs| ensures SpawnOk(w'.servers, w'.procs[p]) { ServeProcs(w, id, p); }
  }

  lemma QuietSpawnInv(w: World, a: Action)
    requires Inv(w) && SpawnInv(w) && Enabled(w, a) && !a.Serve?
    ensures SpawnInv(Apply(w, a))
  {
    var w' := Apply(w, a);
    QuietServers(w, a);
    forall p | 0 <= p < |w'.procs| ensures SpawnOk(w'.servers, w'.procs[p]) { QuietProcs(w, a, p); }
  }

  lemma QuietProcs(w: World, a: Action, p: nat)
    requires Inv(w) && SpawnInv(w) && Enabled(w, a) && !a.Serve? && p < |Apply(w, a).procs|
    ensures SpawnOk(Apply(w, a).servers, Apply(w, a).procs[p])
  {
    QuietServers(w, a);
    if p < |w.procs| {
      assert SpawnOk(w.servers, w.procs[p]);
      if a == Return(p) { ReturnSpawn(w, p); } else if Subject(a) == Some(p) { OtherSpawn(w, a, p); }
    }
  }
}
