/** What is published through Redis, and the checkpoint it relies on, across owners: published
    generations never go back, and a protected change outlives the owner that announced it. */
module RoomCheckpoint {
  import opened Wrappers
  import opened GameDomain
  import opened RoomLease
  import opened RuntimeOwner
  import opened RuntimeCheckpoint
  import opened GameMatch
  import opened RoomProtocol
  import opened RoomInvariant
  import opened RoomSpawn

  /** A checkpoint was stored when the checkpoint had been wiped `wipe` times. */
  ghost predicate SavedOk(s: Servers, doc: CheckpointDoc, wipe: nat) {
    wipe <= s.wipes && (wipe == s.wipes ==> Covers(s.checkpoint, doc))
  }

  ghost predicate EventOk(s: Servers, event: Event) {
    && 1 <= event.generation <= |s.claims|
    && (event.covered > 0 ==> SavedOk(s, event.Protection(), event.wipe))
  }

  ghost predicate MessageSaved(s: Servers, m: Message) {
    && (m.request.SaveCheckpoint? && m.reply.Some? && m.reply.value.CheckpointSaved? ==>
          SavedOk(s, m.request.doc, m.reply.value.wipe))
    && (m.request.Publish? ==> EventOk(s, m.request.event))
  }

  /** The checkpoint a room protected last. */
  function ProtectedDoc(q: Proc): CheckpointDoc
    requires q.owner.Some?
  {
    CheckpointDoc(q.owner.value.generation, q.protected, q.critical)
  }

  ghost predicate BarrierOk(w: World, q: Proc) {
    && q.protected >= 0
    && (q.owner.None? ==> q.protected == 0 && q.saving.None?)
    && (q.protected > 0 ==> q.owner.Some? && SavedOk(w.servers, ProtectedDoc(q), q.wipe))
    && (q.saving.Some? ==>
          && q.saving.value.id < |w.net|
          && w.net[q.saving.value.id].request.SaveCheckpoint?
          && w.net[q.saving.value.id].request.doc == q.saving.value.doc
          && q.owner.Some? && q.saving.value.doc.epoch == q.owner.value.generation
          && q.saving.value.doc.sequence > q.protected)
  }

  ghost predicate ChannelOk(s: Servers) {
    && (forall i :: 0 <= i < |s.channel| ==> EventOk(s, s.channel[i]))
    && (forall i, j :: 0 <= i < j < |s.channel| ==> s.channel[i].generation <= s.channel[j].generation)
    && (s.checkpoint.Some? ==> 1 <= s.checkpoint.value.epoch <= |s.claims|)
  }

  ghost predicate CheckpointInv(w: World) {
    && ChannelOk(w.servers)
    && (forall id :: 0 <= id < |w.net| ==> MessageSaved(w.servers, w.net[id]))
    && (forall p :: 0 <= p < |w.procs| ==> BarrierOk(w, w.procs[p]))
  }

  /** Wipes are only ever counted up, and between wipes the stored checkpoint only moves forward. */
  ghost predicate Forward(s: Servers, s': Servers) {
    && s.claims <= s'.claims
    && s.wipes <= s'.wipes
    && (s.wipes == s'.wipes && s.checkpoint.Some? ==>
        Covers(s'.checkpoint, s.checkpoint.value))
  }

  lemma StepForward(w: World, a: Action)
    requires Enabled(w, a)
    ensures Forward(w.servers, Apply(w, a).servers)
  {
    StepExtends(w, a);
  }

  lemma SavedForward(s: Servers, s': Servers, doc: CheckpointDoc, wipe: nat)
    requires Forward(s, s') && SavedOk(s, doc, wipe)
    ensures SavedOk(s', doc, wipe)
  {
  }

  lemma EventForward(s: Servers, s': Servers, event: Event)
    requires Forward(s, s') && EventOk(s, event)
    ensures EventOk(s', event)
  {
    if event.covered > 0 { SavedForward(s, s', event.Protection(), event.wipe); }
  }

  /** Whoever writes under the lease in the key writes for the newest generation. */
  lemma HolderIsNewest(w: World, value: LeaseValue, generation: int)
    requires Inv(w) && Holds(w.servers.lease, w.now, value) && ClaimedUnder(w, generation, value.lease)
    ensures generation == |w.servers.claims|
  {
    assert w.servers.claims[generation - 1].lease == value.lease;
  }

  lemma ServeChannel(w: World, id: nat)
    requires Inv(w) && CheckpointInv(w) && Enabled(w, Serve(id))
    ensures ChannelOk(Apply(w, Serve(id)).servers)
  {
    var s, s' := w.servers, Apply(w, Serve(id)).servers;
    StepForward(w, Serve(id));
    assert MessageOk(w, id) && MessageSaved(s, w.net[id]);
    forall i | 0 <= i < |s.channel| ensures EventOk(s', s.channel[i]) { EventForward(s, s', s.channel[i]); }
    match w.net[id].request
    case Publish(value, event) => if Holds(s.lease, w.now, value) { HolderIsNewest(w, value, event.generation); }
    case _ =>
  }

  lemma ServeMessage(w: World, id: nat, i: nat)
    requires Inv(w) && CheckpointInv(w) && Enabled(w, Serve(id)) && i < |w.net|
    ensures MessageSaved(Apply(w, Serve(id)).servers, Apply(w, Serve(id)).net[i])
  {
    var s, s' := w.servers, Apply(w, Serve(id)).servers;
    StepForward(w, Serve(id));
    var m := w.net[i];
    assert MessageSaved(s, m);
    if m.request.Publish? { EventForward(s, s', m.request.event); }
    if m.request.SaveCheckpoint? && m.reply.Some? && m.reply.value.CheckpointSaved? {
      SavedForward(s, s', m.request.doc, m.reply.value.wipe);
    }
  }

  lemma QuietMessage(w: World, a: Action, i: nat)
    requires Inv(w) && CheckpointInv(w) && Enabled(w, a) && !a.Serve? && i < |w.net|
    ensures MessageSaved(Apply(w, a).servers, w.net[i])
  {
    var s, s' := w.servers, Apply(w, a).servers;
    StepForward(w, a);
    var m := w.net[i];
    assert MessageSaved(s, m);
    if m.request.Publish? { EventForward(s, s', m.request.event); }
    if m.request.SaveCheckpoint? && m.reply.Some? && m.reply.value.CheckpointSaved? {
      SavedForward(s, s', m.request.doc, m.reply.value.wipe);
    }
  }

  /** A room announces a protected change only after the checkpoint that carries it was stored. */
  lemma NewMessage(w: World, a: Action)
    requires Inv(w) && CheckpointInv(w) && Enabled(w, a) && |Apply(w, a).net| > |w.net|
    ensures MessageSaved(Apply(w, a).servers, Apply(w, a).net[|w.net|])
  {
    assert ProcOk(w, a.p, w.procs[a.p]) && BarrierOk(w, w.procs[a.p]);
    if a.PublishCall? { NewEvent(w, a); } else if a.Call? { CallRequestPlain(w.procs[a.p]); }
  }

  lemma NewEvent(w: World, a: Action)
    requires Inv(w) && Enabled(w, a) && a.PublishCall? && ProcOk(w, a.p, w.procs[a.p]) && BarrierOk(w, w.procs[a.p])
    ensures |Apply(w, a).net| == |w.net| + 1 && MessageSaved(Apply(w, a).servers, Apply(w, a).net[|w.net|])
  {
  }

  lemma CallRequestPlain(q: Proc)
    ensures RequestAt(q).Some? ==> !RequestAt(q).value.SaveCheckpoint? && !RequestAt(q).value.Publish?
  {
  }

  lemma BarrierKept(w: World, w': World, q: Proc)
    requires BarrierOk(w, q) && Forward(w.servers, w'.servers) && Extends(w, w')
    ensures BarrierOk(w', q)
  {
    if q.protected > 0 { SavedForward(w.servers, w'.servers, ProtectedDoc(q), q.wipe); }
    if q.saving.Some? { assert KeepsMessage(w.net[q.saving.value.id], w'.net[q.saving.value.id]); }
  }

  lemma AdvanceBarrier(w: World, q: Proc, move: Move)
    requires BarrierOk(w, q) && (move.Own? ==> q.owner.None?)
    ensures BarrierOk(w, Advance(q, move))
  {
  }

  lemma SubjectBarrier(w: World, a: Action, p: nat)
    requires Inv(w) && CheckpointInv(w) && Enabled(w, a) && Subject(a) == Some(p) && p < |w.procs|
    requires !a.SaveCall?
    ensures BarrierOk(w, Apply(w, a).procs[p])
  {
    var q := w.procs[p];
    assert BarrierOk(w, q);
    if a == Return(p) { ReturnBarrier(w, p); }
    else if a == SaveReturn(p) { SaveReturnBarrier(w, p, q); }
    else { OtherBarrier(w, a, p, q); }
  }

  lemma ReturnBarrier(w: World, p: nat)
    requires Inv(w) && CheckpointInv(w) && Enabled(w, Return(p))
    ensures BarrierOk(w, Apply(w, Return(p)).procs[p])
  {
    var q := w.procs[p];
    assert BarrierOk(w, q) && ProcOk(w, p, q);
    var reply := w.net[q.call.value].reply.value;
    SpawnMove(q, q.call.value, reply, w.now, w.ttl);
    AdvanceBarrier(w, q, Answer(q, q.call.value, reply, w.now, w.ttl));
  }

  lemma SaveReturnBarrier(w: World, p: nat, q: Proc)
    requires p < |w.procs| && q == w.procs[p] && BarrierOk(w, q) && Enabled(w, SaveReturn(p))
    requires MessageSaved(w.servers, w.net[q.saving.value.id])
    ensures BarrierOk(w, Apply(w, SaveReturn(p)).procs[p])
  {
  }

  lemma OtherBarrier(w: World, a: Action, p: nat, q: Proc)
    requires p < |w.procs| && q == w.procs[p] && BarrierOk(w, q)
    requires Enabled(w, a) && Subject(a) == Some(p) && !a.SaveCall? && !a.Return? && !a.SaveReturn?
    ensures BarrierOk(w, Apply(w, a).procs[p])
  {
    if a.Choose? {
      ChooseBarrier(w, q, a.choice);
    } else if a.Fail? {
      FailBarrier(w, q);
    } else {
      SideBarrier(w, a, p, q);
    }
  }

  lemma ChooseBarrier(w: World, q: Proc, choice: Choice)
    requires BarrierOk(w, q)
    ensures BarrierOk(w, Choosing(q, choice))
  {
  }

  lemma FailBarrier(w: World, q: Proc)
    requires BarrierOk(w, q)
    ensures BarrierOk(w, OnFailure(q))
  {
  }

  lemma SideBarrier(w: World, a: Action, p: nat, q: Proc)
    requires p < |w.procs| && q == w.procs[p] && BarrierOk(w, q)
    requires Enabled(w, a) && Subject(a) == Some(p) && !a.SaveCall? && !a.Return? && !a.SaveReturn? && !a.Choose?
             && !a.Fail?
    ensures BarrierOk(w, Apply(w, a).procs[p])
  {
  }

  lemma StepCheckpointInv(w: World, a: Action)
    requires Inv(w) && CheckpointInv(w) && Enabled(w, a)
    ensures CheckpointInv(Apply(w, a))
  {
    if a.Serve? { ServeChannel(w, a.id); } else { QuietChannel(w, a); }
    MessagesStaySaved(w, a);
    BarriersKept(w, a);
  }

  lemma MessagesStaySaved(w: World, a: Action)
    requires Inv(w) && CheckpointInv(w) && Enabled(w, a)
    ensures var w' := Apply(w, a); forall i :: 0 <= i < |w'.net| ==> MessageSaved(w'.servers, w'.net[i])
  {
    var w' := Apply(w, a);
    forall i | 0 <= i < |w'.net|
      ensures MessageSaved(w'.servers, w'.net[i])
    {
      if a.Serve? {
        ServeMessage(w, a.id, i);
      } else {
        QuietServers(w, a);
        if i < |w.net| { QuietMessage(w, a, i); } else { StepGrows(w, a); NewMessage(w, a); }
      }
    }
  }

  lemma BarriersKept(w: World, a: Action)
    requires Inv(w) && CheckpointInv(w) && Enabled(w, a)
    ensures var w' := Apply(w, a); forall p :: 0 <= p < |w'.procs| ==> BarrierOk(w', w'.procs[p])
  {
    var w' := Apply(w, a);
    StepForward(w, a);
    StepExtends(w, a);
    forall p | 0 <= p < |w'.procs|
      ensures BarrierOk(w', w'.procs[p])
    {
      if p < |w.procs| {
        assert BarrierOk(w, w.procs[p]);
        if a.SaveCall? && a.p == p { SaveCallBarrier(w, a); }
        else if Subject(a) == Some(p) { SubjectBarrier(w, a, p); BarrierKept(w, w', w'.procs[p]); }
        else { BarrierKept(w, w', w.procs[p]); }
      }
    }
  }

  lemma StepGrows(w: World, a: Action)
    requires Enabled(w, a)
    ensures |w.net| <= |Apply(w, a).net| <= |w.net| + 1
  {
  }

  lemma QuietChannel(w: World, a: Action)
    requires Inv(w) && CheckpointInv(w) && Enabled(w, a) && !a.Serve?
    ensures ChannelOk(Apply(w, a).servers)
  {
    var s, s' := w.servers, Apply(w, a).servers;
    StepForward(w, a);
    QuietServers(w, a);
    forall i | 0 <= i < |s.channel| ensures EventOk(s', s.channel[i]) { EventForward(s, s', s.channel[i]); }
  }

  lemma SaveCallBarrier(w: World, a: Action)
    requires CheckpointInv(w) && Enabled(w, a) && a.SaveCall?
    ensures BarrierOk(Apply(w, a), Apply(w, a).procs[a.p])
  {
    assert BarrierOk(w, w.procs[a.p]);
  }
}
