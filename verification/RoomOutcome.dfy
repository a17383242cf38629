/** A session keeps at most one result, stored by the generation that owns it, and the owner
    record is frozen from then on. */
module RoomOutcome {
  import opened Wrappers
  import opened GameDomain
  import opened RoomLease
  import opened RuntimeOwner
  import opened GameMatch
  import opened RoomProtocol
  import opened RoomInvariant
  import opened RoomSpawn

  ghost predicate ResultRecorded(s: MatchStore) {
    && (s.result.Some? <==> s.owner.Some? && s.owner.value.completed)
    && (s.result.Some? ==> s.owner.value.started && s.result.value.runtimeEpoch == s.owner.value.generation)
  }

  /** The stored result is the one `c` proposed, at stored precision. */
  predicate Holding(s: MatchStore, c: MatchCompletion) {
    s.result.Some? && SameMatchResult(s.result.value, Proposed(c))
  }

  ghost predicate OutcomeReplyOk(s: MatchStore, m: Message) {
    && (m.request.Complete? && m.reply.Some? && m.reply.value.Completed? && m.reply.value.outcome.Success() ==>
        Holding(s, m.request.completion))
    && (m.reply.Some? && m.reply.value.ResultRead? && m.reply.value.result.Some? ==> s.result == m.reply.value.result)
  }

  ghost predicate OutcomeOk(s: MatchStore, q: Proc) {
    && (q.at.ReadBack? ==> Holding(s, q.at.completion))
    && (q.committed.Some? ==> Holding(s, q.committed.value))
    && (q.released ==> q.committed.Some? && q.owner.Some? && q.lease.Some?)
  }

  ghost predicate OutcomeInv(w: World) {
    && ResultRecorded(w.servers.store)
    && (forall id :: 0 <= id < |w.net| ==> OutcomeReplyOk(w.servers.store, w.net[id]))
    && (forall p :: 0 <= p < |w.procs| ==> OutcomeOk(w.servers.store, w.procs[p]))
  }

  /** A stored result stays, the record it closed stays as it was, and a trigger is never replaced. */
  ghost predicate Settled(s: MatchStore, s': MatchStore) {
    && (s.result.Some? ==> s'.result == s.result)
    && (s.owner.Some? && s.owner.value.completed ==> s'.owner == s.owner)
    && (s.owner.Some? ==> s'.owner.Some? && s.owner.value.generation <= s'.owner.value.generation
                          && (s.owner.value.started ==> s'.owner.value.started)
                          && (s.owner.value.trigger.Some? ==> s'.owner.value.trigger == s.owner.value.trigger))
  }

  lemma ServeSettled(w: World, id: nat)
    requires Inv(w) && OutcomeInv(w) && Enabled(w, Serve(id))
    ensures Settled(w.servers.store, Apply(w, Serve(id)).servers.store)
    ensures ResultRecorded(Apply(w, Serve(id)).servers.store)
  {
    assert MessageOk(w, id);
  }

  lemma StepSettled(w: World, a: Action)
    requires Inv(w) && OutcomeInv(w) && Enabled(w, a)
    ensures Settled(w.servers.store, Apply(w, a).servers.store)
  {
    if a.Serve? { ServeSettled(w, a.id); } else { QuietServers(w, a); }
  }

  lemma ServeOutcome(w: World, id: nat, i: nat)
    requires Inv(w) && OutcomeInv(w) && Enabled(w, Serve(id)) && i < |w.net|
    ensures OutcomeReplyOk(Apply(w, Serve(id)).servers.store, Apply(w, Serve(id)).net[i])
  {
    ServeSettled(w, id);
    assert OutcomeReplyOk(w.servers.store, w.net[i]);
    if i == id && w.net[id].request.Complete? { StoredMatchesProposal(w.net[id].request.completion); }
  }

  /** A room reads a result back only after a success or after finding its own proposal stored. */
  lemma OutcomeMove(q: Proc, id: nat, reply: Reply, now: int, ttl: int)
    ensures var move := Answer(q, id, reply, now, ttl);
            && (move.Seal? ==> q.at.ReadBack? && move.completion == q.at.completion)
            && (move.Goto? && move.at.ReadBack? ==>
                  || (q.at.Commit? && move.at.completion == q.at.completion && reply.Completed?
                      && reply.outcome.Success())
                  || (q.at.Resolve? && move.at.completion == q.at.completion && reply.ResultRead? && reply.result.Some?
                      && SameMatchResult(reply.result.value, Proposed(q.at.completion))))
  {
  }

  lemma ReturnOutcome(w: World, p: nat)
    requires Inv(w) && OutcomeInv(w) && Enabled(w, Return(p))
    ensures OutcomeOk(w.servers.store, Apply(w, Return(p)).procs[p])
  {
    var q := w.procs[p];
    var m := w.net[q.call.value];
    assert ProcOk(w, p, q) && OutcomeOk(w.servers.store, q) && OutcomeReplyOk(w.servers.store, m);
    OutcomeMove(q, q.call.value, m.reply.value, w.now, w.ttl);
    AdvanceOutcome(w.servers.store, q, Answer(q, q.call.value, m.reply.value, w.now, w.ttl));
  }

  lemma AdvanceOutcome(s: MatchStore, q: Proc, move: Move)
    requires OutcomeOk(s, q)
    requires move.Seal? ==> Holding(s, move.completion)
    requires move.Goto? && move.at.ReadBack? ==> Holding(s, move.at.completion)
    ensures OutcomeOk(s, Advance(q, move))
  {
  }

  lemma OtherOutcome(w: World, a: Action, p: nat)
    requires OutcomeInv(w) && Enabled(w, a) && Subject(a) == Some(p) && p < |w.procs| && !a.Return?
    ensures OutcomeOk(w.servers.store, Apply(w, a).procs[p])
  {
    assert OutcomeOk(w.servers.store, w.procs[p]);
    if a.Choose? {
      ChooseOutcome(w.servers.store, w.procs[p], a.choice, w.now);
    } else if a.Fail? {
      FailOutcome(w.servers.store, w.procs[p]);
    } else {
      SideOutcome(w, a, p);
    }
  }

  lemma ChooseOutcome(s: MatchStore, q: Proc, choice: Choice, now: int)
    requires OutcomeOk(s, q) && MayChoose(q, choice, now)
    ensures OutcomeOk(s, Choosing(q, choice))
  {
  }

  lemma FailOutcome(s: MatchStore, q: Proc)
    requires OutcomeOk(s, q)
    ensures OutcomeOk(s, OnFailure(q))
  {
  }

  lemma SideOutcome(w: World, a: Action, p: nat)
    requires Enabled(w, a) && Subject(a) == Some(p) && p < |w.procs| && !a.Return? && !a.Choose? && !a.Fail?
    requires OutcomeOk(w.servers.store, w.procs[p])
    ensures OutcomeOk(w.servers.store, Apply(w, a).procs[p])
  {
  }

  lemma StepOutcomeInv(w: World, a: Action)
    requires Inv(w) && OutcomeInv(w) && Enabled(w, a)
    ensures OutcomeInv(Apply(w, a))
  {
    var w' := Apply(w, a);
    if a.Serve? {
      ServeSettled(w, a.id);
      forall i | 0 <= i < |w'.net| ensures OutcomeReplyOk(w'.servers.store, w'.net[i]) { ServeOutcome(w, a.id, i); }
      forall p | 0 <= p < |w'.procs|
        ensures OutcomeOk(w'.servers.store, w'.procs[p])
      {
        assert OutcomeOk(w.servers.store, w.procs[p]);
      }
    } else {
      QuietServers(w, a);
      forall p | 0 <= p < |w'.procs|
        ensures OutcomeOk(w'.servers.store, w'.procs[p])
      {
        if p < |w.procs| {
          assert OutcomeOk(w.servers.store, w.procs[p]);
          if a == Return(p) { ReturnOutcome(w, p); } else if Subject(a) == Some(p) { OtherOutcome(w, a, p); }
        }
      }
    }
  }

  // ----- the captured result

  /** Nobody who still looks for a fallback result has captured one. */
  predicate Undecided(q: Proc) {
    q.at.AbandonMark? || q.at.RestoreLoad? || q.at.RestoreInstall? ==> q.proposal.None?
  }

  predicate Keeps(q: Proc, q': Proc) {
    Undecided(q') && (q.proposal.Some? ==> q'.proposal == q.proposal)
  }

  /** Only the points that look for a fallback fall back, and nothing leads to them but a choice. */
  lemma FallbackMove(q: Proc, id: nat, reply: Reply, now: int, ttl: int)
    ensures var move := Answer(q, id, reply, now, ttl);
            && (move.Fall? ==> q.at.AbandonMark? || q.at.RestoreLoad?)
            && (move.Goto? && move.at.RestoreInstall? ==> q.at.RestoreLoad?)
            && (move.Goto? ==> !move.at.AbandonMark? && !move.at.RestoreLoad?)
  {
  }

  lemma AdvanceKeeps(q: Proc, move: Move)
    requires Undecided(q)
    requires move.Fall? ==> q.proposal.None?
    requires move.Goto? && (move.at.AbandonMark? || move.at.RestoreLoad? || move.at.RestoreInstall?) ==>
             q.proposal.None?
    ensures Keeps(q, Advance(q, move))
  {
  }

  lemma StepKeepsProposal(w: World, a: Action, p: nat)
    requires Enabled(w, a) && p < |w.procs| && Undecided(w.procs[p])
    ensures Keeps(w.procs[p], Apply(w, a).procs[p])
  {
    if a == Return(p) {
      var q := w.procs[p];
      var reply := w.net[q.call.value].reply.value;
      FallbackMove(q, q.call.value, reply, w.now, w.ttl);
      AdvanceKeeps(q, Answer(q, q.call.value, reply, w.now, w.ttl));
    } else if Subject(a) == Some(p) {
      OtherKeepsProposal(w, a, p);
    }
  }

  lemma OtherKeepsProposal(w: World, a: Action, p: nat)
    requires Enabled(w, a) && p < |w.procs| && Undecided(w.procs[p]) && Subject(a) == Some(p) && !a.Return?
    ensures Keeps(w.procs[p], Apply(w, a).procs[p])
  {
  }

  lemma BeginUndecided(w: World, a: Action)
    requires Enabled(w, a) && |Apply(w, a).procs| > |w.procs|
    ensures Undecided(Apply(w, a).procs[|w.procs|]) && |Apply(w, a).procs| == |w.procs| + 1
  {
  }
}
