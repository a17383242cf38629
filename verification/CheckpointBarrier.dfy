/** The barrier between a runtime's publications and the checkpoints that protect them. The
    publisher and the finalizer share it; each of its methods runs under the barrier's mutex. */
module CheckpointBarrier {
  import opened Wrappers

  /** A checkpoint as the runtime hands it over. */
  datatype Checkpoint = Checkpoint(sequence: int, critical: string)

  /** How a save can end: the store answers, or it never got that far. */
  datatype SaveReply = Stored | LeaseGone | OutOfOrder | Unreachable

  datatype Verdict = Passed | Missing | Order | LeaseLost | Failed

  /** The history of one room: what was stored, cleared for publication, published, and released. */
  datatype Entry = Saved(checkpoint: Checkpoint) | Cleared(checkpoint: Checkpoint) | Announced(checkpoint: Checkpoint)
      | Released

  /** The last checkpoint stored in a history. */
  function LastSaved(log: seq<Entry>): Option<Checkpoint> {
    if log == [] then None
    else if log[|log| - 1].Saved? then Some(log[|log| - 1].checkpoint)
    else LastSaved(log[..|log| - 1])
  }

  /** A checkpoint nobody needs to store before it: it has no positive sequence and no critical key. */
  predicate Blank(c: Checkpoint) {
    c.sequence <= 0 && c.critical == ""
  }

  /** Entry i keeps the barrier: a cleared change is carried by the last stored checkpoint, a
      published change was cleared unless the barrier was released, saves only move forward, and
      nothing is saved after the release. */
  ghost predicate Kept(log: seq<Entry>, i: nat)
    requires i < |log|
  {
    match log[i]
    case Saved(c) =>
      && Released !in log[..i]
      && c.sequence > 0
      && (LastSaved(log[..i]).Some? ==> c.sequence > LastSaved(log[..i]).value.sequence)
    case Cleared(c) =>
      if LastSaved(log[..i]).Some? then LastSaved(log[..i]).value.critical == c.critical else Blank(c)
    case Announced(c) => Cleared(c) in log[..i] || Released in log[..i]
    case Released => true
  }

  ghost predicate BarrierHolds(log: seq<Entry>) {
    forall i :: 0 <= i < |log| ==> Kept(log, i)
  }

  lemma BarrierStep(log: seq<Entry>, entry: Entry)
    requires BarrierHolds(log) && Kept(log + [entry], |log|)
    ensures BarrierHolds(log + [entry])
  {
    forall i | 0 <= i < |log| + 1
      ensures Kept(log + [entry], i)
    {
      if i < |log| {
        assert Kept(log, i);
        assert (log + [entry])[..i] == log[..i];
      }
    }
  }

  lemma LastSavedStep(log: seq<Entry>, entry: Entry)
    ensures LastSaved(log + [entry]) == if entry.Saved? then Some(entry.checkpoint) else LastSaved(log)
  {
    assert (log + [entry])[..|log|] == log;
  }

  /** The last save of a history is one of its entries. */
  lemma {:induction false} LastSavedIsLogged(log: seq<Entry>)
    requires LastSaved(log).Some?
    ensures Saved(LastSaved(log).value) in log
  {
    if !log[|log| - 1].Saved? { LastSavedIsLogged(log[..|log| - 1]); }
  }

  /** Until the release, every published change other than a blank one was stored before: some
      checkpoint with its critical key precedes it in the history. */
  lemma PublishedWasStored(log: seq<Entry>, i: nat)
    requires BarrierHolds(log) && i < |log| && log[i].Announced? && Released !in log[..i] && !Blank(log[i].checkpoint)
    ensures exists k :: 0 <= k < i && log[k].Saved? && log[k].checkpoint.critical == log[i].checkpoint.critical
  {
    assert Kept(log, i);
    var c :| 0 <= c < i && log[c] == Cleared(log[i].checkpoint);
    assert Kept(log, c);
    LastSavedIsLogged(log[..c]);
    var k :| 0 <= k < c && log[k] == Saved(LastSaved(log[..c]).value);
  }

  /** Saves of a history strictly rise. */
  lemma {:induction false} SavesRise(log: seq<Entry>, j: nat, k: nat)
    requires BarrierHolds(log) && j < k < |log| && log[j].Saved? && log[k].Saved?
    ensures log[j].checkpoint.sequence < log[k].checkpoint.sequence
  {
    assert Kept(log, k);
    forall i | 0 <= i < k ensures Kept(log[..k], i) {
      assert Kept(log, i) && log[..k][..i] == log[..i];
    }
    SavedAtMostLast(log[..k], j);
  }

  lemma {:induction false} SavedAtMostLast(log: seq<Entry>, j: nat)
    requires BarrierHolds(log)
    requires j < |log| && log[j].Saved?
    ensures LastSaved(log).Some? && log[j].checkpoint.sequence <= LastSaved(log).value.sequence
  {
    var last := |log| - 1;
    if j < last {
      forall i | 0 <= i < last ensures Kept(log[..last], i) {
        assert Kept(log, i) && log[..last][..i] == log[..i];
      }
      SavedAtMostLast(log[..last], j);
      assert Kept(log, last);
    }
  }

  /** A save that moves forward, with the change it clears, keeps the barrier. */
  lemma SaveStep(log: seq<Entry>, c: Checkpoint)
    requires BarrierHolds(log) && Kept(log + [Saved(c)], |log|)
    ensures BarrierHolds(log + [Saved(c), Cleared(c)]) && LastSaved(log + [Saved(c), Cleared(c)]) == Some(c)
  {
    LastSavedStep(log, Saved(c));
    LastSavedStep(log + [Saved(c)], Cleared(c));
    BarrierStep(log, Saved(c));
    assert (log + [Saved(c)] + [Cleared(c)])[..|log| + 1] == log + [Saved(c)];
    BarrierStep(log + [Saved(c)], Cleared(c));
    assert log + [Saved(c)] + [Cleared(c)] == log + [Saved(c), Cleared(c)];
  }

  class CheckpointState {
    var released: bool
    var sequence: int
    var critical: string
    var savedAt: Option<int>

    ghost var log: seq<Entry>
    // Saves sent to the store, whether or not they took effect.
    ghost var attempts: nat

    constructor ()
      ensures Valid() && !released && log == [] && attempts == 0
    {
      released, sequence, critical, savedAt := false, 0, "", None;
      log, attempts := [], 0;
    }

    ghost predicate Valid()
      reads this
    {
      && BarrierHolds(log)
      && (released <==> Released in log)
      && (match LastSaved(log)
          case Some(c) => sequence == c.sequence && critical == c.critical && savedAt.Some?
          case None => sequence == 0 && critical == "" && savedAt.None?)
      && sequence >= 0
    }

    /** Whether the protected checkpoint is good enough for `c` without a save. */
    predicate Suffices(c: Checkpoint, force: bool, now: int, interval: int)
      reads this
    {
      && c.critical == critical
      && (c.sequence <= sequence || (!force && savedAt.Some? && now - savedAt.value < interval))
    }

    /** Before the first save the guard lets exactly the blank changes pass, however it is called. */
    lemma UnstoredIffBlank(c: Checkpoint, force: bool, now: int, interval: int)
      requires Valid() && LastSaved(log).None?
      ensures Suffices(c, force, now, interval) <==> Blank(c)
    {
    }

    /** `reply` is what the store makes of the save, if it is sent. The store refuses a sequence
        that is not positive, and a change is cleared only once the store said it has it. */
    method Protect(checkpoint: Option<Checkpoint>, force: bool, now: int, interval: int, leaseValid: bool,
        reply: SaveReply) returns (v: Verdict)
      requires Valid()
      modifies this
      ensures Valid() && released == old(released) && old(sequence) <= sequence
      ensures old(released) ==>
                attempts == old(attempts) && sequence == old(sequence) && critical == old(critical)
                && savedAt == old(savedAt)
      ensures checkpoint.None? ==> v == Missing && log == old(log)
      ensures checkpoint.Some? && old(released) ==> v == Passed && log == old(log)
      ensures checkpoint.Some? && !old(released) ==>
                var c := checkpoint.value;
                var saves := !old(Suffices(c, force, now, interval)) && c.sequence > old(sequence);
                && (v == Passed <==> old(Suffices(c, force, now, interval)) || (saves && leaseValid && reply == Stored))
                && (v == Order <==>
                    !old(Suffices(c, force, now, interval))
                    && (c.sequence <= old(sequence) || (leaseValid && reply == OutOfOrder)))
                && (v == Passed && saves ==> sequence == c.sequence && critical == c.critical && savedAt == Some(now)
                                             && log == old(log) + [Saved(c), Cleared(c)])
                && (v == Passed && !saves ==>
                    unchanged(`sequence, `critical, `savedAt) && log == old(log) + [Cleared(c)])
                && (v != Passed ==> unchanged(`sequence, `critical, `savedAt, `log))
                && attempts == old(attempts) + (if saves && leaseValid then 1 else 0)
      ensures checkpoint.Some? && !old(released) && old(LastSaved(log)).None? ==>
                (v == Passed && attempts == old(attempts) <==> Blank(checkpoint.value))
    {
      if checkpoint.None? {
        return Missing;
      }
      var c := checkpoint.value;
      if released {
        return Passed; // frames still queued must not recreate the checkpoint
      }
      if c.sequence <= sequence {
        if c.critical == critical {
          Clear(c);
          return Passed;
        }
        return Order;
      }
      if !force && c.critical == critical && savedAt.Some? && now - savedAt.value < interval {
        Clear(c);
        return Passed;
      }
      if !leaseValid {
        return LeaseLost;
      }
      attempts := attempts + 1;
      match reply {
        case LeaseGone => return LeaseLost;
        case OutOfOrder => return Order;
        case Unreachable => return Failed;
        case Stored =>
      }
      Protected(c, now);
      return Passed;
    }

    /** The store has the checkpoint. */
    method Protected(c: Checkpoint, now: int)
      requires Valid() && !released && c.sequence > sequence
      modifies this`sequence, this`critical, this`savedAt, this`log
      ensures Valid() && sequence == c.sequence && critical == c.critical && savedAt == Some(now)
      ensures log == old(log) + [Saved(c), Cleared(c)]
    {
      assert (log + [Saved(c)])[..|log|] == log;
      SaveStep(log, c);
      log := log + [Saved(c), Cleared(c)];
      sequence, critical, savedAt := c.sequence, c.critical, Some(now);
    }

    /** The release outlives every save still to come. */
    method Release()
      requires Valid()
      modifies this`released, this`log
      ensures Valid() && released && log == old(log) + [Released] && attempts == old(attempts)
    {
      BarrierStep(log, Entry.Released);
      LastSavedStep(log, Entry.Released);
      released := true;
      log := log + [Entry.Released];
    }

    /** The publication of a change that was cleared, or needs no clearing any more. */
    ghost method Announce(c: Checkpoint)
      requires Valid() && (Cleared(c) in log || released)
      modifies this`log
      ensures Valid() && log == old(log) + [Announced(c)]
    {
      assert (log + [Announced(c)])[..|log|] == log;
      BarrierStep(log, Announced(c));
      LastSavedStep(log, Announced(c));
      log := log + [Announced(c)];
    }

    ghost method Clear(c: Checkpoint)
      requires Valid() && c.critical == critical && (c.sequence <= sequence || savedAt.Some?)
      modifies this`log
      ensures Valid() && log == old(log) + [Cleared(c)]
    {
      assert (log + [Cleared(c)])[..|log|] == log;
      BarrierStep(log, Cleared(c));
      LastSavedStep(log, Cleared(c));
      log := log + [Cleared(c)];
    }
  }

  // ----- the publisher, and the finalizer that runs beside it

  /** What the finalizer does between two steps of the publisher. */
  datatype FinalStep = ForceSave(checkpoint: Checkpoint, now: int, leaseValid: bool, reply: SaveReply) | DropCheckpoint

  /** One runtime update with everything its publication meets. */
  datatype Update = Update(
    checkpoint: Option<Checkpoint>,
    grant: bool,
    now: int,
    leaseValid: bool,
    reply: SaveReply,
    between: seq<FinalStep>,
    published: bool)

  /** What became of one update. */
  datatype Outcome = Skipped | LeaseInvalid | Unprotected | Sent(published: bool)

  /** The changes announced in a history, in order. */
  function Announcements(log: seq<Entry>): seq<Checkpoint> {
    if log == [] then []
    else if log[|log| - 1].Announced? then Announcements(log[..|log| - 1]) + [log[|log| - 1].checkpoint]
    else Announcements(log[..|log| - 1])
  }

  lemma AnnouncementsStep(log: seq<Entry>, entry: Entry)
    ensures Announcements(log + [entry]) == if entry.Announced? then Announcements(log) + [entry.checkpoint]
            else Announcements(log)
  {
    assert (log + [entry])[..|log|] == log;
  }

  lemma {:induction false} AnnouncementsAppend(log: seq<Entry>, more: seq<Entry>)
    requires forall i :: 0 <= i < |more| ==> !more[i].Announced?
    ensures Announcements(log + more) == Announcements(log)
  {
    if more == [] {
      assert log + more == log;
    } else {
      var last := |more| - 1;
      AnnouncementsAppend(log, more[..last]);
      AnnouncementsStep(log + more[..last], more[last]);
      assert log + more == log + more[..last] + [more[last]];
    }
  }

  /** The changes of the updates that were sent, in order. */
  function Sendings(updates: seq<Update>, outcomes: seq<Outcome>): seq<Checkpoint>
    requires |outcomes| <= |updates|
  {
    if outcomes == [] then []
    else
      var last := |outcomes| - 1;
      Sendings(updates, outcomes[..last]) +
      if outcomes[last].Sent? && updates[last].checkpoint.Some? then [updates[last].checkpoint.value] else []
  }

  class Publisher {
    const state: CheckpointState
    const interval: int
    var stopped: bool

    constructor (state: CheckpointState, interval: int)
      ensures this.state == state && this.interval == interval && !stopped
    {
      this.state, this.interval, stopped := state, interval, false;
    }

    /** The finalizer keeps the barrier whenever it runs, and announces no change. */
    method Finalize(steps: seq<FinalStep>)
      requires state.Valid()
      modifies state
      ensures state.Valid() && old(state.log) <= state.log && Announcements(state.log) == old(Announcements(state.log))
      ensures old(state.released) ==> state.released && state.attempts == old(state.attempts)
      ensures state.released == (old(state.released) || DropCheckpoint in steps)
    {
      for i := 0 to |steps|
        invariant state.Valid() && old(state.log) <= state.log
                  && Announcements(state.log) == old(Announcements(state.log))
        invariant state.released == (old(state.released) || DropCheckpoint in steps[..i])
        invariant old(state.released) ==> state.released && state.attempts == old(state.attempts)
      {
        FinalStep(steps[i]);
        assert steps[..i + 1] == steps[..i] + [steps[i]];
      }
      assert steps[..|steps|] == steps;
    }

    /** The final save is forced: only a checkpoint already protected goes without one. The release is
        recorded whatever the deletion does. */
    method FinalStep(step: FinalStep)
      requires state.Valid()
      modifies state
      ensures state.Valid() && old(state.log) <= state.log && Announcements(state.log) == old(Announcements(state.log))
      ensures old(state.released) ==> state.released && state.attempts == old(state.attempts)
      ensures step.DropCheckpoint? ==> state.released && state.log == old(state.log) + [Released]
      ensures step.ForceSave? ==>
                && state.released == old(state.released)
                && var c := step.checkpoint;
                && var sends := !old(state.released) && c.sequence > old(state.sequence);
                && state.attempts == old(state.attempts) + (if sends && step.leaseValid then 1 else 0)
                && if sends && step.leaseValid && step.reply == Stored then
                     state.sequence == c.sequence && state.critical == c.critical && state.savedAt == Some(step.now)
                     && state.log == old(state.log) + [Saved(c), Cleared(c)]
                   else
                     state.sequence == old(state.sequence) && state.critical == old(state.critical)
                     && state.savedAt == old(state.savedAt) && Saved(c) !in state.log[|old(state.log)|..]
    {
      ghost var before := state.log;
      match step {
        case ForceSave(c, now, leaseValid, reply) =>
          var v := state.Protect(Some(c), true, now, interval, leaseValid, reply);
        case DropCheckpoint =>
          state.Release();
      }
      AnnouncementsAppend(before, state.log[|before|..]);
      assert before + state.log[|before|..] == state.log;
    }

    /** One update: a change refused for its order is skipped, any other failure stops the room, and
        a protected one is announced after whatever the finalizer does in between. */
    method PublishUpdate(update: Update) returns (outcome: Outcome)
      requires state.Valid()
      modifies state
      ensures state.Valid() && old(state.log) <= state.log
      ensures old(state.released) ==> state.released && state.attempts == old(state.attempts)
      ensures outcome.LeaseInvalid? <==> !update.leaseValid
      ensures outcome.Sent? ==> outcome.published == update.published
      ensures state.released == (old(state.released) || (outcome.Sent? && DropCheckpoint in update.between))
      ensures update.checkpoint.None? && update.leaseValid ==> outcome.Sent?
      ensures update.checkpoint.Some? && update.leaseValid && !old(state.released) ==>
                var c := update.checkpoint.value;
                var suffices := old(state.Suffices(c, update.grant, update.now, interval));
                && (outcome.Skipped? <==>
                    !suffices
                    && (c.sequence <= old(state.sequence) || update.reply == OutOfOrder))
                && (outcome.Sent? <==> suffices || (c.sequence > old(state.sequence) && update.reply == Stored))
      ensures update.checkpoint.Some? && update.leaseValid && old(state.released) ==> outcome.Sent?
      ensures Announcements(state.log) == old(Announcements(state.log)) +
                if outcome.Sent? && update.checkpoint.Some? then [update.checkpoint.value] else []
    {
      if !update.leaseValid {
        return LeaseInvalid;
      }
      if update.checkpoint.Some? {
        ghost var before := state.log;
        var v := state.Protect(update.checkpoint, update.grant, update.now, interval, update.leaseValid, update.reply);
        AnnouncementsAppend(before, state.log[|before|..]);
        assert before + state.log[|before|..] == state.log;
        if v == Order {
          return Skipped;
        }
        if v != Passed {
          return Unprotected;
        }
      }
      Finalize(update.between);
      if update.checkpoint.Some? {
        AnnouncementsStep(state.log, Announced(update.checkpoint.value));
        state.Announce(update.checkpoint.value);
      }
      return Sent(update.published);
    }

    /** The loop over the runtime's updates, until one of them stops the room. */
    method PublishTickUpdates(updates: seq<Update>) returns (ghost outcomes: seq<Outcome>)
      requires state.Valid() && !stopped
      modifies state, this
      ensures state.Valid() && old(state.log) <= state.log
      ensures old(state.released) ==> state.released && state.attempts == old(state.attempts)
      ensures |outcomes| <= |updates| && (!stopped ==> |outcomes| == |updates|)
      ensures forall i :: 0 <= i < |outcomes| ==> (Goes(outcomes[i]) <==> i < |outcomes| - 1 || !stopped)
      ensures Announcements(state.log) == old(Announcements(state.log)) + Sendings(updates, outcomes)
    {
      outcomes := [];
      for i := 0 to |updates|
        invariant state.Valid() && !stopped && old(state.log) <= state.log
        invariant old(state.released) ==> state.released && state.attempts == old(state.attempts)
        invariant |outcomes| == i && forall k :: 0 <= k < i ==> Goes(outcomes[k])
        invariant Announcements(state.log) == old(Announcements(state.log)) + Sendings(updates, outcomes)
      {
        var outcome := PublishUpdate(updates[i]);
        ghost var before := outcomes;
        outcomes := outcomes + [outcome];
        assert outcomes[..i] == before;
        if !Goes(outcome) {
          stopped := true;
          return;
        }
      }
    }

    static predicate Goes(outcome: Outcome) {
      outcome.Skipped? || outcome == Sent(true)
    }
  }
}
