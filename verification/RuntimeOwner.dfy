/** The durable owner record of a session's runtime and its conditional updates. */
module RuntimeOwner {
  import opened Wrappers
  import opened GameDomain
  import opened RoomLease

  const MAX_INT64 := 0x7FFF_FFFF_FFFF_FFFF

  datatype OwnerDoc = OwnerDoc(
    generation: int,
    instance: string,
    lease: LeaseID,
    started: bool,
    completed: bool,
    trigger: Option<Command>)

  /** The identity a claimant carries into every later conditional write. */
  datatype OwnerRef = OwnerRef(generation: int, instance: string, lease: LeaseID)

  predicate Names(ref: OwnerRef, doc: Option<OwnerDoc>) {
    && doc.Some?
    && doc.value.generation == ref.generation && doc.value.instance == ref.instance && doc.value.lease == ref.lease
  }

  /** A missing record reads as generation 0. */
  function Generation(doc: Option<OwnerDoc>): int {
    if doc.Some? then doc.value.generation else 0
  }

  /** The claim's find-and-update: the claimed record, or None for a conflict. */
  function ClaimUpdate(doc: Option<OwnerDoc>, expected: int, instance: string,
      lease: LeaseID): (r: (Option<OwnerDoc>, Option<OwnerDoc>)) {
    if expected < 0 || expected == MAX_INT64 then
      (doc, None)
    else if doc.Some? && doc.value.generation == expected && !doc.value.completed then
      var claimed := doc.value.(generation := expected + 1, instance := instance, lease := lease);
      (Some(claimed), Some(claimed))
    else if doc.None? && expected == 0 then
      var claimed := OwnerDoc(1, instance, lease, false, false, None);
      (Some(claimed), Some(claimed))
    else
      (doc, None)
  }

  function MarkStartedUpdate(doc: Option<OwnerDoc>, ref: OwnerRef): (Option<OwnerDoc>, bool) {
    if Names(ref, doc) && !doc.value.started then
      (Some(doc.value.(started := true)), true)
    else
      (doc, false)
  }

  function TriggerUpdate(doc: Option<OwnerDoc>, ref: OwnerRef, command: Command): (Option<OwnerDoc>, bool) {
    if Names(ref, doc) && doc.value.started && !doc.value.completed
       && (doc.value.trigger.None? || doc.value.trigger == Some(command)) then
      (Some(doc.value.(trigger := Some(command))), true)
    else
      (doc, false)
  }

  /** The fence of a completion: it conflicts with every later claim. */
  function CompleteUpdate(doc: Option<OwnerDoc>, ref: OwnerRef): (Option<OwnerDoc>, bool) {
    if Names(ref, doc) && doc.value.started && !doc.value.completed then
      (Some(doc.value.(completed := true)), true)
    else
      (doc, false)
  }

  // ----- laws of the updates

  /** A claim succeeds exactly on the current generation of a record that is not completed; it
      takes the next generation and keeps the start and trigger barriers. */
  lemma ClaimTakesNext(doc: Option<OwnerDoc>, expected: int, instance: string, lease: LeaseID)
    requires 0 <= expected < MAX_INT64 && (doc.Some? ==> doc.value.generation > 0)
    ensures var r := ClaimUpdate(doc, expected, instance, lease);
            && (r.1.Some? <==> expected == Generation(doc) && !(doc.Some? && doc.value.completed))
            && (r.1.Some? ==> r.0 == r.1 && Names(OwnerRef(Generation(doc) + 1, instance, lease), r.0)
                              && r.0.value.started == (doc.Some? && doc.value.started)
                              && r.0.value.trigger == if doc.Some? then doc.value.trigger else None)
            && (r.1.None? ==> r.0 == doc)
  {
  }

  /** Two claimants that read the same generation cannot both claim it. */
  lemma OneClaimPerGeneration(doc: Option<OwnerDoc>, expected: int, first: OwnerRef, second: OwnerRef)
    requires ClaimUpdate(doc, expected, first.instance, first.lease).1.Some?
    ensures ClaimUpdate(ClaimUpdate(doc, expected, first.instance, first.lease).0, expected, second.instance,
            second.lease).1.None?
  {
  }

  /** A completed record refuses every later write, whoever makes it. */
  lemma CompletedIsFrozen(doc: Option<OwnerDoc>, ref: OwnerRef, expected: int, command: Command)
    requires doc.Some? && doc.value.completed && doc.value.started
    ensures ClaimUpdate(doc, expected, ref.instance, ref.lease) == (doc, None)
    ensures MarkStartedUpdate(doc, ref) == (doc, false) && TriggerUpdate(doc, ref, command) == (doc, false)
    ensures CompleteUpdate(doc, ref) == (doc, false)
  {
  }

  /** After a successful claim every write of the previous claimant is refused. */
  lemma SupersededIsRefused(doc: Option<OwnerDoc>, ref: OwnerRef, expected: int, instance: string, lease: LeaseID,
      command: Command)
    requires Names(ref, doc) && ClaimUpdate(doc, expected, instance, lease).1.Some?
    ensures var next := ClaimUpdate(doc, expected, instance, lease).0;
            !MarkStartedUpdate(next, ref).1 && !TriggerUpdate(next, ref, command).1 && !CompleteUpdate(next, ref).1
  {
  }
}
