/** The generations table of chat/repository.py, one row at a time: the seven states, the UPDATE statements as functions on
    a row, and the relation that every one of them keeps. */
module Generations {
  import opened Basics
  import opened Prompt

  datatype Status = Queued | Running | CancelRequested | Reconciling | Completed | Cancelled | Failed

  /** FINISHABLE_STATUSES: a stream may still be working on the row. */
  predicate Live(s: Status) {
    s.Queued? || s.Running? || s.CancelRequested?
  }

  /** ACTIVE_STATUSES: the row holds its user's slot. */
  predicate Active(s: Status) {
    Live(s) || s.Reconciling?
  }

  /** TERMINAL_STATUSES */
  predicate Terminal(s: Status) {
    s.Completed? || s.Cancelled? || s.Failed?
  }

  function Rank(s: Status): nat {
    match s
    case Queued => 0
    case Running => 1
    case CancelRequested => 2
    case Reconciling => 3
    case _ => 4
  }

  /** From here on the row never runs and never completes. */
  predicate Forsaken(s: Status) {
    s.CancelRequested? || s.Reconciling? || s.Cancelled? || s.Failed?
  }

  datatype Mode = Mock | Llm

  datatype Citation = Citation(id: Uuid, source: Uuid, version: Uuid, title: string, excerpt: string)

  /** The frozen input a retry uses again. */
  datatype Snapshot = Snapshot(question: string, citations: seq<Citation>, version: Uuid, messages: seq<Message>)

  /** owner_instance_id and lease_expires_at, which are always written together. */
  datatype Lease = Lease(instance: Uuid, expiresAt: Time)

  datatype Generation = Generation(
    conversation: Uuid, message: Uuid, version: Uuid, mode: Mode, status: Status, content: string,
    citations: seq<Citation>, failureCode: Option<string>, retryOf: Option<Uuid>, snapshot: Option<Snapshot>,
    lease: Option<Lease>, heartbeatAt: Time, createdAt: Time, finishedAt: Option<Time>)

  /** What a gateway process brings to the store: its identity, the lease it writes, the upstream it answers with. */
  datatype Instance = Instance(id: Uuid, leaseSeconds: Time, mode: Mode)

  /** The status and failure code the stream computed before it stores them. */
  datatype Verdict = Success | Failure(code: string)

  const LEGACY_OWNERLESS_GRACE_SECONDS: Time := 240.0
  const RECONCILIATION_TIMEOUT_SECONDS: Time := 300.0
  const RECONCILIATION_TIMEOUT_CODE: string := "reconciliation_timeout"

  // ---------------------------------------------------------------- the UPDATE statements

  function Stamped(r: Generation, me: Instance, now: Time): Generation {
    r.(lease := Some(Lease(me.id, now + me.leaseSeconds)))
  }

  function MarkedRunning(r: Generation, snapshot: Snapshot, me: Instance, now: Time): Generation {
    if r.status != Queued then r
    else
      Stamped(r.(status := Running, citations := snapshot.citations, snapshot := Some(snapshot), heartbeatAt := now),
        me, now)
  }

  function Finished(r: Generation, verdict: Verdict, content: string, now: Time): Generation {
    if !Live(r.status) then r
    else
      var stored := if r.status.CancelRequested? then Cancelled else if verdict.Success? then Completed else Failed;
      var code := if r.status.CancelRequested? || verdict.Success? then None else Some(verdict.code);
      r.(status := stored, content := content, failureCode := code, finishedAt := Some(now))
  }

  /** A disconnect or an orderly shutdown: the outcome is unknown. */
  function Parked(r: Generation, now: Time): Generation {
    if Live(r.status) then r.(status := Reconciling, heartbeatAt := now) else r
  }

  predicate Reclaimable(r: Generation, now: Time) {
    && Live(r.status)
    && match r.lease
       case Some(lease) => lease.expiresAt < now
       case None => r.heartbeatAt < now - LEGACY_OWNERLESS_GRACE_SECONDS
  }

  /** A reclaimed row keeps the last time its owner could count as alive. */
  function Reclaimed(r: Generation, now: Time): Generation {
    if Reclaimable(r, now) then
      r.(status := Reconciling, heartbeatAt := if r.lease.Some? then r.lease.value.expiresAt else r.heartbeatAt)
    else r
  }

  predicate Owns(r: Generation, instance: Uuid) {
    r.lease.Some? && r.lease.value.instance == instance && Live(r.status)
  }

  function Extended(r: Generation, me: Instance, now: Time): Generation {
    if Owns(r, me.id) then Stamped(r, me, now) else r
  }

  function Released(r: Generation, instance: Uuid, now: Time): Generation {
    if Owns(r, instance) then Parked(r, now) else r
  }

  function CancelAsked(r: Generation, now: Time): Generation {
    if r.status.Queued? || r.status.Running? then r.(status := CancelRequested, heartbeatAt := now) else r
  }

  predicate Abandoned(r: Generation, wall: Time) {
    (r.status.Reconciling? || r.status.CancelRequested?) && wall - r.heartbeatAt > RECONCILIATION_TIMEOUT_SECONDS
  }

  /** The slot check gives up on an abandoned row. */
  function GivenUp(r: Generation, now: Time): Generation {
    r.(status := Failed, failureCode := Some(RECONCILIATION_TIMEOUT_CODE), finishedAt := Some(now))
  }

  // ---------------------------------------------------------------- what they keep

  /** The second row can come from the first by any number of statements. */
  predicate Moves(r: Generation, s: Generation) {
    && r.conversation == s.conversation && r.message == s.message && r.version == s.version
    && r.mode == s.mode && r.retryOf == s.retryOf && r.createdAt == s.createdAt
    && (r.status == s.status || Rank(r.status) < Rank(s.status))
    && (Terminal(r.status) ==> s == r)
    && (Forsaken(r.status) ==> Forsaken(s.status))
    && (!r.status.Queued? ==> s.snapshot == r.snapshot)
    && (!Terminal(s.status) ==> s.content == r.content)
  }

  // Every UPDATE statement keeps the relation.

  lemma MarkedRunningMoves(r: Generation, snapshot: Snapshot, me: Instance, now: Time)
    ensures Moves(r, MarkedRunning(r, snapshot, me, now))
  {
  }

  lemma FinishedMoves(r: Generation, verdict: Verdict, content: string, now: Time)
    ensures Moves(r, Finished(r, verdict, content, now))
  {
  }

  lemma ExtendedMoves(r: Generation, me: Instance, now: Time)
    ensures Moves(r, Extended(r, me, now))
  {
  }

  lemma StoppedMoves(r: Generation, instance: Uuid, now: Time)
    ensures Moves(r, Parked(r, now)) && Moves(r, Reclaimed(r, now)) && Moves(r, Released(r, instance, now))
    ensures Moves(r, CancelAsked(r, now))
  {
  }

  lemma MovesAlong(r: Generation, s: Generation, t: Generation)
    requires Moves(r, s) && Moves(s, t)
    ensures Moves(r, t)
  {
  }
}
