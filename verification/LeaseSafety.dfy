/** Why the configured lease is long enough: a process that misses at most k heartbeats in a row keeps its rows if the
    lease covers k + 1 heartbeat intervals and all database delays of that stretch. */
module LeaseSafety {
  import opened Basics
  import opened Generations
  import C = ChatTables
  import CI = ChatInvariant
  import opened Runs
  import opened RowHistory
  import opened CrashRecovery
  import opened Idempotency

  // ---------------------------------------------------------------- the settings

  datatype Settings = Settings(heartbeat: Time, lease: Time, databaseTimeout: Time)

  predicate Positive(c: Settings) {
    c.heartbeat > 0.0 && c.lease > 0.0 && c.databaseTimeout > 0.0
  }

  /** generation_lease_is_safe: the settings the gateway starts with. */
  predicate LeaseIsSafe(c: Settings) {
    Positive(c) && c.lease >= 2.0 * c.heartbeat + c.databaseTimeout
  }

  // ---------------------------------------------------------------- beats

  /** One turn of the heartbeat loop: when it began and when the call came back, on the database's clock. */
  datatype Beat = Beat(start: Time, end: Time)

  /** The loop waits one interval after each beat, whether it succeeded or not. */
  predicate Beating(beats: seq<Beat>, heartbeat: Time) {
    && (forall i :: 0 <= i < |beats| ==> beats[i].start <= beats[i].end)
    && (forall i :: 0 < i < |beats| ==> beats[i].start == beats[i - 1].end + heartbeat)
  }

  /** The time beats m to n spend in the database. */
  function Delay(beats: seq<Beat>, m: nat, n: nat): Time
    requires m <= n < |beats|
    decreases n - m
  {
    (beats[n].end - beats[n].start) + if m == n then 0.0 else Delay(beats, m, n - 1)
  }

  /** n heartbeat intervals. */
  function Intervals(n: nat, heartbeat: Time): Time {
    if n == 0 then 0.0 else heartbeat + Intervals(n - 1, heartbeat)
  }

  lemma {:induction false} StretchLength(beats: seq<Beat>, heartbeat: Time, m: nat, n: nat)
    requires Beating(beats, heartbeat) && m <= n < |beats|
    ensures beats[n].end - beats[m].start == Intervals(n - m, heartbeat) + Delay(beats, m, n)
    decreases n - m
  {
    if m < n {
      StretchLength(beats, heartbeat, m, n - 1);
    }
  }

  lemma {:induction false} MoreIntervals(a: nat, b: nat, heartbeat: Time)
    requires a <= b && heartbeat >= 0.0
    ensures Intervals(a, heartbeat) <= Intervals(b, heartbeat)
    decreases b - a
  {
    if a < b {
      MoreIntervals(a, b - 1, heartbeat);
    }
  }

  /** A stamp written after beat m began is still valid when beat n comes back. */
  lemma StampOutlivesStretch(
    beats: seq<Beat>, heartbeat: Time, lease: Time, m: nat, n: nat, misses: nat, delay: Time, stamp: Time)
    requires Beating(beats, heartbeat) && heartbeat >= 0.0 && m <= n < |beats| && n - m <= misses + 1
    requires Delay(beats, m, n) <= delay && lease >= Intervals(misses + 1, heartbeat) + delay
    requires beats[m].start <= stamp
    ensures beats[n].end <= stamp + lease
  {
    StretchLength(beats, heartbeat, m, n);
    MoreIntervals(n - m, misses + 1, heartbeat);
  }

  // ---------------------------------------------------------------- beats in a run

  predicate IsReclaim(e: Event) {
    e.OnChat? && e.chat.Reclaim?
  }

  /** Commit times of a run: in order, and no reclaim commits before it read the clock. */
  predicate Timed(es: seq<Event>, at: seq<Time>) {
    && |at| == |es|
    && (forall i, j :: 0 <= i <= j < |es| ==> at[i] <= at[j])
    && (forall i :: 0 <= i < |es| && IsReclaim(es[i]) ==> es[i].chat.now <= at[i])
  }

  /** At most `misses` beats fail between two that succeed, and the delays of that stretch sum to at most `delay`. */
  predicate CloseEnough(beats: seq<Beat>, m: nat, n: nat, misses: nat, delay: Time) {
    m <= n < |beats| && n - m <= misses + 1 && Delay(beats, m, n) <= delay
  }

  /** The event commits before the end of a beat that is close enough to beat m. */
  ghost predicate InTime(beats: seq<Beat>, at: seq<Time>, m: nat, j: nat, misses: nat, delay: Time)
    requires j < |at|
  {
    exists n: nat :: CloseEnough(beats, m, n, misses, delay) && at[j] <= beats[n].end
  }

  /** An event that writes a lease, and the last beat that had begun before. */
  datatype Stamp = Stamp(event: nat, base: nat)

  predicate InQueue(w: World, g: Uuid) {
    g in w.chat.generations && w.chat.generations[g].status.Queued?
  }

  /** The instance extends its leases, or its stream marks the generation running, which writes a lease only on a queued
      row. Before it, beat m was the last to have begun before a stamp. */
  predicate Stamps(w: World, e: Event, beats: seq<Beat>, me: Instance, g: Uuid, m: nat, base: nat) {
    && base < |beats|
    && match e
       case OnChat(ExtendLeases(who, now)) => who == me && beats[base].start <= now
       case OnChat(MarkRunning(h, _, who, now)) =>
         h == g && who == me && if InQueue(w, g) then beats[base].start <= now else base == m
       case _ => false
  }

  /** From event i on, beat m being the last to have begun before the row was stamped, until event j: the stamps in
      between, each in time after the one before, and event j in time after the last; otherwise the owner does nothing to
      the row. */
  ghost predicate KeepsBeating(
    ws: seq<World>, es: seq<Event>, at: seq<Time>, beats: seq<Beat>, me: Instance, g: Uuid, i: nat, m: nat,
    xs: seq<Stamp>, j: nat, misses: nat, delay: Time)
    requires i <= j < |es| && |ws| == |es| + 1 && |at| == |es|
    decreases |xs|
  {
    if xs == [] then OwnerIsDead(es, i, j, me.id, g) && InTime(beats, at, m, j, misses, delay)
    else
      var (k, base) := (xs[0].event, xs[0].base);
      && i <= k < j && OwnerIsDead(es, i, k, me.id, g) && InTime(beats, at, m, k, misses, delay)
      && Stamps(ws[k], es[k], beats, me, g, m, base)
      && KeepsBeating(ws, es, at, beats, me, g, k + 1, base, xs[1..], j, misses, delay)
  }

  /** The row is still the owner's; only the slot check may have closed it, after the user had cancelled it. */
  predicate StillOwned(w: World, g: Uuid, instance: Uuid) {
    g in w.chat.generations ==>
      var row := w.chat.generations[g];
      (Live(row.status) && row.lease.Some? && row.lease.value.instance == instance) || TimedOut(row)
  }

  /** The reclaim at event j, if it is one, takes the row g. */
  predicate ReclaimTakes(w: World, e: Event, g: Uuid) {
    IsReclaim(e) && g in C.ReclaimedRows(w.chat, e.chat.whose, e.chat.now)
  }

  // ---------------------------------------------------------------- one stretch

  /** Up to an event that commits before the lease runs out, the row stays the owner's. */
  lemma OneStretch(
    ws: seq<World>, es: seq<Event>, at: seq<Time>, i: nat, c: nat, me: Instance, g: Uuid, stamp: Time)
    requires IsRun(ws, es) && Timed(es, at) && i <= c < |es| && OwnerIsDead(es, i, c, me.id, g)
    requires at[c] <= stamp + me.leaseSeconds
    requires g in ws[i].chat.generations && Live(ws[i].chat.generations[g].status)
    requires ws[i].chat.generations[g].lease == Some(Lease(me.id, stamp + me.leaseSeconds))
    ensures StillOwned(ws[c], g, me.id) && !ReclaimTakes(ws[c], es[c], g)
    ensures g in ws[c].chat.generations ==>
      var row := ws[c].chat.generations[g];
      (Live(row.status) && row.lease == Some(Lease(me.id, stamp + me.leaseSeconds))) || TimedOut(row)
  {
    NoEarlyReclaim(ws, es, i, c, me, stamp, g);
  }

  /** The row carries a lease of the instance that was written after beat m began. */
  predicate StampedSince(w: World, g: Uuid, me: Instance, beats: seq<Beat>, m: nat, stamp: Time) {
    && g in w.chat.generations && Live(w.chat.generations[g].status)
    && w.chat.generations[g].lease == Some(Lease(me.id, stamp + me.leaseSeconds))
    && m < |beats| && beats[m].start <= stamp
  }

  /** What a stamp leaves: the row with a lease that counts from the beat of the stamp, unless it is gone or closed. */
  lemma Refreshes(w: World, e: Event, beats: seq<Beat>, me: Instance, g: Uuid, m: nat, base: nat, stamp: Time)
    requires Stamps(w, e, beats, me, g, m, base)
    requires g in w.chat.generations ==> StampedSince(w, g, me, beats, m, stamp) || TimedOut(w.chat.generations[g])
    ensures var after := Step(w, e);
      g in after.chat.generations ==>
        || TimedOut(after.chat.generations[g])
        || StampedSince(after, g, me, beats, base, stamp)
        || StampedSince(after, g, me, beats, base, e.chat.now)
  {
    hide C.Accept, C.Retry, C.SlotCheck, MaterialStep;
  }

  // ---------------------------------------------------------------- whole runs

  lemma {:induction false} TimedOutStays(ws: seq<World>, es: seq<Event>, i: nat, k: nat, g: Uuid)
    requires IsRun(ws, es) && i <= k <= |es| && g in ws[i].chat.generations && TimedOut(ws[i].chat.generations[g])
    ensures g in ws[k].chat.generations ==> TimedOut(ws[k].chat.generations[g])
  {
    if g in ws[k].chat.generations {
      RowsOnlyMove(ws, es, i, k, g);
    }
  }

  lemma ClosedIsSafe(w: World, e: Event, g: Uuid, instance: Uuid)
    requires g in w.chat.generations ==> TimedOut(w.chat.generations[g])
    ensures StillOwned(w, g, instance) && !ReclaimTakes(w, e, g)
  {
  }

  /** A live owner never loses a row to a reclaim: if at most `misses` heartbeats fail in a row, the database delays of
      every stretch between two stamps sum to at most `delay`, and the lease covers misses + 1 intervals and that delay,
      then the row is still the owner's, and no reclaim of any process takes it, at every event j from any stamp of the
      row on: between stamps, at the stamps themselves, and after the last of them up to the event by which the owner
      lets go of the row, or to the end of the next heartbeat that is due. */
  lemma {:induction false} LiveOwnerKeepsRow(
    ws: seq<World>, es: seq<Event>, at: seq<Time>, beats: seq<Beat>, heartbeat: Time, me: Instance, g: Uuid, i: nat, m: nat,
    stamp: Time, xs: seq<Stamp>, misses: nat, delay: Time, j: nat)
    requires IsRun(ws, es) && Timed(es, at) && Beating(beats, heartbeat) && heartbeat >= 0.0
    requires me.leaseSeconds >= Intervals(misses + 1, heartbeat) + delay
    requires i <= j < |es| && StampedSince(ws[i], g, me, beats, m, stamp)
    requires KeepsBeating(ws, es, at, beats, me, g, i, m, xs, j, misses, delay)
    ensures StillOwned(ws[j], g, me.id) && !ReclaimTakes(ws[j], es[j], g)
    decreases |xs|
  {
    hide StillOwned, ReclaimTakes, Delay, Beating, Step, OwnerIsDead, InQueue;
    var c := if xs == [] then j else xs[0].event;
    var n: nat :| CloseEnough(beats, m, n, misses, delay) && at[c] <= beats[n].end;
    DueInTime(beats, heartbeat, me.leaseSeconds, m, n, misses, delay, stamp);
    OneStretch(ws, es, at, i, c, me, g, stamp);
    if xs != [] {
      var base := xs[0].base;
      Refreshes(ws[c], es[c], beats, me, g, m, base, stamp);
      OneStep(ws, es, c);
      if g in ws[c + 1].chat.generations && !TimedOut(ws[c + 1].chat.generations[g]) {
        var next := if StampedSince(ws[c + 1], g, me, beats, base, stamp) then stamp else es[c].chat.now;
        LiveOwnerKeepsRow(ws, es, at, beats, heartbeat, me, g, c + 1, base, next, xs[1..], misses, delay, j);
      } else {
        AbsentOrClosed(ws, es, i, c + 1, j, g);
        ClosedIsSafe(ws[j], es[j], g, me.id);
      }
    }
  }

  lemma DueInTime(
    beats: seq<Beat>, heartbeat: Time, lease: Time, m: nat, n: nat, misses: nat, delay: Time, stamp: Time)
    requires Beating(beats, heartbeat) && heartbeat >= 0.0 && CloseEnough(beats, m, n, misses, delay)
    requires lease >= Intervals(misses + 1, heartbeat) + delay && beats[m].start <= stamp
    ensures beats[n].end <= stamp + lease
  {
    StampOutlivesStretch(beats, heartbeat, lease, m, n, misses, delay, stamp);
  }

  lemma AbsentOrClosed(ws: seq<World>, es: seq<Event>, i: nat, k: nat, j: nat, g: Uuid)
    requires IsRun(ws, es) && i <= k <= j <= |es| && g in ws[i].chat.generations
    requires g in ws[k].chat.generations ==> TimedOut(ws[k].chat.generations[g])
    ensures g in ws[j].chat.generations ==> TimedOut(ws[j].chat.generations[g])
  {
    if g in ws[k].chat.generations {
      TimedOutStays(ws, es, k, j, g);
    } else {
      GenerationDrawn(ws, es, i, k, g);
      GoneForGood(ws, es, k, j, g);
    }
  }

  /** An accepted question or retry leaves its row live and stamped, so that the above covers its whole life. */
  lemma AcceptedIsStamped(w: World, e: ChatEvent, beats: seq<Beat>, m: nat)
    requires (e.Accept? || e.Retry?) && MainReply(w, e) == C.Accepted(e.newGeneration, false)
    requires m < |beats| && beats[m].start <= e.now
    ensures StampedSince(Step(w, OnChat(e)), e.newGeneration, e.me, beats, m, e.now)
  {
    hide C.SlotCheck, C.Refusal, EnvOf, MaterialStep;
  }

  /** The configured lease covers one missed heartbeat in a row, from the acceptance of a request to the last event of its
      stream, as long as the delays of each stretch sum to at most the database timeout. */
  lemma SafeSettingsCoverOneMiss(
    c: Settings, ws: seq<World>, es: seq<Event>, at: seq<Time>, beats: seq<Beat>, i: nat, m: nat, xs: seq<Stamp>, j: nat)
    requires IsRun(ws, es) && i < j < |es| && Timed(es, at) && Beating(beats, c.heartbeat)
    requires es[i].OnChat? && (es[i].chat.Accept? || es[i].chat.Retry?)
    requires var e := es[i].chat; LeaseIsSafe(c) && e.me.leaseSeconds == c.lease && m < |beats| && beats[m].start <= e.now
    requires var e := es[i].chat;
      MainReply(ws[i], e) == C.Accepted(e.newGeneration, false)
    requires KeepsBeating(
      ws, es, at, beats, es[i].chat.me, es[i].chat.newGeneration, i + 1, m, xs, j, 1, c.databaseTimeout)
    ensures StillOwned(ws[j], es[i].chat.newGeneration, es[i].chat.me.id)
    ensures !ReclaimTakes(ws[j], es[j], es[i].chat.newGeneration)
  {
    hide StillOwned, ReclaimTakes, KeepsBeating, MainReply, Step, StampedSince;
    var e := es[i].chat;
    OneStep(ws, es, i);
    AcceptedIsStamped(ws[i], e, beats, m);
    assert Intervals(1, c.heartbeat) == c.heartbeat + Intervals(0, c.heartbeat);
    assert Intervals(2, c.heartbeat) == c.heartbeat + Intervals(1, c.heartbeat);
    LiveOwnerKeepsRow(
      ws, es, at, beats, c.heartbeat, e.me, e.newGeneration, i + 1, m, e.now, xs, 1, c.databaseTimeout, j);
  }
}
