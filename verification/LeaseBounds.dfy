/** How long a lease has to be, exactly: a live owner's row can be lost to a reclaim if and only if the lease is shorter than
    the heartbeat intervals and database delays up to the end of the next heartbeat that succeeds. */
module LeaseBounds {
  import opened Basics
  import opened Generations
  import C = ChatTables
  import opened Runs
  import opened CrashRecovery
  import opened LeaseSafety
  import FirstQuestion

  /** These events go on from the run without the owner doing anything to the row, all commit by `until`, and the last is a
      reclaim that takes it. */
  ghost predicate Loses(
    ws: seq<World>, es: seq<Event>, at: seq<Time>, g: Uuid, owner: Uuid, until: Time,
    longer: seq<World>, events: seq<Event>, times: seq<Time>)
  {
    && IsRun(longer, events) && Timed(events, times) && |es| < |events|
    && ws <= longer && es <= events && at <= times
    && var last := |events| - 1;
       && OwnerIsDead(events, |es|, last, owner, g) && times[last] <= until
       && ReclaimTakes(longer[last], events[last], g)
  }

  /** The run can go on so that the row is lost by then although its owner lives. */
  ghost predicate CanLose(ws: seq<World>, es: seq<Event>, at: seq<Time>, g: Uuid, owner: Uuid, until: Time) {
    exists longer, events, times :: Loses(ws, es, at, g, owner, until, longer, events, times)
  }

  /** The row is live under a lease of the instance that was written at this time, and nothing commits after `until`. */
  ghost predicate Leased(
    ws: seq<World>, es: seq<Event>, at: seq<Time>, me: Instance, g: Uuid, stamp: Time, until: Time)
  {
    && IsRun(ws, es) && Timed(es, at) && (es != [] ==> at[|es| - 1] <= until)
    && var w := ws[|es|];
       && g in w.chat.generations && Live(w.chat.generations[g].status)
       && w.chat.generations[g].lease == Some(Lease(me.id, stamp + me.leaseSeconds))
  }

  lemma LossNeedsExpiry(
    ws: seq<World>, es: seq<Event>, at: seq<Time>, me: Instance, g: Uuid, stamp: Time, until: Time,
    longer: seq<World>, events: seq<Event>, times: seq<Time>)
    requires Leased(ws, es, at, me, g, stamp, until) && Loses(ws, es, at, g, me.id, until, longer, events, times)
    ensures stamp + me.leaseSeconds < until
  {
    hide Step, OwnerIsDead, ReclaimTakes, StepsAt;
    assert longer[|es|] == ws[|es|];
    if until <= stamp + me.leaseSeconds {
      OneStretch(longer, events, times, |es|, |events| - 1, me, g, stamp);
    }
  }

  lemma ExpiryLoses(ws: seq<World>, es: seq<Event>, at: seq<Time>, me: Instance, g: Uuid, stamp: Time, until: Time)
    requires Leased(ws, es, at, me, g, stamp, until) && stamp + me.leaseSeconds < until
    ensures CanLose(ws, es, at, g, me.id, until)
  {
    hide Step, StepsAt;
    var e := OnChat(Reclaim(None, until));
    OneMoreEvent(ws, es, e);
    var longer, events, times := ws + [Step(ws[|es|], e)], es + [e], at + [until];
    assert Timed(events, times);
    assert longer[|es|] == ws[|es|] && events[|es|] == e;
    assert Loses(ws, es, at, g, me.id, until, longer, events, times);
  }

  /** Whether a live owner can lose its row by some time depends on its last stamp and the lease alone: it can if and only if
      the lease runs out before. */
  lemma LostExactlyAfterExpiry(
    ws: seq<World>, es: seq<Event>, at: seq<Time>, me: Instance, g: Uuid, stamp: Time, until: Time)
    requires Leased(ws, es, at, me, g, stamp, until)
    ensures CanLose(ws, es, at, g, me.id, until) <==> stamp + me.leaseSeconds < until
  {
    hide Leased, Loses;
    if CanLose(ws, es, at, g, me.id, until) {
      var longer, events, times :| Loses(ws, es, at, g, me.id, until, longer, events, times);
      LossNeedsExpiry(ws, es, at, me, g, stamp, until, longer, events, times);
    }
    if stamp + me.leaseSeconds < until {
      ExpiryLoses(ws, es, at, me, g, stamp, until);
    }
  }

  /** A stamp written as beat m began covers the time to the end of beat n if and only if the lease is at least the
      intervals between them and the delays of all calls from m to n. */
  lemma StampOutlivesExactly(beats: seq<Beat>, heartbeat: Time, lease: Time, m: nat, n: nat)
    requires Beating(beats, heartbeat) && m <= n < |beats|
    ensures beats[n].end <= beats[m].start + lease <==> lease >= Intervals(n - m, heartbeat) + Delay(beats, m, n)
  {
    StretchLength(beats, heartbeat, m, n);
  }

  /** The exact condition on the lease, for any number of failed heartbeats in between: while its owner lives and beat n is
      the next to succeed, the row can be lost if and only if the lease is shorter than that. */
  lemma LeaseIsExact(
    ws: seq<World>, es: seq<Event>, at: seq<Time>, beats: seq<Beat>, heartbeat: Time, me: Instance, g: Uuid, m: nat, n: nat)
    requires Beating(beats, heartbeat) && m <= n < |beats|
    requires Leased(ws, es, at, me, g, beats[m].start, beats[n].end)
    ensures CanLose(ws, es, at, g, me.id, beats[n].end)
      <==> me.leaseSeconds < Intervals(n - m, heartbeat) + Delay(beats, m, n)
  {
    hide Leased, CanLose;
    LostExactlyAfterExpiry(ws, es, at, me, g, beats[m].start, beats[n].end);
    StampOutlivesExactly(beats, heartbeat, me.leaseSeconds, m, n);
  }

  /** What the shortest lease that passes the check of the settings is worth: after one failed heartbeat the row can be lost
      if and only if the three calls together spend more than one database timeout. */
  lemma ShortestLeaseIsExact(
    c: Settings, ws: seq<World>, es: seq<Event>, at: seq<Time>, beats: seq<Beat>, me: Instance, g: Uuid, m: nat)
    requires LeaseIsSafe(c) && c.lease == 2.0 * c.heartbeat + c.databaseTimeout && me.leaseSeconds == c.lease
    requires Beating(beats, c.heartbeat) && m + 2 < |beats|
    requires Leased(ws, es, at, me, g, beats[m].start, beats[m + 2].end)
    ensures CanLose(ws, es, at, g, me.id, beats[m + 2].end) <==> Delay(beats, m, m + 2) > c.databaseTimeout
  {
    hide Leased, CanLose;
    assert Intervals(1, c.heartbeat) == c.heartbeat + Intervals(0, c.heartbeat);
    assert Intervals(2, c.heartbeat) == c.heartbeat + Intervals(1, c.heartbeat);
    LeaseIsExact(ws, es, at, beats, c.heartbeat, me, g, m, m + 2);
  }

  /** And it happens, each call staying within the timeout: there is a run with a live row of the instance that a reclaim
      can take after a single failed heartbeat, before the next one even begins. */
  lemma OneMissCanLose(me: Instance)
    requires me.leaseSeconds == 12.0
    ensures var c, beats := Settings(5.0, 12.0, 2.0), [Beat(0.0, 2.0), Beat(7.0, 9.0), Beat(14.0, 16.0)];
      && LeaseIsSafe(c) && me.leaseSeconds == c.lease && Beating(beats, c.heartbeat)
      && (forall i :: 0 <= i < 3 ==> beats[i].end - beats[i].start <= c.databaseTimeout)
      && exists ws, es, at :: Leased(ws, es, at, me, FirstQuestion.GENERATION, beats[0].start, beats[2].start)
           && CanLose(ws, es, at, FirstQuestion.GENERATION, me.id, beats[2].start)
  {
    hide Step, StepsAt, CanLose;
    var beats := [Beat(0.0, 2.0), Beat(7.0, 9.0), Beat(14.0, 16.0)];
    assert beats[1].start == beats[0].end + 5.0 && beats[2].start == beats[1].end + 5.0;
    var es := FirstQuestion.Events(me, 0.0);
    EveryOrderIsARun(es);
    var ws :| IsRun(ws, es) && ws[|es|] == Played(START, es);
    FirstQuestion.QuestionIsAccepted(me, 0.0);
    var at := seq(|es|, _ => 0.0);
    assert Timed(es, at);
    assert Leased(ws, es, at, me, FirstQuestion.GENERATION, beats[0].start, beats[2].start);
    LostExactlyAfterExpiry(ws, es, at, me, FirstQuestion.GENERATION, beats[0].start, beats[2].start);
  }
}
