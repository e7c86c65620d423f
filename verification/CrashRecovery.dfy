/** A crashed owner: its row is left alone until the lease runs out, keeps that moment as its heartbeat however often it
    is looked at, and five minutes later gives way to the user's next request. */
module CrashRecovery {
  import opened Basics
  import opened Generations
  import C = ChatTables
  import CI = ChatInvariant
  import opened Runs
  import opened RowHistory

  /** A row without its owner: live under the last lease, or reclaimed when that had run out, or given up. */
  predicate Orphaned(r: Generation, owner: Uuid, expiresAt: Time) {
    || (Live(r.status) && r.lease == Some(Lease(owner, expiresAt)))
    || (r.status.Reconciling? && r.heartbeatAt == expiresAt)
    || TimedOut(r)
  }

  predicate TimedOut(r: Generation) {
    r.status.Failed? && r.failureCode == Some(RECONCILIATION_TIMEOUT_CODE)
  }

  /** The steps that only the process streaming g, or holding its lease, takes. */
  predicate OwnerActs(e: Event, owner: Uuid, g: Uuid) {
    match e
    case OnChat(ExtendLeases(me, _)) => me.id == owner
    case OnChat(Release(instance, _)) => instance == owner
    case OnChat(MarkRunning(h, _, _, _)) => h == g
    case OnChat(Finish(h, _, _, _)) => h == g
    case OnChat(Disconnect(h, _)) => h == g
    case _ => false
  }

  predicate OwnerIsDead(es: seq<Event>, i: nat, k: nat, owner: Uuid, g: Uuid)
    requires i <= k <= |es|
  {
    forall j :: i <= j < k ==> !OwnerActs(es[j], owner, g)
  }

  // ---------------------------------------------------------------- one step

  lemma SlotCheckKeepsOrphan(
    db: C.Tables, user: Subject, now: Time, wall: Time, owner: Uuid, g: Uuid, expiresAt: Time)
    requires C.SlotCheck(db, user, now, wall).Some? && g in db.generations
    ensures var row, freed := db.generations[g], C.SlotCheck(db, user, now, wall).value;
      g in freed && (freed[g] == row || TimedOut(freed[g]))
  {
  }

  lemma InsertKeepsOrphan(db: C.Tables, env: C.Env, e: ChatEvent, owner: Uuid, g: Uuid, expiresAt: Time)
    requires CI.Inv(db, env) && (e.Accept? || e.Retry?) && g in db.generations
    ensures var after := ChatStep(db, env, e).generations;
      g in after && (after[g] == db.generations[g] || TimedOut(after[g]))
  {
    hide CI.Inv, C.SlotCheck, C.Refusal;
    Undrawn(db, env);
    if C.SlotCheck(db, e.owner, e.now, e.wall).Some? {
      SlotCheckKeepsOrphan(db, e.owner, e.now, e.wall, owner, g, expiresAt);
    }
  }

  /** Whatever the others do, the row stays orphaned, and it leaves the live states only through a reclaim after the end of
      its lease or by being given up. */
  lemma ChatStepKeepsOrphan(db: C.Tables, env: C.Env, e: ChatEvent, owner: Uuid, g: Uuid, expiresAt: Time)
    requires CI.Inv(db, env) && !OwnerActs(OnChat(e), owner, g)
    requires g in db.generations && Orphaned(db.generations[g], owner, expiresAt)
    ensures g in ChatStep(db, env, e).generations
    ensures var row, after := db.generations[g], ChatStep(db, env, e).generations[g];
      && Orphaned(after, owner, expiresAt)
      && (Live(row.status) && !Live(after.status) && !TimedOut(after) ==> e.Reclaim? && e.now > expiresAt)
      && (!Live(row.status) ==> !Live(after.status))
  {
    hide CI.Inv, C.Accept, C.Retry;
    if e.Accept? || e.Retry? {
      InsertKeepsOrphan(db, env, e, owner, g, expiresAt);
    }
  }

  lemma StepKeepsOrphan(w: World, e: Event, owner: Uuid, g: Uuid, expiresAt: Time)
    requires Inv(w) && !OwnerActs(e, owner, g)
    requires g in w.chat.generations && Orphaned(w.chat.generations[g], owner, expiresAt)
    ensures g in Step(w, e).chat.generations ==>
      var row, after := w.chat.generations[g], Step(w, e).chat.generations[g];
      && Orphaned(after, owner, expiresAt)
      && (Live(row.status) && !Live(after.status) && !TimedOut(after) ==>
            e.OnChat? && e.chat.Reclaim? && e.chat.now > expiresAt)
      && (!Live(row.status) ==> !Live(after.status))
  {
    hide CI.Inv, MaterialStep, ChatStep, EnvOf, Orphaned;
    if e.OnChat? {
      ChatStepKeepsOrphan(w.chat, EnvOf(w.material), e.chat, owner, g, expiresAt);
    }
  }

  // ---------------------------------------------------------------- whole runs

  lemma {:induction false} OrphanAlong(
    ws: seq<World>, es: seq<Event>, i: nat, k: nat, owner: Uuid, g: Uuid, expiresAt: Time)
    requires IsRun(ws, es) && i <= k <= |es| && OwnerIsDead(es, i, k, owner, g)
    requires g in ws[i].chat.generations && Orphaned(ws[i].chat.generations[g], owner, expiresAt)
    ensures g in ws[k].chat.generations ==>
      && Orphaned(ws[k].chat.generations[g], owner, expiresAt)
      && (!Live(ws[i].chat.generations[g].status) ==> !Live(ws[k].chat.generations[g].status))
    decreases k - i
  {
    hide Step, Inv, Orphaned, OwnerActs, ChatMoves;
    if i < k && g in ws[k].chat.generations {
      StillThere(ws, es, i, k, g);
      OrphanAlong(ws, es, i, k - 1, owner, g, expiresAt);
      RunsKeepInv(ws, es, k - 1);
      OneStep(ws, es, k - 1);
      StepKeepsOrphan(ws[k - 1], es[k - 1], owner, g, expiresAt);
    }
  }

  lemma StillThere(ws: seq<World>, es: seq<Event>, i: nat, k: nat, g: Uuid)
    requires IsRun(ws, es) && i < k <= |es| && g in ws[i].chat.generations && g in ws[k].chat.generations
    ensures g in ws[k - 1].chat.generations
  {
    hide Inv;
    if g !in ws[k - 1].chat.generations {
      GenerationDrawn(ws, es, i, k - 1, g);
      GoneForGood(ws, es, k - 1, k, g);
    }
  }

  /** The owner's last stamp was at s. As long as no reclaim runs later than s plus its lease, the row is not touched by
      one: it is still live under that lease, unless a request gave it up after the user had cancelled it. */
  lemma {:induction false} NoEarlyReclaim(
    ws: seq<World>, es: seq<Event>, i: nat, k: nat, me: Instance, s: Time, g: Uuid)
    requires IsRun(ws, es) && i <= k <= |es| && OwnerIsDead(es, i, k, me.id, g)
    requires forall j :: i <= j < k && es[j].OnChat? && es[j].chat.Reclaim? ==> es[j].chat.now <= s + me.leaseSeconds
    requires g in ws[i].chat.generations && Live(ws[i].chat.generations[g].status)
    requires ws[i].chat.generations[g].lease == Some(Lease(me.id, s + me.leaseSeconds))
    ensures g in ws[k].chat.generations ==>
      var row := ws[k].chat.generations[g];
      (Live(row.status) && row.lease == Some(Lease(me.id, s + me.leaseSeconds))) || TimedOut(row)
    decreases k - i
  {
    hide Step, Inv, OwnerActs, ChatMoves;
    if i < k && g in ws[k].chat.generations {
      StillThere(ws, es, i, k, g);
      NoEarlyReclaim(ws, es, i, k - 1, me, s, g);
      RunsKeepInv(ws, es, k - 1);
      OneStep(ws, es, k - 1);
      StepKeepsOrphan(ws[k - 1], es[k - 1], me.id, g, s + me.leaseSeconds);
      StepMoves(ws[k - 1], es[k - 1]);
      OneRow(ws[k - 1].chat, ws[k].chat, g);
    }
  }

  lemma OneRow(db: C.Tables, after: C.Tables, g: Uuid)
    requires ChatMoves(db, after) && g in db.generations && g in after.generations
    ensures Moves(db.generations[g], after.generations[g])
  {
  }

  /** A reclaim of the user's rows after the end of the lease leaves no live orphan. */
  lemma ReclaimTakesOrphan(w: World, whose: Subject, now: Time, owner: Uuid, g: Uuid, expiresAt: Time)
    requires g in w.chat.generations && Orphaned(w.chat.generations[g], owner, expiresAt) && now > expiresAt
    requires C.OwnerOf(w.chat, w.chat.generations[g]) == Some(whose)
    ensures var after := Step(w, OnChat(Reclaim(Some(whose), now))).chat;
      g in after.generations && Orphaned(after.generations[g], owner, expiresAt) && !Live(after.generations[g].status)
  {
  }

  /** The slot check of the user's next request, five minutes after the lease ran out, closes the row. */
  lemma SlotCheckGivesUp(
    db: C.Tables, env: C.Env, user: Subject, now: Time, wall: Time, owner: Uuid, g: Uuid, expiresAt: Time)
    requires CI.Inv(db, env) && C.Holds(db, g, user)
    requires Orphaned(db.generations[g], owner, expiresAt) && !Live(db.generations[g].status)
    requires wall > expiresAt + RECONCILIATION_TIMEOUT_SECONDS
    ensures C.SlotCheck(db, user, now, wall) == Some(db.generations[g := GivenUp(db.generations[g], now)])
  {
    hide CI.Linked, CI.Rooted, CI.RecordsHold, CI.AllDrawn;
    assert C.IsNewestActive(db, user, g) by {
      forall h | C.Holds(db, h, user)
        ensures h == g
      {
      }
    }
    assert forall h :: C.IsNewestActive(db, user, h) ==> h == g;
  }

  /** The request, a question or a retry under a new key, could be accepted if nothing held the slot. */
  predicate Admissible(w: World, e: ChatEvent)
    requires e.Accept? || e.Retry?
  {
    var db, env := w.chat, EnvOf(w.material);
    && e.owner in env.users && e.newGeneration !in db.drawn
    && if e.Accept? then
         && C.CompletionRecord(e.owner, e.conversation, e.key) !in db.records
         && C.OpenConversation(db, env, e.conversation, e.owner)
         && env.personas[db.conversations[e.conversation].persona].active.Some?
         && e.newMessage !in db.drawn && e.newMessage != e.newGeneration
       else
         && C.RetryRecord(e.owner, e.original, e.key) !in db.records && e.original in db.generations
         && C.OpenConversation(db, env, db.generations[e.original].conversation, e.owner)
         && C.Refusal(db, e.original).None?
  }

  /** However many reclaims, cancel requests and other processes there were since the owner died, a question or retry of
      the user that reclaims after the lease ran out and checks the slot more than five minutes after that finds the row closed
      as timed out already, or closes it itself and gets the slot. */
  lemma CrashedOwnerGivesWay(
    ws: seq<World>, es: seq<Event>, i: nat, j: nat, k: nat, owner: Uuid, g: Uuid, expiresAt: Time, e: ChatEvent)
    requires IsRun(ws, es) && i <= j < k < |es| && OwnerIsDead(es, i, k, owner, g)
    requires (e.Accept? || e.Retry?) && es[k] == OnChat(e)
    requires es[j].OnChat? && es[j].chat.Reclaim? && es[j].chat.whose == Some(e.owner) && es[j].chat.now > expiresAt
    requires g in ws[i].chat.generations && Orphaned(ws[i].chat.generations[g], owner, expiresAt)
    requires C.OwnerOf(ws[i].chat, ws[i].chat.generations[g]) == Some(e.owner)
    requires e.wall > expiresAt + RECONCILIATION_TIMEOUT_SECONDS
    requires g in ws[k].chat.generations && Admissible(ws[k], e)
    ensures TimedOut(ws[k].chat.generations[g]) || C.Holds(ws[k].chat, g, e.owner)
    ensures C.Holds(ws[k].chat, g, e.owner) ==>
      var after := ws[k + 1].chat;
      && g in after.generations && TimedOut(after.generations[g])
      && C.Holds(after, e.newGeneration, e.owner)
  {
    hide Step, Inv, Orphaned, OwnerActs, Admissible;
    PresentBetween(ws, es, i, j, k, g);
    OrphanAlong(ws, es, i, j, owner, g, expiresAt);
    OwnerAlong(ws, es, i, j, g);
    ReclaimTakesOrphan(ws[j], e.owner, es[j].chat.now, owner, g, expiresAt);
    OneStep(ws, es, j);
    OrphanAlong(ws, es, j + 1, k, owner, g, expiresAt);
    OwnerAlong(ws, es, i, k, g);
    RunsKeepInv(ws, es, k);
    OneStep(ws, es, k);
    ClosesAndAccepts(ws[k], e, owner, g, expiresAt);
  }

  lemma PresentBetween(ws: seq<World>, es: seq<Event>, i: nat, j: nat, k: nat, g: Uuid)
    requires IsRun(ws, es) && i <= j < k <= |es| && g in ws[i].chat.generations && g in ws[k].chat.generations
    ensures g in ws[j].chat.generations && g in ws[j + 1].chat.generations
  {
    hide Inv;
    GenerationDrawn(ws, es, i, j, g);
    GenerationDrawn(ws, es, i, j + 1, g);
    if g !in ws[j].chat.generations {
      GoneForGood(ws, es, j, k, g);
    }
    if g !in ws[j + 1].chat.generations {
      GoneForGood(ws, es, j + 1, k, g);
    }
  }

  lemma ClosesAndAccepts(w: World, e: ChatEvent, owner: Uuid, g: Uuid, expiresAt: Time)
    requires Inv(w) && (e.Accept? || e.Retry?) && Admissible(w, e) && g in w.chat.generations
    requires Orphaned(w.chat.generations[g], owner, expiresAt) && !Live(w.chat.generations[g].status)
    requires C.OwnerOf(w.chat, w.chat.generations[g]) == Some(e.owner)
    requires e.wall > expiresAt + RECONCILIATION_TIMEOUT_SECONDS
    ensures TimedOut(w.chat.generations[g]) || C.Holds(w.chat, g, e.owner)
    ensures C.Holds(w.chat, g, e.owner) ==>
      var after := Step(w, OnChat(e)).chat;
      && g in after.generations && TimedOut(after.generations[g])
      && C.Holds(after, e.newGeneration, e.owner)
  {
    hide CI.Inv, C.SlotCheck, C.Refusal, EnvOf, MaterialStep, Delete;
    ChatDrawn(w);
    if C.Holds(w.chat, g, e.owner) {
      SlotCheckGivesUp(w.chat, EnvOf(w.material), e.owner, e.now, e.wall, owner, g, expiresAt);
    }
  }
}
