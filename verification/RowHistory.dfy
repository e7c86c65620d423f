/** What happens to one generation over a whole run: it only ever moves up the ranks, a terminal or forsaken row stays
    so, a deleted row never comes back, and the two counters count the rows that entered reconciling. */
module RowHistory {
  import opened Basics
  import opened Generations
  import C = ChatTables
  import CI = ChatInvariant
  import opened Runs

  // ---------------------------------------------------------------- one step

  /** Rows that stay have moved, rows that appear are new. */
  ghost predicate ChatMoves(db: C.Tables, after: C.Tables) {
    && db.drawn <= after.drawn
    && (forall g :: g in db.generations && g in after.generations ==> Moves(db.generations[g], after.generations[g]))
    && (forall g :: g in after.generations && g !in db.generations ==> g !in db.drawn)
    && (forall m :: m in after.messages && m !in db.messages ==> m !in db.drawn)
    && (forall c :: c in after.conversations && c !in db.conversations ==> c !in db.drawn)
    && (forall m :: m in after.messages && m in db.messages ==> after.messages[m] == db.messages[m])
    && (forall c :: c in after.conversations && c in db.conversations ==> after.conversations[c] == db.conversations[c])
  }

  lemma RowsOnly(db: C.Tables, after: C.Tables)
    requires CI.RowsMove(db.generations, after.generations) && after.drawn == db.drawn
    requires after.messages == db.messages && after.conversations == db.conversations
    ensures ChatMoves(db, after)
  {
    hide Moves;
  }

  /** A new row on top of moved rows. */
  lemma RowInserted(db: C.Tables, freed: map<Uuid, Generation>, after: C.Tables, g: Uuid, m: Uuid)
    requires CI.RowsMove(db.generations, freed) && g !in db.drawn && g !in db.generations
    requires g in after.generations && after.generations == freed[g := after.generations[g]]
    requires after.messages == db.messages || (m !in db.drawn && m !in db.messages && m in after.messages
                                                && after.messages == db.messages[m := after.messages[m]])
    requires after.conversations == db.conversations && db.drawn <= after.drawn
    ensures ChatMoves(db, after)
  {
    hide Moves;
  }

  lemma AcceptMoves(
    db: C.Tables, env: C.Env, now: Time, wall: Time, me: Instance,
    owner: Subject, conversation: Uuid, message: string, key: Uuid, newMessage: Uuid, newGeneration: Uuid)
    requires CI.Inv(db, env)
    ensures ChatMoves(db, C.Accept(db, env, now, wall, me, owner, conversation, message, key, newMessage, newGeneration).0)
  {
    hide CI.Inv, C.SlotCheck, CI.RowsMove, ChatMoves;
    var step := C.Accept(db, env, now, wall, me, owner, conversation, message, key, newMessage, newGeneration);
    if step.0 != db {
      CI.SlotCheckFrees(db, env, owner, now, wall);
      Undrawn(db, env);
      RowInserted(db, C.SlotCheck(db, owner, now, wall).value, step.0, newGeneration, newMessage);
    } else {
      SameChat(db);
    }
  }

  lemma RetryMoves(
    db: C.Tables, env: C.Env, now: Time, wall: Time, me: Instance,
    owner: Subject, original: Uuid, key: Uuid, newGeneration: Uuid)
    requires CI.Inv(db, env)
    ensures ChatMoves(db, C.Retry(db, env, now, wall, me, owner, original, key, newGeneration).0)
  {
    hide CI.Inv, C.SlotCheck, CI.RowsMove, ChatMoves, C.Refusal;
    var step := C.Retry(db, env, now, wall, me, owner, original, key, newGeneration);
    if step.0 != db {
      CI.SlotCheckFrees(db, env, owner, now, wall);
      Undrawn(db, env);
      RowInserted(db, C.SlotCheck(db, owner, now, wall).value, step.0, newGeneration, 0);
    } else {
      SameChat(db);
    }
  }

  lemma Undrawn(db: C.Tables, env: C.Env)
    requires CI.Inv(db, env)
    ensures db.conversations.Keys <= db.drawn && db.messages.Keys <= db.drawn && db.generations.Keys <= db.drawn
  {
  }

  lemma SameChat(db: C.Tables)
    ensures ChatMoves(db, db)
  {
  }

  lemma ChatStepMoves(db: C.Tables, env: C.Env, e: ChatEvent)
    requires CI.Inv(db, env)
    ensures ChatMoves(db, ChatStep(db, env, e))
  {
    hide CI.Inv, CI.RowsMove;
    match e
    case OpenConversation(owner, persona, key, newConversation) =>
      Undrawn(db, env);
      SameChat(db);
    case Accept(now, wall, me, owner, conversation, message, key, newMessage, newGeneration) =>
      AcceptMoves(db, env, now, wall, me, owner, conversation, message, key, newMessage, newGeneration);
    case Retry(now, wall, me, owner, original, key, newGeneration) =>
      RetryMoves(db, env, now, wall, me, owner, original, key, newGeneration);
    case _ =>
      RowStepMoves(db, env, e);
  }

  predicate RowEvent(e: ChatEvent) {
    !e.OpenConversation? && !e.Accept? && !e.Retry?
  }

  lemma RowStepMoves(db: C.Tables, env: C.Env, e: ChatEvent)
    requires CI.Inv(db, env) && RowEvent(e)
    ensures CI.RowsMove(db.generations, ChatStep(db, env, e).generations)
    ensures ChatMoves(db, ChatStep(db, env, e))
  {
    hide CI.Inv, CI.RowsMove, ChatMoves, MarkedRunning, Finished, Parked, CancelAsked, Reclaimed, Released, Extended;
    match e {
      case MarkRunning(g, snapshot, me, now) => CI.MarkRunningKeepsInv(db, env, g, snapshot, me, now);
      case Finish(g, verdict, content, now) => CI.FinishKeepsInv(db, env, g, verdict, content, now);
      case Disconnect(g, now) => CI.DisconnectKeepsInv(db, env, g, now);
      case RequestCancel(owner, g, now) => CI.RequestCancelKeepsInv(db, env, owner, g, now);
      case Reclaim(owner, now) => CI.ReclaimKeepsInv(db, env, owner, now);
      case ExtendLeases(me, now) => CI.ExtendLeasesKeepsInv(db, env, me, now);
      case Release(instance, now) => CI.ReleaseKeepsInv(db, env, instance, now);
    }
    RowsOnly(db, ChatStep(db, env, e));
  }

  lemma DeleteMoves(db: C.Tables, owner: Subject, p: Uuid)
    ensures ChatMoves(db, C.DeleteChat(db, owner, p))
  {
    forall g | g in db.generations
      ensures Moves(db.generations[g], db.generations[g])
    {
    }
    hide Moves;
  }

  lemma StepMoves(w: World, e: Event)
    requires Inv(w)
    ensures ChatMoves(w.chat, Step(w, e).chat)
  {
    hide ChatMoves, CI.Inv, MaterialStep, ChatStep;
    match e
    case OnMaterial(_) => SameChat(w.chat);
    case OnChat(c) => ChatStepMoves(w.chat, EnvOf(w.material), c);
    case DeletePersona(owner, p, _) =>
      SameChat(w.chat);
      DeleteMoves(w.chat, owner, p);
  }

  lemma DrawnGrows(db: C.Tables, after: C.Tables)
    requires ChatMoves(db, after)
    ensures db.drawn <= after.drawn
  {
  }

  lemma ChatDrawn(w: World)
    requires Inv(w)
    ensures w.chat.generations.Keys <= w.chat.drawn && w.chat.conversations.Keys <= w.chat.drawn
    ensures w.chat.messages.Keys <= w.chat.drawn
  {
    Undrawn(w.chat, EnvOf(w.material));
  }

  // ---------------------------------------------------------------- whole runs

  /** A generation that is gone never comes back. */
  lemma {:induction false} GoneForGood(ws: seq<World>, es: seq<Event>, i: nat, k: nat, g: Uuid)
    requires IsRun(ws, es) && i <= k <= |es| && g in ws[i].chat.drawn && g !in ws[i].chat.generations
    ensures g in ws[k].chat.drawn && g !in ws[k].chat.generations
    decreases k - i
  {
    hide Step, Inv;
    if i < k {
      GoneForGood(ws, es, i, k - 1, g);
      RunsKeepInv(ws, es, k - 1);
      OneStep(ws, es, k - 1);
      StepMoves(ws[k - 1], es[k - 1]);
    }
  }

  /** Between any two points of any run a generation only moves up: the rank never falls and rises with every change of
      status, terminal rows are frozen, a forsaken row never runs or completes, and the input of a row that left the
      queue is fixed. */
  lemma {:induction false} RowsOnlyMove(ws: seq<World>, es: seq<Event>, i: nat, k: nat, g: Uuid)
    requires IsRun(ws, es) && i <= k <= |es| && g in ws[i].chat.generations && g in ws[k].chat.generations
    ensures Moves(ws[i].chat.generations[g], ws[k].chat.generations[g])
    decreases k - i
  {
    hide Step, Inv, Moves;
    if i == k {
      CI.SameMoves(ws[i].chat.generations[g]);
    } else {
      RunsKeepInv(ws, es, k - 1);
      OneStep(ws, es, k - 1);
      StepMoves(ws[k - 1], es[k - 1]);
      GenerationDrawn(ws, es, i, k - 1, g);
      RowsOnlyMove(ws, es, i, k - 1, g);
      MovesAlong(ws[i].chat.generations[g], ws[k - 1].chat.generations[g], ws[k].chat.generations[g]);
    }
  }

  lemma {:induction false} ChatDrawnAlong(ws: seq<World>, es: seq<Event>, i: nat, k: nat)
    requires IsRun(ws, es) && i <= k <= |es|
    ensures ws[i].chat.drawn <= ws[k].chat.drawn
    decreases k - i
  {
    hide Step, Inv, ChatMoves;
    if i < k {
      ChatDrawnAlong(ws, es, i, k - 1);
      RunsKeepInv(ws, es, k - 1);
      OneStep(ws, es, k - 1);
      StepMoves(ws[k - 1], es[k - 1]);
      DrawnGrows(ws[k - 1].chat, ws[k].chat);
    }
  }

  lemma GenerationDrawn(ws: seq<World>, es: seq<Event>, i: nat, k: nat, g: Uuid)
    requires IsRun(ws, es) && i <= k <= |es| && g in ws[i].chat.generations
    ensures g in ws[k].chat.drawn
  {
    hide Inv;
    ChatDrawnAlong(ws, es, i, k);
    RunsKeepInv(ws, es, i);
    ChatDrawn(ws[i]);
  }

  ghost predicate WrittenOnce(before: C.Tables, now: C.Tables) {
    && (forall c :: c in before.conversations && c in now.conversations ==> now.conversations[c] == before.conversations[c])
    && (forall m :: m in before.messages && m in now.messages ==> now.messages[m] == before.messages[m])
  }

  /** Conversations and user messages are written once. */
  lemma {:induction false} ChatRowsNeverChange(ws: seq<World>, es: seq<Event>, i: nat, k: nat)
    requires IsRun(ws, es) && i <= k <= |es|
    ensures WrittenOnce(ws[i].chat, ws[k].chat)
    decreases k - i
  {
    hide Step, Inv, ChatMoves, WrittenOnce;
    if i == k {
      assert WrittenOnce(ws[i].chat, ws[i].chat) by { SameIsWrittenOnce(ws[i].chat); }
    } else {
      RunsKeepInv(ws, es, k - 1);
      OneStep(ws, es, k - 1);
      StepMoves(ws[k - 1], es[k - 1]);
      ChatRowsNeverChange(ws, es, i, k - 1);
      RunsKeepInv(ws, es, i);
      ChatDrawn(ws[i]);
      ChatDrawnAlong(ws, es, i, k - 1);
      OneMoreWrittenOnce(ws[i].chat, ws[k - 1].chat, ws[k].chat);
    }
  }

  lemma SameIsWrittenOnce(db: C.Tables)
    ensures WrittenOnce(db, db)
  {
  }

  lemma OneMoreWrittenOnce(before: C.Tables, last: C.Tables, now: C.Tables)
    requires WrittenOnce(before, last) && ChatMoves(last, now)
    requires before.conversations.Keys <= last.drawn && before.messages.Keys <= last.drawn
    ensures WrittenOnce(before, now)
  {
  }

  /** A generation belongs to the same user as long as it exists. */
  lemma OwnerAlong(ws: seq<World>, es: seq<Event>, i: nat, k: nat, g: Uuid)
    requires IsRun(ws, es) && i <= k <= |es| && g in ws[i].chat.generations && g in ws[k].chat.generations
    ensures C.OwnerOf(ws[k].chat, ws[k].chat.generations[g])
         == C.OwnerOf(ws[i].chat, ws[i].chat.generations[g])
  {
    hide Inv;
    RowsOnlyMove(ws, es, i, k, g);
    ChatRowsNeverChange(ws, es, i, k);
    RunsKeepInv(ws, es, i);
    RunsKeepInv(ws, es, k);
    HasConversation(ws[i], g);
    HasConversation(ws[k], g);
  }

  lemma HasConversation(w: World, g: Uuid)
    requires Inv(w) && g in w.chat.generations
    ensures w.chat.generations[g].conversation in w.chat.conversations
  {
    hide CI.Rooted, CI.OneSlot, CI.AllDrawn, CI.RecordsHold;
    assert CI.RowLinked(w.chat, w.chat.generations[g]);
  }

  /** In every reachable state each user has at most one generation in an active status. */
  lemma OneActiveGeneration(ws: seq<World>, es: seq<Event>, n: nat, owner: Subject, g: Uuid, h: Uuid)
    requires IsRun(ws, es) && n <= |es|
    requires C.Holds(ws[n].chat, g, owner) && C.Holds(ws[n].chat, h, owner)
    ensures g == h
  {
    RunsKeepInv(ws, es, n);
  }

  /** Once cancel was requested, or the outcome became unknown, the row never runs or completes. */
  lemma CancelIsNeverLost(ws: seq<World>, es: seq<Event>, i: nat, k: nat, g: Uuid)
    requires IsRun(ws, es) && i <= k <= |es| && g in ws[i].chat.generations && g in ws[k].chat.generations
    requires Forsaken(ws[i].chat.generations[g].status)
    ensures Forsaken(ws[k].chat.generations[g].status)
    ensures !ws[k].chat.generations[g].status.Running? && !ws[k].chat.generations[g].status.Completed?
  {
    RowsOnlyMove(ws, es, i, k, g);
  }

  // ---------------------------------------------------------------- the counters

  /** The rows that this step sends to reconciling. */
  ghost function Entering(db: C.Tables, after: C.Tables): set<Uuid> {
    set g | g in db.generations && g in after.generations
      && !db.generations[g].status.Reconciling? && after.generations[g].status.Reconciling?
  }

  /** The rows that entered reconciling at some time during the first n events, deleted ones included. */
  ghost function EverReconciling(ws: seq<World>, n: nat): set<Uuid>
    requires n < |ws|
  {
    if n == 0 then {} else EverReconciling(ws, n - 1) + Entering(ws[n - 1].chat, ws[n].chat)
  }

  /** The step counts what it sends to reconciling. */
  ghost predicate Counts(db: C.Tables, after: C.Tables) {
    after.disconnects + after.reclaimed == db.disconnects + db.reclaimed + |Entering(db, after)|
  }

  lemma NoneEntering(db: C.Tables, after: C.Tables)
    requires after.disconnects == db.disconnects && after.reclaimed == db.reclaimed
    requires forall g :: g in db.generations && g in after.generations ==>
      (after.generations[g].status.Reconciling? ==> db.generations[g].status.Reconciling?)
    ensures Counts(db, after)
  {
    assert Entering(db, after) == {};
  }

  lemma DisconnectCounts(db: C.Tables, g: Uuid, now: Time)
    ensures Counts(db, C.Disconnect(db, g, now))
  {
    var after := C.Disconnect(db, g, now);
    if g in db.generations && Live(db.generations[g].status) {
      assert Entering(db, after) == {g};
    } else {
      NoneEntering(db, after);
    }
  }

  lemma ReclaimCounts(db: C.Tables, owner: Option<Subject>, now: Time)
    ensures Counts(db, C.Reclaim(db, owner, now))
  {
    assert Entering(db, C.Reclaim(db, owner, now)) == C.ReclaimedRows(db, owner, now);
  }

  lemma ReleaseCounts(db: C.Tables, instance: Uuid, now: Time)
    ensures Counts(db, C.Release(db, instance, now))
  {
    assert Entering(db, C.Release(db, instance, now)) == C.OwnedRows(db, instance);
  }

  lemma SlotCheckEntersNone(db: C.Tables, owner: Subject, now: Time, wall: Time)
    requires C.SlotCheck(db, owner, now, wall).Some?
    ensures var freed := C.SlotCheck(db, owner, now, wall).value;
      forall g :: g in db.generations ==>
        g in freed && (freed[g].status.Reconciling? ==> db.generations[g].status.Reconciling?)
  {
  }

  lemma InsertCounts(db: C.Tables, env: C.Env, e: ChatEvent)
    requires CI.Inv(db, env) && (e.Accept? || e.Retry?)
    ensures Counts(db, ChatStep(db, env, e))
  {
    hide CI.Inv, C.SlotCheck, Counts, C.Refusal;
    Undrawn(db, env);
    if C.SlotCheck(db, e.owner, e.now, e.wall).Some? {
      SlotCheckEntersNone(db, e.owner, e.now, e.wall);
    }
    NoneEntering(db, ChatStep(db, env, e));
  }

  lemma ChatStepCounts(db: C.Tables, env: C.Env, e: ChatEvent)
    requires CI.Inv(db, env)
    ensures Counts(db, ChatStep(db, env, e))
  {
    hide CI.Inv, Counts, C.Accept, C.Retry, C.Disconnect, C.Reclaim, C.Release;
    match e
    case Accept(_, _, _, _, _, _, _, _, _) => InsertCounts(db, env, e);
    case Retry(_, _, _, _, _, _, _) => InsertCounts(db, env, e);
    case Disconnect(g, now) => DisconnectCounts(db, g, now);
    case Reclaim(owner, now) => ReclaimCounts(db, owner, now);
    case Release(instance, now) => ReleaseCounts(db, instance, now);
    case _ => NoneEntering(db, ChatStep(db, env, e));
  }

  lemma StepCounts(w: World, e: Event)
    requires Inv(w)
    ensures Counts(w.chat, Step(w, e).chat)
  {
    hide Counts, CI.Inv, MaterialStep, ChatStep;
    match e
    case OnMaterial(_) => NoneEntering(w.chat, w.chat);
    case OnChat(c) => ChatStepCounts(w.chat, EnvOf(w.material), c);
    case DeletePersona(owner, p, _) => NoneEntering(w.chat, Step(w, e).chat);
  }

  /** A row past the live states does not enter reconciling again. */
  lemma EntersBelow(db: C.Tables, after: C.Tables, g: Uuid)
    requires ChatMoves(db, after) && g in Entering(db, after)
    ensures Rank(db.generations[g].status) < 3
  {
    assert Moves(db.generations[g], after.generations[g]);
  }

  lemma RankStays(db: C.Tables, after: C.Tables, g: Uuid)
    requires ChatMoves(db, after) && g in db.drawn
    requires g in db.generations ==> Rank(db.generations[g].status) >= 3
    ensures g in after.generations ==> Rank(after.generations[g].status) >= 3
  {
    assert g in db.generations && g in after.generations ==> Moves(db.generations[g], after.generations[g]);
  }

  /** A row that ever entered reconciling is past it now, or deleted. */
  lemma {:induction false} EnteredOnce(ws: seq<World>, es: seq<Event>, n: nat, g: Uuid)
    requires IsRun(ws, es) && n <= |es| && g in EverReconciling(ws, n)
    ensures g in ws[n].chat.drawn
    ensures g in ws[n].chat.generations ==> Rank(ws[n].chat.generations[g].status) >= 3
  {
    hide Step, Inv, ChatMoves;
    if n > 0 {
      RunsKeepInv(ws, es, n - 1);
      OneStep(ws, es, n - 1);
      StepMoves(ws[n - 1], es[n - 1]);
      var before, after := ws[n - 1], ws[n];
      assert before.chat.drawn <= after.chat.drawn by { DrawnGrows(before.chat, after.chat); }
      if g in EverReconciling(ws, n - 1) {
        EnteredOnce(ws, es, n - 1, g);
        RankStays(before.chat, after.chat, g);
      } else {
        ChatDrawn(before);
      }
    }
  }

  /** Over all processes and the whole run, the number of generations that ever entered reconciling is the sum of the
      disconnect counter and the reclaim counter. */
  lemma {:induction false} CountersCountReconciling(ws: seq<World>, es: seq<Event>, n: nat)
    requires IsRun(ws, es) && n <= |es|
    ensures |EverReconciling(ws, n)| == ws[n].chat.disconnects + ws[n].chat.reclaimed
  {
    hide Step, Inv, ChatMoves, Entering;
    if n > 0 {
      CountersCountReconciling(ws, es, n - 1);
      RunsKeepInv(ws, es, n - 1);
      OneStep(ws, es, n - 1);
      StepCounts(ws[n - 1], es[n - 1]);
      StepMoves(ws[n - 1], es[n - 1]);
      var past, now := EverReconciling(ws, n - 1), Entering(ws[n - 1].chat, ws[n].chat);
      forall g | g in now
        ensures g !in past
      {
        EntersBelow(ws[n - 1].chat, ws[n].chat, g);
        InEntering(ws[n - 1].chat, ws[n].chat, g);
        if g in past {
          EnteredOnce(ws, es, n - 1, g);
        }
      }
      assert |past + now| == |past| + |now|;
    }
  }

  lemma InEntering(db: C.Tables, after: C.Tables, g: Uuid)
    requires g in Entering(db, after)
    ensures g in db.generations
  {
  }
}
