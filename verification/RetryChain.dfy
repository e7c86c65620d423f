/** All attempts at one user message form a single linear chain: one original, each retry of the attempt before it, with
    the version and frozen input of the first, and only the last one still open. */
module RetryChain {
  import opened Basics
  import opened Generations
  import C = ChatTables
  import CI = ChatInvariant
  import opened Runs
  import opened RowHistory

  type Rows = map<Uuid, Generation>

  // ---------------------------------------------------------------- chains

  /** The i-th attempt, seen from its neighbours. */
  predicate Link(rows: Rows, gs: seq<Uuid>, i: nat)
    requires i < |gs| && forall g :: g in gs ==> g in rows
  {
    var row, first := rows[gs[i]], rows[gs[0]];
    && row.retryOf == (if i == 0 then None else Some(gs[i - 1]))
    && row.version == first.version
    && (i > 0 ==> rows[gs[i - 1]].createdAt < row.createdAt)
    // an attempt is retried only when it is over, and then with its frozen input
    && (i + 1 < |gs| ==> Terminal(row.status) && row.snapshot.Some?)
    && (i > 0 ==> row.snapshot.Some? && row.snapshot == first.snapshot)
    && (row.snapshot.Some? ==> row.snapshot.value.version == row.version)
    && (row.status.Queued? ==> row.snapshot.None?)
  }

  ghost predicate IsChain(rows: Rows, gs: seq<Uuid>, m: Uuid) {
    && gs != []
    && (forall g :: g in gs <==> g in rows && rows[g].message == m)
    && (forall i :: 0 <= i < |gs| ==> Link(rows, gs, i))
  }

  ghost predicate AllChained(db: C.Tables) {
    forall m :: m in db.messages ==> exists gs :: IsChain(db.generations, gs, m)
  }

  /** Creation times grow along a chain, so no attempt is in it twice. */
  lemma {:induction false} ChainIsOrdered(rows: Rows, gs: seq<Uuid>, m: Uuid, i: nat, j: nat)
    requires IsChain(rows, gs, m) && i < j < |gs|
    ensures rows[gs[i]].createdAt < rows[gs[j]].createdAt && gs[i] != gs[j]
    decreases j
  {
    assert Link(rows, gs, j);
    if i < j - 1 {
      ChainIsOrdered(rows, gs, m, i, j - 1);
    }
  }

  /** The newest attempt is the end of the chain. */
  lemma LatestIsLast(db: C.Tables, gs: seq<Uuid>, g: Uuid)
    requires g in db.generations && IsChain(db.generations, gs, db.generations[g].message) && C.LatestAttempt(db, g)
    ensures gs[|gs| - 1] == g
  {
    var last := gs[|gs| - 1];
    assert last in gs && g in gs;
    var i :| 0 <= i < |gs| && gs[i] == g;
    assert C.NotAfter(db.generations[last].createdAt, last, db.generations[g].createdAt, g);
    if i < |gs| - 1 {
      ChainIsOrdered(db.generations, gs, db.generations[g].message, i, |gs| - 1);
    }
  }

  // ---------------------------------------------------------------- what keeps a chain

  /** The input is frozen when the row leaves the queue, with the row's own version, and no row goes back. */
  predicate SnapshotKept(r: Generation, s: Generation) {
    && (s.snapshot != r.snapshot ==>
          r.status.Queued? && !s.status.Queued? && s.snapshot.Some? && s.snapshot.value.version == r.version)
    && (s.status.Queued? ==> r.status.Queued?)
  }

  ghost predicate SnapshotsKept(rows: Rows, after: Rows) {
    forall g :: g in rows && g in after ==> SnapshotKept(rows[g], after[g])
  }

  lemma MovedChain(rows: Rows, after: Rows, gs: seq<Uuid>, m: Uuid)
    requires CI.RowsMove(rows, after) && SnapshotsKept(rows, after) && IsChain(rows, gs, m)
    ensures IsChain(after, gs, m)
  {
    forall g
      ensures g in gs <==> g in after && after[g].message == m
    {
      assert g in rows ==> Moves(rows[g], after[g]);
    }
    hide CI.RowsMove, SnapshotsKept;
    forall i | 0 <= i < |gs|
      ensures Link(after, gs, i)
    {
      assert gs[i] in gs && gs[0] in gs;
      MovedLink(rows, after, gs, i);
    }
  }

  lemma MovedLink(rows: Rows, after: Rows, gs: seq<Uuid>, i: nat)
    requires CI.RowsMove(rows, after) && SnapshotsKept(rows, after) && i < |gs| && (forall g :: g in gs ==> g in rows)
    requires Link(rows, gs, i) && Link(rows, gs, 0)
    ensures Link(after, gs, i)
  {
    assert gs[i] in gs && gs[0] in gs && (i > 0 ==> gs[i - 1] in gs);
    assert Moves(rows[gs[i]], after[gs[i]]) && SnapshotKept(rows[gs[i]], after[gs[i]]);
    assert Moves(rows[gs[0]], after[gs[0]]) && SnapshotKept(rows[gs[0]], after[gs[0]]);
    assert i > 0 ==> Moves(rows[gs[i - 1]], after[gs[i - 1]]);
    assert i > 0 ==> rows[gs[i]].snapshot == after[gs[i]].snapshot && rows[gs[0]].snapshot == after[gs[0]].snapshot;
  }

  /** A chain reads only its own attempts. */
  lemma SameChain(rows: Rows, after: Rows, gs: seq<Uuid>, m: Uuid)
    requires IsChain(rows, gs, m)
    requires forall g :: g in rows && rows[g].message == m ==> g in after && after[g] == rows[g]
    requires forall g :: g in after && after[g].message == m ==> g in rows && rows[g].message == m
    ensures IsChain(after, gs, m)
  {
    forall g
      ensures g in gs <==> g in after && after[g].message == m
    {
      assert g in gs <==> g in rows && rows[g].message == m;
    }
    forall i | 0 <= i < |gs|
      ensures Link(after, gs, i)
    {
      assert Link(rows, gs, i);
      assert gs[i] in gs && gs[0] in gs && (i > 0 ==> gs[i - 1] in gs);
    }
  }

  lemma NewChain(rows: Rows, g: Uuid, m: Uuid)
    requires g in rows && rows[g].message == m && (forall h :: h in rows && rows[h].message == m ==> h == g)
    requires rows[g].retryOf.None? && rows[g].snapshot.None?
    ensures IsChain(rows, [g], m)
  {
    assert Link(rows, [g], 0);
  }

  /** A retry of the last attempt makes the chain one longer. */
  lemma LongerChain(rows: Rows, gs: seq<Uuid>, m: Uuid, g: Uuid, row: Generation)
    requires IsChain(rows, gs, m) && g !in rows
    requires var last := rows[gs[|gs| - 1]];
      && Terminal(last.status) && last.snapshot.Some? && last.createdAt < row.createdAt
      && row.version == last.version && row.snapshot == last.snapshot
    requires row.message == m && row.retryOf == Some(gs[|gs| - 1]) && !row.status.Queued?
    ensures IsChain(rows[g := row], gs + [g], m)
  {
    var after, longer := rows[g := row], gs + [g];
    assert forall h :: h in longer <==> h in gs || h == g;
    assert Link(rows, gs, |gs| - 1) && Link(rows, gs, 0);
    forall i | 0 <= i < |longer|
      ensures Link(after, longer, i)
    {
      if i < |gs| {
        assert Link(rows, gs, i) && longer[i] == gs[i] && gs[i] in gs && gs[0] in gs;
        assert i > 0 ==> longer[i - 1] == gs[i - 1] && gs[i - 1] in gs;
      }
    }
  }

  // ---------------------------------------------------------------- one step

  /** What the chain rests on: the clock of the database moves between two inserts, and a stream freezes its input for the
      version it was accepted with. */
  predicate Orderly(db: C.Tables, e: Event) {
    match e
    case OnChat(Accept(now, _, _, _, _, _, _, _, _)) =>
      forall g :: g in db.generations ==> db.generations[g].createdAt < now
    case OnChat(Retry(now, _, _, _, _, _, _)) =>
      forall g :: g in db.generations ==> db.generations[g].createdAt < now
    case OnChat(MarkRunning(g, snapshot, _, _)) =>
      g in db.generations ==> snapshot.version == db.generations[g].version
    case _ => true
  }

  lemma SlotCheckKeepsSnapshots(db: C.Tables, owner: Subject, now: Time, wall: Time)
    requires C.SlotCheck(db, owner, now, wall).Some?
    ensures SnapshotsKept(db.generations, C.SlotCheck(db, owner, now, wall).value)
  {
  }

  lemma RowStepKeepsSnapshots(db: C.Tables, env: C.Env, e: ChatEvent)
    requires RowEvent(e) && Orderly(db, OnChat(e))
    ensures SnapshotsKept(db.generations, ChatStep(db, env, e).generations)
  {
    hide C.Accept, C.Retry, C.OpenNewConversation, C.OwnerOf;
  }

  lemma ChainsMoved(db: C.Tables, after: C.Tables)
    requires AllChained(db) && CI.RowsMove(db.generations, after.generations) && after.messages == db.messages
    requires SnapshotsKept(db.generations, after.generations)
    ensures AllChained(after)
  {
    hide CI.RowsMove, SnapshotsKept, IsChain;
    forall m | m in after.messages
      ensures exists gs :: IsChain(after.generations, gs, m)
    {
      var gs :| IsChain(db.generations, gs, m);
      MovedChain(db.generations, after.generations, gs, m);
    }
  }

  lemma AcceptChains(db: C.Tables, env: C.Env, e: ChatEvent)
    requires CI.Inv(db, env) && AllChained(db) && e.Accept?
    ensures AllChained(ChatStep(db, env, e))
  {
    hide CI.Inv, CI.RowsMove, IsChain, C.SlotCheck, SnapshotsKept, AllChained;
    var after := ChatStep(db, env, e);
    if after != db {
      CI.SlotCheckFrees(db, env, e.owner, e.now, e.wall);
      SlotCheckKeepsSnapshots(db, e.owner, e.now, e.wall);
      var freed := db.(generations := C.SlotCheck(db, e.owner, e.now, e.wall).value);
      ChainsMoved(db, freed);
      MessagesOfRows(freed, env);
      NewMessageChains(freed, after, e.newMessage, e.newGeneration);
    }
  }

  lemma MessagesOfRows(db: C.Tables, env: C.Env)
    requires CI.Inv(db, env)
    ensures forall g :: g in db.generations ==> db.generations[g].message in db.messages
    ensures db.messages.Keys <= db.drawn && db.generations.Keys <= db.drawn
  {
    hide CI.Rooted, CI.RecordsHold, CI.OneSlot;
    forall g | g in db.generations
      ensures db.generations[g].message in db.messages
    {
      assert CI.RowLinked(db, db.generations[g]);
    }
  }

  lemma NewMessageChains(db: C.Tables, after: C.Tables, m: Uuid, g: Uuid)
    requires AllChained(db) && (forall h :: h in db.generations ==> db.generations[h].message in db.messages)
    requires m !in db.messages && g !in db.generations && g in after.generations && m in after.messages
    requires after.messages == db.messages[m := after.messages[m]]
    requires after.generations == db.generations[g := after.generations[g]]
    requires var row := after.generations[g]; row.message == m && row.retryOf.None? && row.snapshot.None?
    ensures AllChained(after)
  {
    hide IsChain;
    NewChain(after.generations, g, m);
    forall n | n in after.messages
      ensures exists gs :: IsChain(after.generations, gs, n)
    {
      if n != m {
        var gs :| IsChain(db.generations, gs, n);
        SameChain(db.generations, after.generations, gs, n);
      } else {
        assert IsChain(after.generations, [g], m);
      }
    }
  }

  lemma RetryChains(db: C.Tables, env: C.Env, e: ChatEvent)
    requires CI.Inv(db, env) && AllChained(db) && e.Retry? && Orderly(db, OnChat(e))
    ensures AllChained(ChatStep(db, env, e))
  {
    hide CI.Inv, CI.RowsMove, IsChain, C.SlotCheck, SnapshotsKept, AllChained, C.LatestMessage, C.LatestAttempt;
    var after := ChatStep(db, env, e);
    if after != db {
      var original := db.generations[e.original];
      CI.SlotCheckFrees(db, env, e.owner, e.now, e.wall);
      SlotCheckKeepsSnapshots(db, e.owner, e.now, e.wall);
      var freed := db.(generations := C.SlotCheck(db, e.owner, e.now, e.wall).value);
      ChainsMoved(db, freed);
      MessagesOfRows(freed, env);
      TerminalStays(db.generations, freed.generations, e.original);
      SameMoments(db.generations, freed.generations);
      LatestStays(db, freed, e.original);
      LongerMessageChain(freed, after, e.original, e.newGeneration);
    }
  }

  lemma TerminalStays(rows: Rows, after: Rows, g: Uuid)
    requires CI.RowsMove(rows, after) && g in rows && Terminal(rows[g].status)
    ensures g in after && after[g] == rows[g]
  {
    assert Moves(rows[g], after[g]);
  }

  lemma SameMoments(rows: Rows, after: Rows)
    requires CI.RowsMove(rows, after)
    ensures rows.Keys == after.Keys
    ensures forall g :: g in rows ==> after[g].createdAt == rows[g].createdAt && after[g].message == rows[g].message
  {
  }

  lemma LatestStays(db: C.Tables, freed: C.Tables, g: Uuid)
    requires C.LatestAttempt(db, g) && CI.RowsMove(db.generations, freed.generations)
    ensures C.LatestAttempt(freed, g)
  {
    SameMoments(db.generations, freed.generations);
  }

  lemma LongerMessageChain(db: C.Tables, after: C.Tables, original: Uuid, g: Uuid)
    requires AllChained(db) && original in db.generations && C.LatestAttempt(db, original) && g !in db.generations
    requires var last := db.generations[original];
      && last.message in db.messages && Terminal(last.status) && last.snapshot.Some?
    requires g in after.generations && after.messages == db.messages
    requires after.generations == db.generations[g := after.generations[g]]
    requires var last, row := db.generations[original], after.generations[g];
      && row.message == last.message && row.version == last.version && row.snapshot == last.snapshot
      && row.retryOf == Some(original) && !row.status.Queued? && last.createdAt < row.createdAt
    ensures AllChained(after)
  {
    hide IsChain, C.LatestAttempt;
    var m := db.generations[original].message;
    forall n | n in after.messages
      ensures exists gs :: IsChain(after.generations, gs, n)
    {
      var gs :| IsChain(db.generations, gs, n);
      if n != m {
        SameChain(db.generations, after.generations, gs, n);
      } else {
        NonEmptyChain(db.generations, gs, n);
        LatestIsLast(db, gs, original);
        LongerChain(db.generations, gs, n, g, after.generations[g]);
        assert IsChain(after.generations, gs + [g], n);
      }
    }
  }

  lemma NonEmptyChain(rows: Rows, gs: seq<Uuid>, m: Uuid)
    requires IsChain(rows, gs, m)
    ensures gs != []
  {
  }

  lemma DeleteChains(db: C.Tables, env: C.Env, owner: Subject, p: Uuid)
    requires CI.Inv(db, env) && AllChained(db)
    ensures AllChained(C.DeleteChat(db, owner, p))
  {
    hide CI.Rooted, CI.RecordsHold, CI.OneSlot, CI.AllDrawn, IsChain;
    var after := C.DeleteChat(db, owner, p);
    forall m | m in after.messages
      ensures exists gs :: IsChain(after.generations, gs, m)
    {
      var gs :| IsChain(db.generations, gs, m);
      forall g | g in db.generations && db.generations[g].message == m
        ensures g in after.generations && after.generations[g] == db.generations[g]
      {
        assert CI.RowLinked(db, db.generations[g]);
      }
      SameChain(db.generations, after.generations, gs, m);
    }
  }

  lemma ChatStepChains(db: C.Tables, env: C.Env, e: ChatEvent)
    requires CI.Inv(db, env) && AllChained(db) && Orderly(db, OnChat(e))
    ensures AllChained(ChatStep(db, env, e))
  {
    hide CI.Inv, CI.RowsMove, AllChained, SnapshotsKept, ChatMoves;
    match e
    case Accept(_, _, _, _, _, _, _, _, _) => AcceptChains(db, env, e);
    case Retry(_, _, _, _, _, _, _) => RetryChains(db, env, e);
    case OpenConversation(_, _, _, _) =>
      SameChains(db, ChatStep(db, env, e));
    case _ =>
      RowStepMoves(db, env, e);
      RowStepKeepsSnapshots(db, env, e);
      RowEventKeepsMessages(db, env, e);
      ChainsMoved(db, ChatStep(db, env, e));
  }

  lemma RowEventKeepsMessages(db: C.Tables, env: C.Env, e: ChatEvent)
    requires RowEvent(e)
    ensures ChatStep(db, env, e).messages == db.messages
  {
    hide C.Accept, C.Retry, C.OpenNewConversation, C.OwnerOf;
  }

  lemma SameChains(db: C.Tables, after: C.Tables)
    requires AllChained(db) && after.messages == db.messages && after.generations == db.generations
    ensures AllChained(after)
  {
    hide IsChain;
  }

  lemma StepChains(w: World, e: Event)
    requires Inv(w) && AllChained(w.chat) && Orderly(w.chat, e)
    ensures AllChained(Step(w, e).chat)
  {
    hide CI.Inv, AllChained, MaterialStep, ChatStep, C.DeleteChat, Orderly;
    match e
    case OnMaterial(_) =>
    case OnChat(c) => ChatStepChains(w.chat, EnvOf(w.material), c);
    case DeletePersona(owner, p, _) => DeleteChains(w.chat, EnvOf(w.material), owner, p);
  }

  // ---------------------------------------------------------------- whole runs

  /** In every reachable state of an orderly run the attempts at each user message are one linear retry chain. */
  lemma {:induction false} AttemptsFormChains(ws: seq<World>, es: seq<Event>, n: nat)
    requires IsRun(ws, es) && n <= |es| && forall k :: 0 <= k < n ==> Orderly(ws[k].chat, es[k])
    ensures AllChained(ws[n].chat)
  {
    hide Step, Inv, AllChained, Orderly;
    if n == 0 {
      NoChains();
    } else {
      AttemptsFormChains(ws, es, n - 1);
      RunsKeepInv(ws, es, n - 1);
      OneStep(ws, es, n - 1);
      StepChains(ws[n - 1], es[n - 1]);
    }
  }

  lemma NoChains()
    ensures AllChained(START.chat)
  {
  }

  /** So any two attempts at one message agree on version and frozen input, and at most one of them is not terminal. */
  lemma AttemptsAgree(ws: seq<World>, es: seq<Event>, n: nat, g: Uuid, h: Uuid)
    requires IsRun(ws, es) && n <= |es| && forall k :: 0 <= k < n ==> Orderly(ws[k].chat, es[k])
    requires var rows := ws[n].chat.generations;
      g in rows && h in rows && rows[g].message == rows[h].message && g != h
    ensures var rows := ws[n].chat.generations;
      && rows[g].version == rows[h].version && rows[g].snapshot == rows[h].snapshot
      && rows[g].snapshot.Some? && rows[g].snapshot.value.version == rows[g].version
      && (Terminal(rows[g].status) || Terminal(rows[h].status))
  {
    hide Step, Inv, IsChain, Orderly;
    AttemptsFormChains(ws, es, n);
    RunsKeepInv(ws, es, n);
    MessageExists(ws[n], g);
    hide AllChained;
    ChainOf(ws[n].chat, ws[n].chat.generations[g].message);
    var rows := ws[n].chat.generations;
    var gs :| IsChain(rows, gs, rows[g].message);
    LinksAgree(rows, gs, g, h);
  }

  lemma MessageExists(w: World, g: Uuid)
    requires Inv(w) && g in w.chat.generations
    ensures w.chat.generations[g].message in w.chat.messages
  {
    MessagesOfRows(w.chat, EnvOf(w.material));
  }

  lemma ChainOf(db: C.Tables, m: Uuid)
    requires AllChained(db) && m in db.messages
    ensures exists gs :: IsChain(db.generations, gs, m)
  {
  }

  lemma LinksAgree(rows: Rows, gs: seq<Uuid>, g: Uuid, h: Uuid)
    requires g in rows && h in rows && g != h && rows[h].message == rows[g].message
    requires IsChain(rows, gs, rows[g].message)
    ensures rows[g].version == rows[h].version && rows[g].snapshot == rows[h].snapshot
    ensures rows[g].snapshot.Some? && rows[g].snapshot.value.version == rows[g].version
    ensures Terminal(rows[g].status) || Terminal(rows[h].status)
  {
    var i :| 0 <= i < |gs| && gs[i] == g;
    var j :| 0 <= j < |gs| && gs[j] == h;
    assert Link(rows, gs, i) && Link(rows, gs, j) && Link(rows, gs, 0);
  }
}
