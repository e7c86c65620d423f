/** Deleting a persona: its rows are gone, no later transaction of anybody brings one back, and no row of another persona
    was touched. */
module Deletion {
  import opened Basics
  import opened Generations
  import M = Materials
  import MI = MaterialInvariant
  import C = ChatTables
  import CI = ChatInvariant
  import PersonaSteps
  import opened Runs
  import opened RowHistory
  import opened MaterialHistory

  predicate IsDeleted(w: World, p: Uuid) {
    p in w.material.personas && w.material.personas[p].deleted
  }

  predicate InConversationOf(db: C.Tables, c: Uuid, p: Uuid) {
    c in db.conversations && db.conversations[c].persona == p
  }

  predicate MessageOf(db: C.Tables, m: Uuid, p: Uuid) {
    m in db.messages && InConversationOf(db, db.messages[m].conversation, p)
  }

  predicate GenerationOf(db: C.Tables, g: Uuid, p: Uuid) {
    g in db.generations && InConversationOf(db, db.generations[g].conversation, p)
  }

  predicate VersionOf(db: M.Tables, v: Uuid, p: Uuid) {
    v in db.versions && db.versions[v].persona == p
  }

  predicate SourceOf(db: M.Tables, s: Uuid, p: Uuid) {
    s in db.sources && VersionOf(db, db.sources[s].version, p)
  }

  // ---------------------------------------------------------------- nothing is left

  /** No row of any table but the tombstone and its idempotency records belongs to the persona, and no index run does. */
  ghost predicate NothingLeft(w: World, p: Uuid) {
    && (forall v :: v in w.material.versions ==> w.material.versions[v].persona != p)
    && (forall s :: s in w.material.sources ==>
          w.material.sources[s].version in w.material.versions
          && w.material.versions[w.material.sources[s].version].persona != p)
    && (forall c :: c in w.material.chunks ==> w.material.chunks[c].persona != p)
    && (forall j :: j in w.material.jobs ==> w.material.jobs[j].persona != p)
    && (forall c :: c in w.chat.conversations ==> w.chat.conversations[c].persona != p)
    && (forall m :: m in w.chat.messages ==>
          w.chat.messages[m].conversation in w.chat.conversations
          && !InConversationOf(w.chat, w.chat.messages[m].conversation, p))
    && (forall g :: g in w.chat.generations ==>
          w.chat.generations[g].conversation in w.chat.conversations
          && !InConversationOf(w.chat, w.chat.generations[g].conversation, p))
  }

  lemma NoMaterialLeft(w: World, p: Uuid)
    requires MI.Inv(w.material) && IsDeleted(w, p)
    ensures forall v :: v in w.material.versions ==> w.material.versions[v].persona != p
    ensures forall s :: s in w.material.sources ==> w.material.sources[s].version in w.material.versions
    ensures forall c :: c in w.material.chunks ==> w.material.chunks[c].persona != p
    ensures forall j :: j in w.material.jobs ==> w.material.jobs[j].persona != p
  {
    hide MI.PersonasOk, MI.SealedAreReady, MI.ReadyAreIndexed, MI.LoadsOk, MI.LocksOk;
    var db := w.material;
    forall v | v in db.versions
      ensures db.versions[v].persona != p
    {
      assert MI.Living(db.personas, db.versions[v].persona);
    }
    forall j | j in db.jobs
      ensures db.jobs[j].persona != p
    {
      assert MI.JobHomed(db.personas, db.versions, db.drawn, db.jobs[j]);
    }
  }

  lemma NoChatLeft(w: World, p: Uuid)
    requires CI.Inv(w.chat, EnvOf(w.material)) && IsDeleted(w, p)
    ensures forall c :: c in w.chat.conversations ==> w.chat.conversations[c].persona != p
  {
    hide CI.RecordsHold, CI.OneSlot, CI.AllDrawn, CI.Linked;
    forall c | c in w.chat.conversations
      ensures w.chat.conversations[c].persona != p
    {
      assert CI.ConversationRooted(w.chat.conversations[c], EnvOf(w.material));
    }
  }

  lemma DeletedLeavesNothing(w: World, p: Uuid)
    requires Inv(w) && IsDeleted(w, p)
    ensures NothingLeft(w, p)
  {
    hide MI.Inv, CI.RecordsHold, CI.OneSlot, CI.Rooted;
    NoMaterialLeft(w, p);
    NoChatLeft(w, p);
    forall g | g in w.chat.generations
      ensures w.chat.generations[g].conversation in w.chat.conversations
    {
      assert CI.RowLinked(w.chat, w.chat.generations[g]);
    }
  }

  // ---------------------------------------------------------------- and stays so

  lemma DeletedStays(w: World, e: Event, p: Uuid)
    requires Inv(w) && IsDeleted(w, p)
    ensures IsDeleted(Step(w, e), p)
  {
    hide MI.Inv, CI.Inv, MaterialStep, ChatStep, M.MaterialBusy, C.ChatBusy;
    match e
    case OnMaterial(m) => MaterialStepKeepsEnv(w.material, m);
      ViewOf(w.material, p);
      DeletedView(w.material, MaterialStep(w.material, m), p);
    case OnChat(_) =>
    case DeletePersona(_, _, _) =>
  }

  lemma DeletedView(db: M.Tables, after: M.Tables, p: Uuid)
    requires EnvKept(EnvOf(db), EnvOf(after)) && p in db.personas && db.personas[p].deleted
    ensures p in after.personas && after.personas[p].deleted
  {
    assert p in EnvOf(db).personas;
    assert p in EnvOf(after).personas;
  }

  /** Once a persona is deleted, every later state holds nothing of it, whatever keys are sent again and whatever index
      runs and streams go on elsewhere. */
  lemma {:induction false} NothingComesBack(ws: seq<World>, es: seq<Event>, i: nat, k: nat, p: Uuid)
    requires IsRun(ws, es) && i <= k <= |es| && IsDeleted(ws[i], p)
    ensures IsDeleted(ws[k], p) && NothingLeft(ws[k], p)
    decreases k - i
  {
    hide Step, Inv, NothingLeft, IsDeleted;
    if i < k {
      NothingComesBack(ws, es, i, k - 1, p);
      RunsKeepInv(ws, es, k - 1);
      OneStep(ws, es, k - 1);
      DeletedStays(ws[k - 1], es[k - 1], p);
    }
    RunsKeepInv(ws, es, k);
    DeletedLeavesNothing(ws[k], p);
  }

  /** No index run works for the persona, and none of its generations holds a slot. */
  ghost predicate IsIdle(w: World, p: Uuid) {
    && (forall j :: j in w.material.jobs ==> w.material.jobs[j].persona != p)
    && (forall g, user :: C.Holds(w.chat, g, user) ==> !InConversationOf(w.chat, w.chat.generations[g].conversation, p))
  }

  lemma DeleteEstablishes(w: World, owner: Subject, p: Uuid, key: Uuid)
    requires Delete(w, owner, p, key).1.Deleted?
    ensures IsDeleted(Delete(w, owner, p, key).0, p) && M.LivePersona(w.material, owner, p) && IsIdle(w, p)
  {
    hide M.DeleteMaterial, C.DeleteChat;
    assert IsDeleted(Delete(w, owner, p, key).0, p) by { TombstoneIsDeleted(w, owner, p, key); }
    forall g, user | C.Holds(w.chat, g, user)
      ensures !InConversationOf(w.chat, w.chat.generations[g].conversation, p)
    {
      assert C.OfPersona(w.chat, w.chat.generations[g].conversation, p)
        <==> InConversationOf(w.chat, w.chat.generations[g].conversation, p);
    }
  }

  lemma TombstoneIsDeleted(w: World, owner: Subject, p: Uuid, key: Uuid)
    requires p in w.material.personas
    ensures p in M.DeleteMaterial(w.material, owner, p, key).personas
    ensures M.DeleteMaterial(w.material, owner, p, key).personas[p].deleted
  {
  }

  lemma VersionIsGone(ws: seq<World>, es: seq<Event>, i: nat, k: nat, p: Uuid, v: Uuid)
    requires IsRun(ws, es) && i <= k <= |es| && IsDeleted(ws[k], p) && VersionOf(ws[i].material, v, p)
    ensures v !in ws[k].material.versions
  {
    hide NothingLeft;
    NothingComesBack(ws, es, k, k, p);
    if v in ws[k].material.versions {
      VersionKeepsPersona(ws, es, i, k, v);
      VersionsLeft(ws[k], p, v);
    }
  }

  lemma SourceIsGone(ws: seq<World>, es: seq<Event>, i: nat, k: nat, p: Uuid, s: Uuid)
    requires IsRun(ws, es) && i <= k <= |es| && IsDeleted(ws[k], p) && SourceOf(ws[i].material, s, p)
    ensures s !in ws[k].material.sources
  {
    hide NothingLeft;
    NothingComesBack(ws, es, k, k, p);
    if s in ws[k].material.sources {
      SourceKeepsVersion(ws, es, i, k, s);
      SourcesLeft(ws[k], p, s);
      VersionIsGone(ws, es, i, k, p, ws[i].material.sources[s].version);
    }
  }

  lemma ConversationIsGone(ws: seq<World>, es: seq<Event>, i: nat, k: nat, p: Uuid, c: Uuid)
    requires IsRun(ws, es) && i <= k <= |es| && IsDeleted(ws[k], p) && InConversationOf(ws[i].chat, c, p)
    ensures c !in ws[k].chat.conversations
  {
    hide NothingLeft;
    NothingComesBack(ws, es, k, k, p);
    if c in ws[k].chat.conversations {
      ChatRowsNeverChange(ws, es, i, k);
      ConversationsLeft(ws[k], p, c);
    }
  }

  lemma MessageIsGone(ws: seq<World>, es: seq<Event>, i: nat, k: nat, p: Uuid, m: Uuid)
    requires IsRun(ws, es) && i <= k <= |es| && IsDeleted(ws[k], p) && MessageOf(ws[i].chat, m, p)
    ensures m !in ws[k].chat.messages
  {
    hide NothingLeft;
    NothingComesBack(ws, es, k, k, p);
    if m in ws[k].chat.messages {
      ChatRowsNeverChange(ws, es, i, k);
      MessagesLeft(ws[k], p, m);
      ConversationIsGone(ws, es, i, k, p, ws[i].chat.messages[m].conversation);
    }
  }

  lemma GenerationIsGone(ws: seq<World>, es: seq<Event>, i: nat, k: nat, p: Uuid, g: Uuid)
    requires IsRun(ws, es) && i <= k <= |es| && IsDeleted(ws[k], p) && GenerationOf(ws[i].chat, g, p)
    ensures g !in ws[k].chat.generations
  {
    hide NothingLeft;
    NothingComesBack(ws, es, k, k, p);
    if g in ws[k].chat.generations {
      RowsOnlyMove(ws, es, i, k, g);
      GenerationsLeft(ws[k], p, g);
      ConversationIsGone(ws, es, i, k, p, ws[i].chat.generations[g].conversation);
    }
  }

  /** The rows that once were the persona's are gone by identity, not only by their references: none of their identifiers
      is in any state after the deletion, not even under another persona. */
  lemma TheRowsAreGone(ws: seq<World>, es: seq<Event>, i: nat, k: nat, p: Uuid)
    requires IsRun(ws, es) && i <= k <= |es| && IsDeleted(ws[k], p)
    ensures forall v :: VersionOf(ws[i].material, v, p) ==> v !in ws[k].material.versions
    ensures forall s :: SourceOf(ws[i].material, s, p) ==> s !in ws[k].material.sources
    ensures forall c :: InConversationOf(ws[i].chat, c, p) ==> c !in ws[k].chat.conversations
    ensures forall m :: MessageOf(ws[i].chat, m, p) ==> m !in ws[k].chat.messages
    ensures forall g :: GenerationOf(ws[i].chat, g, p) ==> g !in ws[k].chat.generations
  {
    hide IsDeleted, VersionOf, SourceOf, InConversationOf, MessageOf, GenerationOf;
    forall v | VersionOf(ws[i].material, v, p) ensures v !in ws[k].material.versions {
      VersionIsGone(ws, es, i, k, p, v);
    }
    forall s | SourceOf(ws[i].material, s, p) ensures s !in ws[k].material.sources {
      SourceIsGone(ws, es, i, k, p, s);
    }
    forall c | InConversationOf(ws[i].chat, c, p) ensures c !in ws[k].chat.conversations {
      ConversationIsGone(ws, es, i, k, p, c);
    }
    forall m | MessageOf(ws[i].chat, m, p) ensures m !in ws[k].chat.messages {
      MessageIsGone(ws, es, i, k, p, m);
    }
    forall g | GenerationOf(ws[i].chat, g, p) ensures g !in ws[k].chat.generations {
      GenerationIsGone(ws, es, i, k, p, g);
    }
  }

  lemma VersionsLeft(w: World, p: Uuid, v: Uuid)
    requires NothingLeft(w, p) && v in w.material.versions
    ensures w.material.versions[v].persona != p
  {
  }

  lemma ConversationsLeft(w: World, p: Uuid, c: Uuid)
    requires NothingLeft(w, p) && c in w.chat.conversations
    ensures w.chat.conversations[c].persona != p
  {
  }

  lemma GenerationsLeft(w: World, p: Uuid, g: Uuid)
    requires NothingLeft(w, p) && g in w.chat.generations
    ensures w.chat.generations[g].conversation in w.chat.conversations
  {
  }

  lemma MessagesLeft(w: World, p: Uuid, m: Uuid)
    requires NothingLeft(w, p) && m in w.chat.messages
    ensures w.chat.messages[m].conversation in w.chat.conversations
  {
  }

  lemma SourcesLeft(w: World, p: Uuid, s: Uuid)
    requires NothingLeft(w, p) && s in w.material.sources
    ensures w.material.sources[s].version in w.material.versions
  {
  }

  // ---------------------------------------------------------------- old keys

  predicate RecordKept(db: M.Tables, after: M.Tables, id: M.RecordId) {
    id in db.records ==> id in after.records && after.records[id] == db.records[id]
  }

  lemma DraftStepsKeepRecord(db: M.Tables, e: MaterialEvent, id: M.RecordId)
    requires e.CreatePersona? || e.CreateDraft? || e.PatchDraft? || e.ActivateDraft? || e.DiscardDraft?
    ensures RecordKept(db, MaterialStep(db, e), id)
  {
    hide M.BuildJob, M.CommitJob, M.DoomJob, M.FailJob, M.ReleaseJob, M.CrashJob, M.Restart, M.StartIndexing;
    hide M.Lists, M.ListsAll, M.WithinLimits, M.CopiedRows, M.CopySources, M.Upserted, M.UpsertConflict;
    hide M.PatchedSettings;
  }

  lemma JobStepsKeepRecord(db: M.Tables, e: MaterialEvent, id: M.RecordId)
    requires !(e.CreatePersona? || e.CreateDraft? || e.PatchDraft? || e.ActivateDraft? || e.DiscardDraft?)
    ensures RecordKept(db, MaterialStep(db, e), id)
  {
    hide M.CreatePersona, M.CreateDraft, M.PatchDraft, M.ActivateDraft, M.DiscardDraft;
    hide M.BuildRecords, M.Lists, M.ReplaceChunks, M.LockHeld;
  }

  lemma StepKeepsCreation(w: World, e: Event, id: M.RecordId)
    requires id.operation.CreatePersonaOp?
    ensures RecordKept(w.material, Step(w, e).material, id)
  {
    hide MaterialStep, ChatStep, M.MaterialBusy, C.ChatBusy;
    if e.OnMaterial? {
      if e.material.CreatePersona? || e.material.CreateDraft? || e.material.PatchDraft? || e.material.ActivateDraft?
          || e.material.DiscardDraft? {
        DraftStepsKeepRecord(w.material, e.material, id);
      } else {
        JobStepsKeepRecord(w.material, e.material, id);
      }
    }
  }

  /** The record of a creation outlives the persona. */
  lemma {:induction false} CreationIsRemembered(ws: seq<World>, es: seq<Event>, i: nat, k: nat, id: M.RecordId)
    requires IsRun(ws, es) && i <= k <= |es| && id.operation.CreatePersonaOp?
    ensures RecordKept(ws[i].material, ws[k].material, id)
    decreases k - i
  {
    hide Step;
    if i < k {
      CreationIsRemembered(ws, es, i, k - 1, id);
      OneStep(ws, es, k - 1);
      StepKeepsCreation(ws[k - 1], es[k - 1], id);
    }
  }

  /** Sending the creation of a deleted persona again creates nothing, under any name. */
  lemma OldKeyCreatesNothing(
    ws: seq<World>, es: seq<Event>, i: nat, k: nat, owner: Subject, name: string, key: Uuid, newPersona: Uuid, lockKey: int)
    requires IsRun(ws, es) && i <= k <= |es|
    requires var id := M.RecordId(owner, M.CreatePersonaOp, None, key);
      id in ws[i].material.records && IsDeleted(ws[k], ws[i].material.records[id].persona)
    ensures var step := M.CreatePersona(ws[k].material, owner, name, key, newPersona, lockKey);
      step.0 == ws[k].material && (step.1 == M.PersonaNotFound || step.1 == M.IdempotencyConflict)
  {
    CreationIsRemembered(ws, es, i, k, M.RecordId(owner, M.CreatePersonaOp, None, key));
  }

  /** Nor does any old key open a conversation with it or start a draft for it. */
  lemma DeletedTakesNothing(
    ws: seq<World>, es: seq<Event>, k: nat, p: Uuid, owner: Subject, key: Uuid, newConversation: Uuid, input: M.DraftInput,
    newVersion: Uuid, rows: seq<M.SourceRow>, ids: seq<Uuid>)
    requires IsRun(ws, es) && k <= |es| && IsDeleted(ws[k], p)
    ensures C.OpenNewConversation(ws[k].chat, EnvOf(ws[k].material), owner, p, key, newConversation)
         == (ws[k].chat, C.PersonaNotFound)
    ensures M.CreateDraft(ws[k].material, owner, p, input, key, newVersion, rows, ids)
         == (ws[k].material, M.PersonaNotFound)
  {
    RunsKeepInv(ws, es, k);
    NoConversationRecord(ws[k], p, owner, key);
  }

  lemma NoConversationRecord(w: World, p: Uuid, owner: Subject, key: Uuid)
    requires Inv(w) && IsDeleted(w, p)
    ensures C.RecordId(owner, C.CreateConversation, p, key) !in w.chat.records
  {
    hide MI.Inv, CI.OneSlot, CI.AllDrawn, CI.Linked, CI.Rooted;
    var id := C.RecordId(owner, C.CreateConversation, p, key);
    assert id in w.chat.records ==> CI.RecordHolds(w.chat, id, w.chat.records[id]);
    NoChatLeft(w, p);
  }

  // ---------------------------------------------------------------- exactly its rows

  /** The persona tables without the rows of this persona: no other row is gone or different, and of the personas only the
      one is marked. */
  ghost predicate MaterialCleared(db: M.Tables, after: M.Tables, owner: Subject, p: Uuid, key: Uuid) {
    && after.versions == db.versions - (set v | v in db.versions && VersionOf(db, v, p))
    && after.sources == db.sources - (set s | s in db.sources && SourceOf(db, s, p))
    && after.chunks == db.chunks - (set c | c in db.chunks && db.chunks[c].persona == p)
    && after.personas - {p} == db.personas - {p} && after.users == db.users && after.jobs == db.jobs
    && (forall r :: r in db.records && db.records[r].persona != p && r != DeleteRecord(owner, p, key) ==>
          r in after.records && after.records[r] == db.records[r])
  }

  predicate OfOtherPersona(db: C.Tables, p: Uuid, result: Uuid) {
    !InConversationOf(db, result, p) && !GenerationOf(db, result, p)
  }

  /** The chat tables without the rows of this persona. */
  ghost predicate ChatCleared(db: C.Tables, after: C.Tables, p: Uuid) {
    && after.conversations == db.conversations - (set c | c in db.conversations && InConversationOf(db, c, p))
    && after.messages == db.messages - (set m | m in db.messages && MessageOf(db, m, p))
    && after.generations == db.generations - (set g | g in db.generations && GenerationOf(db, g, p))
    && after.disconnects == db.disconnects && after.reclaimed == db.reclaimed
    && (forall r :: r in db.records && OfOtherPersona(db, p, db.records[r].result) ==>
          r in after.records && after.records[r] == db.records[r])
  }

  lemma MaterialIsCleared(db: M.Tables, owner: Subject, p: Uuid, key: Uuid)
    requires MI.Inv(db) && p in db.personas
    ensures MaterialCleared(db, M.DeleteMaterial(db, owner, p, key), owner, p, key)
  {
    hide MI.PersonasOk, MI.VersionsHomed, MI.SealedAreReady, MI.ReadyAreIndexed, MI.ChunksOk, MI.JobsHomed;
    hide MI.LoadsOk, MI.LocksOk;
    var after := M.DeleteMaterial(db, owner, p, key);
    assert after.versions == db.versions - (set v | v in db.versions && VersionOf(db, v, p));
    assert after.sources == db.sources - (set s | s in db.sources && SourceOf(db, s, p));
    assert after.chunks == db.chunks - (set c | c in db.chunks && db.chunks[c].persona == p);
  }

  lemma ChatIsCleared(db: C.Tables, owner: Subject, p: Uuid)
    ensures ChatCleared(db, C.DeleteChat(db, owner, p), p)
  {
    var after := C.DeleteChat(db, owner, p);
    assert after.conversations == db.conversations - (set c | c in db.conversations && InConversationOf(db, c, p));
    assert after.messages == db.messages - (set m | m in db.messages && MessageOf(db, m, p));
    assert after.generations == db.generations - (set g | g in db.generations && GenerationOf(db, g, p));
  }

  /** A deletion that succeeds anywhere in a run finds a living persona of the user without index run and without active
      generation; it takes exactly the persona's rows out of all tables, and from then on no state holds any of it. */
  lemma DeletionIsExact(
    ws: seq<World>, es: seq<Event>, k: nat, n: nat, owner: Subject, p: Uuid, key: Uuid)
    requires IsRun(ws, es) && k < n <= |es| && es[k] == DeletePersona(owner, p, key)
    requires Delete(ws[k], owner, p, key).1.Deleted?
    ensures M.LivePersona(ws[k].material, owner, p) && IsIdle(ws[k], p)
    ensures MaterialCleared(ws[k].material, ws[k + 1].material, owner, p, key) && ChatCleared(ws[k].chat, ws[k + 1].chat, p)
    ensures IsDeleted(ws[n], p) && NothingLeft(ws[n], p)
  {
    hide Step, Inv, IsDeleted, NothingLeft, MaterialCleared, ChatCleared, IsIdle, StepsAt;
    RunsKeepInv(ws, es, k);
    OneStep(ws, es, k);
    DeleteEstablishes(ws[k], owner, p, key);
    DeletionClears(ws[k], owner, p, key);
    NothingComesBack(ws, es, k + 1, n, p);
  }

  lemma DeletionClears(w: World, owner: Subject, p: Uuid, key: Uuid)
    requires Inv(w) && Delete(w, owner, p, key).1.Deleted?
    ensures Step(w, DeletePersona(owner, p, key)) == Delete(w, owner, p, key).0
    ensures var after := Delete(w, owner, p, key).0;
      MaterialCleared(w.material, after.material, owner, p, key) && ChatCleared(w.chat, after.chat, p)
  {
    hide MI.Inv, CI.Inv, MaterialCleared, ChatCleared, M.DeleteMaterial, C.DeleteChat, MaterialStep, ChatStep;
    MaterialIsCleared(w.material, owner, p, key);
    ChatIsCleared(w.chat, owner, p);
  }
}
