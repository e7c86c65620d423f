/** Runs of the whole gateway: any interleaving of the committed transactions of any number of processes on one database.
    Crashes need no event of their own, except that an index run loses its lock: a dead process just commits nothing
    more. */
module Runs {
  import opened Basics
  import opened Generations
  import M = Materials
  import MI = MaterialInvariant
  import C = ChatTables
  import CI = ChatInvariant
  import PersonaSteps
  import DraftSteps
  import IndexSteps

  datatype World = World(material: M.Tables, chat: C.Tables)

  datatype MaterialEvent =
    | CreatePersona(owner: Subject, name: string, key: Uuid, newPersona: Uuid, lockKey: int)
    | CreateDraft(
        owner: Subject, persona: Uuid, input: M.DraftInput, key: Uuid, newVersion: Uuid,
        rows: seq<M.SourceRow>, ids: seq<Uuid>)
    | PatchDraft(
        owner: Subject, persona: Uuid, expectedRevision: nat, settings: Option<M.SettingsPatch>,
        upserts: seq<M.Upsert>, removes: seq<Uuid>, stored: seq<M.SourceRow>)
    | ActivateDraft(owner: Subject, persona: Uuid, expectedRevision: nat)
    | DiscardDraft(owner: Subject, persona: Uuid, key: Uuid)
    | StartIndexing(owner: Subject, persona: Uuid, expectedRevision: nat, newJob: Uuid)
    | BuildJob(job: Uuid, rows: seq<M.SourceRow>, embedded: bool)
    | CommitJob(job: Uuid)
    | DoomJob(job: Uuid)
    | FailJob(job: Uuid)
    | ReleaseJob(job: Uuid)
    | CrashJob(job: Uuid)
    | Restart

  datatype ChatEvent =
    | OpenConversation(owner: Subject, persona: Uuid, key: Uuid, newConversation: Uuid)
    | Accept(
        now: Time, wall: Time, me: Instance, owner: Subject, conversation: Uuid, message: string, key: Uuid,
        newMessage: Uuid, newGeneration: Uuid)
    | Retry(
        now: Time, wall: Time, me: Instance, owner: Subject, original: Uuid, key: Uuid, newGeneration: Uuid)
    | MarkRunning(generation: Uuid, snapshot: Snapshot, me: Instance, now: Time)
    | Finish(generation: Uuid, verdict: Verdict, content: string, now: Time)
    | Disconnect(generation: Uuid, now: Time)
    | RequestCancel(owner: Subject, generation: Uuid, now: Time)
    | Reclaim(whose: Option<Subject>, now: Time)
    | ExtendLeases(me: Instance, now: Time)
    | Release(instance: Uuid, now: Time)

  datatype Event =
    | OnMaterial(material: MaterialEvent)
    | OnChat(chat: ChatEvent)
    | DeletePersona(owner: Subject, persona: Uuid, key: Uuid)

  // ---------------------------------------------------------------- one step

  ghost function MaterialStep(db: M.Tables, e: MaterialEvent): M.Tables {
    match e
    case CreatePersona(owner, name, key, newPersona, lockKey) =>
      M.CreatePersona(db, owner, name, key, newPersona, lockKey).0
    case CreateDraft(owner, p, input, key, newVersion, rows, ids) =>
      M.CreateDraft(db, owner, p, input, key, newVersion, rows, ids).0
    case PatchDraft(owner, p, expectedRevision, settings, upserts, removes, stored) =>
      M.PatchDraft(db, owner, p, expectedRevision, settings, upserts, removes, stored).0
    case ActivateDraft(owner, p, expectedRevision) => M.ActivateDraft(db, owner, p, expectedRevision).0
    case DiscardDraft(owner, p, key) => M.DiscardDraft(db, owner, p, key).0
    case StartIndexing(owner, p, expectedRevision, newJob) => M.StartIndexing(db, owner, p, expectedRevision, newJob).0
    case BuildJob(j, rows, embedded) => M.BuildJob(db, j, rows, embedded)
    case CommitJob(j) => M.CommitJob(db, j)
    case DoomJob(j) => M.DoomJob(db, j)
    case FailJob(j) => M.FailJob(db, j)
    case ReleaseJob(j) => M.ReleaseJob(db, j)
    case CrashJob(j) => M.CrashJob(db, j)
    case Restart => M.Restart(db)
  }

  ghost function ChatStep(db: C.Tables, env: C.Env, e: ChatEvent): C.Tables {
    match e
    case OpenConversation(owner, persona, key, newConversation) =>
      C.OpenNewConversation(db, env, owner, persona, key, newConversation).0
    case Accept(now, wall, me, owner, conversation, message, key, newMessage, newGeneration) =>
      C.Accept(db, env, now, wall, me, owner, conversation, message, key, newMessage, newGeneration).0
    case Retry(now, wall, me, owner, original, key, newGeneration) =>
      C.Retry(db, env, now, wall, me, owner, original, key, newGeneration).0
    case MarkRunning(g, snapshot, me, now) => C.MarkRunning(db, g, snapshot, me, now)
    case Finish(g, verdict, content, now) => C.Finish(db, g, verdict, content, now)
    case Disconnect(g, now) => C.Disconnect(db, g, now)
    case RequestCancel(owner, g, now) => C.RequestCancel(db, owner, g, now)
    case Reclaim(owner, now) => C.Reclaim(db, owner, now)
    case ExtendLeases(me, now) => C.ExtendLeases(db, me, now)
    case Release(instance, now) => C.Release(db, instance, now)
  }

  /** What chat transactions read of the persona tables. */
  function EnvOf(db: M.Tables): C.Env {
    C.Env(db.users, map p | p in db.personas ::
      C.PersonaView(db.personas[p].owner, db.personas[p].name, db.personas[p].deleted, db.personas[p].active))
  }

  function DeleteRecord(owner: Subject, p: Uuid, key: Uuid): M.RecordId {
    M.RecordId(owner, M.DeletePersonaOp, Some(p), key)
  }

  datatype DeleteReply = Deleted | AlreadyDeleted | PersonaNotFound | PersonaBusy

  /** delete_persona */
  function Delete(w: World, owner: Subject, p: Uuid, key: Uuid): (World, DeleteReply) {
    if owner !in w.material.users then (w, PersonaNotFound)
    else if DeleteRecord(owner, p, key) in w.material.records then (w, AlreadyDeleted)
    else if !M.LivePersona(w.material, owner, p) then (w, PersonaNotFound)
    else if M.MaterialBusy(w.material, p) || C.ChatBusy(w.chat, p) then (w, PersonaBusy)
    else (World(M.DeleteMaterial(w.material, owner, p, key), C.DeleteChat(w.chat, owner, p)), Deleted)
  }

  ghost function Step(w: World, e: Event): World {
    match e
    case OnMaterial(m) => w.(material := MaterialStep(w.material, m))
    case OnChat(c) => w.(chat := ChatStep(w.chat, EnvOf(w.material), c))
    case DeletePersona(owner, p, key) => Delete(w, owner, p, key).0
  }

  const START: World := World(M.EMPTY, C.EMPTY)

  /** The i-th event leads from the i-th state to the next. */
  ghost predicate StepsAt(ws: seq<World>, es: seq<Event>, i: nat)
    requires i < |es| < |ws|
  {
    ws[i + 1] == Step(ws[i], es[i])
  }

  /** A run: the states that the events lead through, from the empty database on. */
  ghost predicate IsRun(ws: seq<World>, es: seq<Event>) {
    |ws| == |es| + 1 && ws[0] == START && forall i :: 0 <= i < |es| ==> StepsAt(ws, es, i)
  }

  lemma OneStep(ws: seq<World>, es: seq<Event>, n: nat)
    requires IsRun(ws, es) && n < |es|
    ensures ws[n + 1] == Step(ws[n], es[n])
  {
    hide Step;
    assert StepsAt(ws, es, n);
  }

  /** A run with one event more. */
  lemma OneMoreEvent(ws: seq<World>, es: seq<Event>, e: Event)
    requires IsRun(ws, es)
    ensures IsRun(ws + [Step(ws[|es|], e)], es + [e])
  {
    hide Step;
    var longer, events := ws + [Step(ws[|es|], e)], es + [e];
    forall i | 0 <= i < |events|
      ensures StepsAt(longer, events, i)
    {
      if i < |es| {
        assert StepsAt(ws, es, i);
      }
    }
  }

  /** What the events make of a state. */
  ghost function Played(w: World, es: seq<Event>): World
    decreases |es|
  {
    if es == [] then w else Played(Step(w, es[0]), es[1..])
  }

  lemma {:induction false} PlayedLast(w: World, es: seq<Event>, e: Event)
    ensures Played(w, es + [e]) == Step(Played(w, es), e)
    decreases |es|
  {
    hide Step;
    if es == [] {
      assert [] + [e] == [e] && [e][1..] == [];
    } else {
      PlayedLast(Step(w, es[0]), es[1..], e);
      assert (es + [e])[1..] == es[1..] + [e];
    }
  }

  /** Any events in any order make a run. */
  lemma {:induction false} EveryOrderIsARun(es: seq<Event>)
    ensures exists ws :: IsRun(ws, es) && ws[|es|] == Played(START, es)
    decreases |es|
  {
    hide Step, StepsAt;
    if es == [] {
      assert IsRun([START], es);
    } else {
      var front, e := es[..|es| - 1], es[|es| - 1];
      EveryOrderIsARun(front);
      var ws :| IsRun(ws, front) && ws[|front|] == Played(START, front);
      OneMoreEvent(ws, front, e);
      PlayedLast(START, front, e);
      assert front + [e] == es;
      assert IsRun(ws + [Step(ws[|front|], e)], es);
    }
  }

  // ---------------------------------------------------------------- the invariant of a run

  ghost predicate Inv(w: World) {
    MI.Inv(w.material) && CI.Inv(w.chat, EnvOf(w.material))
  }

  /** What the persona tables may do under the chat tables: users and living personas stay. */
  ghost predicate EnvKept(before: C.Env, after: C.Env) {
    && before.users <= after.users
    && forall p :: p in before.personas ==>
         && p in after.personas && after.personas[p].owner == before.personas[p].owner
         && after.personas[p].deleted == before.personas[p].deleted
  }

  lemma MaterialStepKeepsInv(db: M.Tables, e: MaterialEvent)
    requires MI.Inv(db)
    ensures MI.Inv(MaterialStep(db, e)) && MI.SealedKept(db, MaterialStep(db, e))
  {
    hide MI.Inv, MI.SealedKept;
    match e
    case CreatePersona(owner, name, key, newPersona, lockKey) =>
      PersonaSteps.CreatePersonaKeepsInv(db, owner, name, key, newPersona, lockKey);
    case CreateDraft(owner, p, input, key, newVersion, rows, ids) =>
      PersonaSteps.CreateDraftKeepsInv(db, owner, p, input, key, newVersion, rows, ids);
    case PatchDraft(owner, p, expectedRevision, settings, upserts, removes, stored) =>
      DraftSteps.PatchDraftKeepsInv(db, owner, p, expectedRevision, settings, upserts, removes, stored);
    case ActivateDraft(owner, p, expectedRevision) =>
      DraftSteps.ActivateDraftKeepsInv(db, owner, p, expectedRevision);
    case DiscardDraft(owner, p, key) => DraftSteps.DiscardDraftKeepsInv(db, owner, p, key);
    case StartIndexing(owner, p, expectedRevision, newJob) =>
      IndexSteps.StartIndexingKeepsInv(db, owner, p, expectedRevision, newJob);
    case BuildJob(j, rows, embedded) => IndexSteps.BuildJobKeepsInv(db, j, rows, embedded);
    case CommitJob(j) => IndexSteps.CommitJobKeepsInv(db, j);
    case DoomJob(j) => IndexSteps.DoomJobKeepsInv(db, j);
    case FailJob(j) => IndexSteps.FailJobKeepsInv(db, j);
    case ReleaseJob(j) => IndexSteps.ReleaseJobKeepsInv(db, j);
    case CrashJob(j) => IndexSteps.CrashJobKeepsInv(db, j);
    case Restart => IndexSteps.RestartKeepsInv(db);
  }

  ghost predicate PersonasStay(db: M.Tables, after: M.Tables) {
    && db.users <= after.users
    && forall p :: p in db.personas ==>
         && p in after.personas && after.personas[p].owner == db.personas[p].owner
         && after.personas[p].deleted == db.personas[p].deleted
  }

  lemma CreatePersonaStays(db: M.Tables, owner: Subject, name: string, key: Uuid, newPersona: Uuid, lockKey: int)
    requires MI.Inv(db)
    ensures PersonasStay(db, M.CreatePersona(db, owner, name, key, newPersona, lockKey).0)
  {
    hide MI.Inv;
    PersonaSteps.EverythingDrawn(db);
  }

  lemma DraftStepStays(db: M.Tables, e: MaterialEvent)
    requires e.CreateDraft? || e.PatchDraft? || e.ActivateDraft? || e.DiscardDraft? || e.StartIndexing?
    ensures PersonasStay(db, MaterialStep(db, e))
  {
    hide M.CreatePersona, M.BuildJob, M.CommitJob, M.DoomJob, M.FailJob, M.ReleaseJob, M.CrashJob, M.Restart;
    hide M.Lists, M.ListsAll, M.WithinLimits, M.CopiedRows, M.CopySources, M.Upserted, M.UpsertConflict;
    hide M.PatchedSettings, M.LockHeld;
  }

  lemma JobStepStays(db: M.Tables, e: MaterialEvent)
    requires e.BuildJob? || e.DoomJob? || e.ReleaseJob? || e.CrashJob? || e.Restart?
    ensures PersonasStay(db, MaterialStep(db, e))
  {
    hide M.CreatePersona, M.CreateDraft, M.PatchDraft, M.ActivateDraft, M.DiscardDraft, M.StartIndexing;
    hide M.BuildRecords, M.Lists, M.CommitJob, M.FailJob;
  }

  lemma SettlingStays(db: M.Tables, j: Uuid)
    ensures PersonasStay(db, M.CommitJob(db, j)) && PersonasStay(db, M.FailJob(db, j))
  {
    hide M.ReplaceChunks;
  }

  lemma MaterialStepKeepsEnv(db: M.Tables, e: MaterialEvent)
    requires MI.Inv(db)
    ensures EnvKept(EnvOf(db), EnvOf(MaterialStep(db, e)))
  {
    assert PersonasStay(db, MaterialStep(db, e)) by {
      hide MI.Inv, PersonasStay;
      match e
      case CreatePersona(owner, name, key, newPersona, lockKey) =>
        CreatePersonaStays(db, owner, name, key, newPersona, lockKey);
      case CreateDraft(_, _, _, _, _, _, _) => DraftStepStays(db, e);
      case PatchDraft(_, _, _, _, _, _, _) => DraftStepStays(db, e);
      case ActivateDraft(_, _, _) => DraftStepStays(db, e);
      case DiscardDraft(_, _, _) => DraftStepStays(db, e);
      case StartIndexing(_, _, _, _) => DraftStepStays(db, e);
      case CommitJob(j) => SettlingStays(db, j);
      case FailJob(j) => SettlingStays(db, j);
      case _ => JobStepStays(db, e);
    }
    hide MaterialStep, MI.Inv;
  }

  lemma EnvChangeKeepsInv(db: C.Tables, before: C.Env, after: C.Env)
    requires CI.Inv(db, before) && EnvKept(before, after)
    ensures CI.Inv(db, after)
  {
    hide CI.Linked, CI.RecordsHold, CI.OneSlot, CI.AllDrawn;
    forall c | c in db.conversations
      ensures CI.ConversationRooted(db.conversations[c], after)
    {
      assert CI.ConversationRooted(db.conversations[c], before);
    }
  }

  lemma ChatStepKeepsInv(db: C.Tables, env: C.Env, e: ChatEvent)
    requires CI.Inv(db, env) && forall p :: p in env.personas ==> env.personas[p].owner in env.users
    ensures CI.Inv(ChatStep(db, env, e), env)
  {
    hide CI.Inv;
    match e
    case OpenConversation(owner, persona, key, newConversation) =>
      CI.OpenNewConversationKeepsInv(db, env, owner, persona, key, newConversation);
    case Accept(now, wall, me, owner, conversation, message, key, newMessage, newGeneration) =>
      CI.AcceptKeepsInv(db, env, now, wall, me, owner, conversation, message, key, newMessage, newGeneration);
    case Retry(now, wall, me, owner, original, key, newGeneration) =>
      CI.RetryKeepsInv(db, env, now, wall, me, owner, original, key, newGeneration);
    case MarkRunning(g, snapshot, me, now) => CI.MarkRunningKeepsInv(db, env, g, snapshot, me, now);
    case Finish(g, verdict, content, now) => CI.FinishKeepsInv(db, env, g, verdict, content, now);
    case Disconnect(g, now) => CI.DisconnectKeepsInv(db, env, g, now);
    case RequestCancel(owner, g, now) => CI.RequestCancelKeepsInv(db, env, owner, g, now);
    case Reclaim(owner, now) => CI.ReclaimKeepsInv(db, env, owner, now);
    case ExtendLeases(me, now) => CI.ExtendLeasesKeepsInv(db, env, me, now);
    case Release(instance, now) => CI.ReleaseKeepsInv(db, env, instance, now);
  }

  lemma OwnersAreUsers(db: M.Tables)
    requires MI.Inv(db)
    ensures var env := EnvOf(db); forall p :: p in env.personas ==> env.personas[p].owner in env.users
  {
    hide MI.VersionsHomed, MI.SealedAreReady, MI.ReadyAreIndexed, MI.SourcesOk, MI.ChunksOk, MI.JobsHomed, MI.LoadsOk;
    hide MI.LocksOk;
    forall p | p in db.personas
      ensures db.personas[p].owner in db.users
    {
      assert MI.PersonaOk(db.users, db.versions, db.drawn, p, db.personas[p]);
    }
  }

  lemma DeleteKeepsInv(w: World, owner: Subject, p: Uuid, key: Uuid)
    requires Inv(w)
    ensures Inv(Delete(w, owner, p, key).0)
  {
    hide MI.Inv, CI.Inv, M.MaterialBusy, C.ChatBusy, EnvOf;
    if Delete(w, owner, p, key).1.Deleted? {
      var after := Delete(w, owner, p, key).0;
      DraftSteps.DeleteMaterialKeepsInv(w.material, owner, p, key);
      ViewOf(w.material, p);
      CI.DeleteChatKeepsInv(w.chat, EnvOf(w.material), p);
      TombstoneKeepsInv(w, owner, p, key);
    }
  }

  lemma ViewOf(db: M.Tables, p: Uuid)
    requires p in db.personas
    ensures p in EnvOf(db).personas && EnvOf(db).personas[p].owner == db.personas[p].owner
  {
  }

  /** Once its chats are gone, marking the persona deleted disturbs no conversation. */
  lemma TombstoneKeepsInv(w: World, owner: Subject, p: Uuid, key: Uuid)
    requires p in w.material.personas
    requires var chat := C.DeleteChat(w.chat, owner, p);
      CI.Inv(chat, EnvOf(w.material)) && (forall c :: c in chat.conversations ==> chat.conversations[c].persona != p)
    ensures CI.Inv(C.DeleteChat(w.chat, owner, p), EnvOf(M.DeleteMaterial(w.material, owner, p, key)))
  {
    hide CI.Linked, CI.RecordsHold, CI.OneSlot, CI.AllDrawn;
    var chat := C.DeleteChat(w.chat, owner, p);
    hide C.DeleteChat;
    var after := EnvOf(M.DeleteMaterial(w.material, owner, p, key));
    forall c | c in chat.conversations
      ensures CI.ConversationRooted(chat.conversations[c], after)
    {
      assert CI.ConversationRooted(chat.conversations[c], EnvOf(w.material));
    }
  }

  lemma StepKeepsInv(w: World, e: Event)
    requires Inv(w)
    ensures Inv(Step(w, e))
  {
    hide MI.Inv, CI.Inv, EnvOf, Delete, MaterialStep, ChatStep;
    match e
    case OnMaterial(m) =>
      MaterialStepKeepsInv(w.material, m);
      MaterialStepKeepsEnv(w.material, m);
      EnvChangeKeepsInv(w.chat, EnvOf(w.material), EnvOf(MaterialStep(w.material, m)));
    case OnChat(c) =>
      OwnersAreUsers(w.material);
      ChatStepKeepsInv(w.chat, EnvOf(w.material), c);
    case DeletePersona(owner, p, key) =>
      DeleteKeepsInv(w, owner, p, key);
  }

  /** Every reachable database state satisfies the invariant. */
  lemma {:induction false} RunsKeepInv(ws: seq<World>, es: seq<Event>, n: nat)
    requires IsRun(ws, es) && n <= |es|
    ensures Inv(ws[n])
  {
    hide Inv, Step;
    if n == 0 {
      StartIsGood();
    } else {
      RunsKeepInv(ws, es, n - 1);
      OneStep(ws, es, n - 1);
      StepKeepsInv(ws[n - 1], es[n - 1]);
    }
  }

  lemma {:induction false} PlayedKeepsInv(w: World, es: seq<Event>)
    requires Inv(w)
    ensures Inv(Played(w, es))
    decreases |es|
  {
    hide Inv, Step;
    if es != [] {
      StepKeepsInv(w, es[0]);
      PlayedKeepsInv(Step(w, es[0]), es[1..]);
    }
  }

  ghost predicate IsReachable(w: World) {
    exists ws, es :: IsRun(ws, es) && ws[|es|] == w
  }

  lemma ReachableIsGood(w: World)
    requires IsReachable(w)
    ensures Inv(w)
  {
    hide StepsAt, Inv;
    var ws, es :| IsRun(ws, es) && ws[|es|] == w;
    RunsKeepInv(ws, es, |es|);
  }

  lemma StartIsGood()
    ensures Inv(START)
  {
  }
}
