/** What happens to versions and sources over a whole run: they never change persona or version, and an identifier that
    is gone never comes back. */
module MaterialHistory {
  import opened Basics
  import M = Materials
  import MI = MaterialInvariant
  import PersonaSteps
  import DraftSteps
  import opened Runs

  ghost predicate VersionsMove(db: M.Tables, after: M.Tables) {
    && db.drawn <= after.drawn
    && (forall v :: v in db.versions && v in after.versions ==>
          after.versions[v].persona == db.versions[v].persona && after.versions[v].revision >= db.versions[v].revision)
    && (forall v :: v in after.versions && v !in db.versions ==> v !in db.drawn)
  }

  ghost predicate SourcesMove(db: M.Tables, after: M.Tables) {
    && (forall s :: s in db.sources && s in after.sources ==> after.sources[s].version == db.sources[s].version)
    && (forall s :: s in after.sources && s !in db.sources ==> s !in db.drawn)
  }

  ghost predicate MaterialMoves(db: M.Tables, after: M.Tables) {
    VersionsMove(db, after) && SourcesMove(db, after)
  }

  lemma CreateDraftMoves(
    db: M.Tables, owner: Subject, p: Uuid, input: M.DraftInput, key: Uuid, newVersion: Uuid,
    rows: seq<M.SourceRow>, ids: seq<Uuid>)
    requires MI.Inv(db)
    ensures MaterialMoves(db, M.CreateDraft(db, owner, p, input, key, newVersion, rows, ids).0)
  {
    hide MI.Inv, M.CopiedRows, M.CopySources;
    PersonaSteps.EverythingDrawn(db);
    if M.Fresh([newVersion] + ids, db.drawn) {
      PersonaSteps.NewIds(newVersion, ids, db.drawn);
      if |rows| == |ids| {
        PersonaSteps.CopiesAreNew(db.sources, newVersion, rows, ids);
      }
    }
  }

  lemma PatchDraftMoves(
    db: M.Tables, owner: Subject, p: Uuid, expectedRevision: nat, settings: Option<M.SettingsPatch>,
    upserts: seq<M.Upsert>, removes: seq<Uuid>, stored: seq<M.SourceRow>)
    requires MI.Inv(db)
    ensures MaterialMoves(
      db, M.PatchDraft(db, owner, p, expectedRevision, settings, upserts, removes, stored).0)
  {
    hide MI.Inv, M.Upserted, M.UpsertConflict, M.PatchedSettings, M.ListsAll, M.WithinLimits;
    PersonaSteps.EverythingDrawn(db);
    var step := M.PatchDraft(db, owner, p, expectedRevision, settings, upserts, removes, stored);
    if step.1.Done? {
      DraftSteps.PatchedSources(db, step.1.id, upserts, removes);
    }
  }

  lemma OtherDraftMoves(db: M.Tables, e: MaterialEvent)
    requires e.CreatePersona? || e.ActivateDraft? || e.DiscardDraft? || e.StartIndexing?
    ensures MaterialMoves(db, MaterialStep(db, e))
  {
    hide M.CreateDraft, M.PatchDraft, M.BuildJob, M.CommitJob, M.DoomJob, M.FailJob, M.ReleaseJob, M.CrashJob, M.Restart;
    hide M.LockHeld;
  }

  lemma JobMoves(db: M.Tables, e: MaterialEvent)
    requires e.BuildJob? || e.DoomJob? || e.ReleaseJob? || e.CrashJob? || e.Restart?
    ensures MaterialMoves(db, MaterialStep(db, e))
  {
    hide M.CreatePersona, M.CreateDraft, M.PatchDraft, M.ActivateDraft, M.DiscardDraft, M.StartIndexing;
    hide M.CommitJob, M.FailJob, M.BuildRecords, M.Lists;
  }

  lemma SettlingMoves(db: M.Tables, j: Uuid)
    ensures MaterialMoves(db, M.CommitJob(db, j)) && MaterialMoves(db, M.FailJob(db, j))
  {
    hide M.ReplaceChunks;
  }

  lemma MaterialStepMoves(db: M.Tables, e: MaterialEvent)
    requires MI.Inv(db)
    ensures MaterialMoves(db, MaterialStep(db, e))
  {
    hide MI.Inv, MaterialMoves;
    match e
    case CreateDraft(owner, p, input, key, newVersion, rows, ids) =>
      CreateDraftMoves(db, owner, p, input, key, newVersion, rows, ids);
    case PatchDraft(owner, p, expectedRevision, settings, upserts, removes, stored) =>
      PatchDraftMoves(db, owner, p, expectedRevision, settings, upserts, removes, stored);
    case CreatePersona(_, _, _, _, _) => OtherDraftMoves(db, e);
    case ActivateDraft(_, _, _) => OtherDraftMoves(db, e);
    case DiscardDraft(_, _, _) => OtherDraftMoves(db, e);
    case StartIndexing(_, _, _, _) => OtherDraftMoves(db, e);
    case CommitJob(j) => SettlingMoves(db, j);
    case FailJob(j) => SettlingMoves(db, j);
    case _ => JobMoves(db, e);
  }

  lemma DeleteMaterialMoves(db: M.Tables, owner: Subject, p: Uuid, key: Uuid)
    requires p in db.personas
    ensures MaterialMoves(db, M.DeleteMaterial(db, owner, p, key)) && MaterialMoves(db, db)
  {
  }

  lemma SameMaterialMoves(db: M.Tables)
    ensures MaterialMoves(db, db)
  {
  }

  lemma StepMovesMaterial(w: World, e: Event)
    requires Inv(w)
    ensures MaterialMoves(w.material, Step(w, e).material)
  {
    hide MI.Inv, MaterialMoves, MaterialStep, ChatStep, M.DeleteMaterial, M.MaterialBusy;
    SameMaterialMoves(w.material);
    match e
    case OnMaterial(m) => MaterialStepMoves(w.material, m);
    case OnChat(_) =>
    case DeletePersona(owner, p, key) =>
      if p in w.material.personas {
        DeleteMaterialMoves(w.material, owner, p, key);
      }
  }

  // ---------------------------------------------------------------- whole runs

  lemma {:induction false} DrawnAlong(ws: seq<World>, es: seq<Event>, i: nat, k: nat)
    requires IsRun(ws, es) && i <= k <= |es|
    ensures ws[i].material.drawn <= ws[k].material.drawn
    decreases k - i
  {
    hide Step, Inv, MaterialMoves;
    if i < k {
      DrawnAlong(ws, es, i, k - 1);
      RunsKeepInv(ws, es, k - 1);
      OneStep(ws, es, k - 1);
      StepMovesMaterial(ws[k - 1], es[k - 1]);
      DrawnKept(ws[k - 1].material, ws[k].material);
    }
  }

  lemma DrawnKept(db: M.Tables, after: M.Tables)
    requires MaterialMoves(db, after)
    ensures db.drawn <= after.drawn
  {
  }

  lemma MaterialDrawn(w: World)
    requires Inv(w)
    ensures w.material.versions.Keys <= w.material.drawn && w.material.sources.Keys <= w.material.drawn
  {
    hide MI.Inv;
    PersonaSteps.EverythingDrawn(w.material);
  }

  lemma VersionAndSourceDrawn(ws: seq<World>, es: seq<Event>, i: nat, k: nat)
    requires IsRun(ws, es) && i <= k <= |es|
    ensures ws[i].material.versions.Keys <= ws[k].material.drawn
    ensures ws[i].material.sources.Keys <= ws[k].material.drawn
  {
    hide Inv;
    DrawnAlong(ws, es, i, k);
    RunsKeepInv(ws, es, i);
    MaterialDrawn(ws[i]);
  }

  lemma VersionStep(db: M.Tables, after: M.Tables, v: Uuid)
    requires MaterialMoves(db, after) && v in db.drawn && v in after.versions
    ensures v in db.versions && after.versions[v].persona == db.versions[v].persona
  {
  }

  /** A version belongs to the same persona as long as it exists. */
  lemma {:induction false} VersionKeepsPersona(ws: seq<World>, es: seq<Event>, i: nat, k: nat, v: Uuid)
    requires IsRun(ws, es) && i <= k <= |es| && v in ws[i].material.versions && v in ws[k].material.versions
    ensures ws[k].material.versions[v].persona == ws[i].material.versions[v].persona
    decreases k - i
  {
    hide Step, Inv, MaterialMoves;
    if i < k {
      RunsKeepInv(ws, es, k - 1);
      OneStep(ws, es, k - 1);
      StepMovesMaterial(ws[k - 1], es[k - 1]);
      VersionAndSourceDrawn(ws, es, i, k - 1);
      VersionStep(ws[k - 1].material, ws[k].material, v);
      VersionKeepsPersona(ws, es, i, k - 1, v);
    }
  }

  lemma SourceStep(db: M.Tables, after: M.Tables, s: Uuid)
    requires MaterialMoves(db, after) && s in db.drawn && s in after.sources
    ensures s in db.sources && after.sources[s].version == db.sources[s].version
  {
  }

  /** A source belongs to the same version as long as it exists. */
  lemma {:induction false} SourceKeepsVersion(ws: seq<World>, es: seq<Event>, i: nat, k: nat, s: Uuid)
    requires IsRun(ws, es) && i <= k <= |es| && s in ws[i].material.sources && s in ws[k].material.sources
    ensures ws[k].material.sources[s].version == ws[i].material.sources[s].version
    decreases k - i
  {
    hide Step, Inv, MaterialMoves;
    if i < k {
      RunsKeepInv(ws, es, k - 1);
      OneStep(ws, es, k - 1);
      StepMovesMaterial(ws[k - 1], es[k - 1]);
      VersionAndSourceDrawn(ws, es, i, k - 1);
      SourceStep(ws[k - 1].material, ws[k].material, s);
      SourceKeepsVersion(ws, es, i, k - 1, s);
    }
  }

  // ---------------------------------------------------------------- index runs among others

  /** The transactions and the death of the index run itself. */
  predicate RunActs(e: Event, j: Uuid) {
    match e
    case OnMaterial(BuildJob(h, _, _)) => h == j
    case OnMaterial(CommitJob(h)) => h == j
    case OnMaterial(DoomJob(h)) => h == j
    case OnMaterial(FailJob(h)) => h == j
    case OnMaterial(ReleaseJob(h)) => h == j
    case OnMaterial(CrashJob(h)) => h == j
    case _ => false
  }

  predicate NoneActs(es: seq<Event>, j: Uuid) {
    forall i :: 0 <= i < |es| ==> !RunActs(es[i], j)
  }

  lemma DraftStepKeepsJob(db: M.Tables, e: MaterialEvent, j: Uuid)
    requires j in db.jobs && j in db.drawn
    requires e.CreatePersona? || e.CreateDraft? || e.PatchDraft? || e.ActivateDraft? || e.DiscardDraft? || e.StartIndexing?
    ensures j in MaterialStep(db, e).jobs && MaterialStep(db, e).jobs[j] == db.jobs[j]
  {
    hide M.Lists, M.ListsAll, M.WithinLimits, M.CopiedRows, M.CopySources, M.Upserted, M.UpsertConflict;
    hide M.PatchedSettings, M.LockHeld, M.BuildJob, M.CommitJob, M.DoomJob, M.FailJob, M.ReleaseJob, M.CrashJob, M.Restart;
  }

  lemma JobStepKeepsJob(db: M.Tables, e: MaterialEvent, j: Uuid)
    requires j in db.jobs && !RunActs(OnMaterial(e), j)
    requires e.BuildJob? || e.DoomJob? || e.ReleaseJob? || e.CrashJob? || e.Restart?
    ensures j in MaterialStep(db, e).jobs && MaterialStep(db, e).jobs[j] == db.jobs[j]
  {
    hide M.CreatePersona, M.CreateDraft, M.PatchDraft, M.ActivateDraft, M.DiscardDraft, M.StartIndexing;
    hide M.BuildRecords, M.Lists, M.CommitJob, M.FailJob;
  }

  lemma SettlingKeepsJob(db: M.Tables, h: Uuid, j: Uuid)
    requires j in db.jobs && h != j
    ensures j in M.CommitJob(db, h).jobs && M.CommitJob(db, h).jobs[j] == db.jobs[j]
    ensures j in M.FailJob(db, h).jobs && M.FailJob(db, h).jobs[j] == db.jobs[j]
  {
    hide M.ReplaceChunks;
  }

  lemma MaterialStepKeepsJob(db: M.Tables, e: MaterialEvent, j: Uuid)
    requires j in db.jobs && j in db.drawn && !RunActs(OnMaterial(e), j)
    ensures j in MaterialStep(db, e).jobs && MaterialStep(db, e).jobs[j] == db.jobs[j]
  {
    hide M.CommitJob, M.FailJob;
    match e
    case CommitJob(h) => SettlingKeepsJob(db, h, j);
    case FailJob(h) => SettlingKeepsJob(db, h, j);
    case BuildJob(_, _, _) => JobStepKeepsJob(db, e, j);
    case DoomJob(_) => JobStepKeepsJob(db, e, j);
    case ReleaseJob(_) => JobStepKeepsJob(db, e, j);
    case CrashJob(_) => JobStepKeepsJob(db, e, j);
    case Restart => JobStepKeepsJob(db, e, j);
    case _ => DraftStepKeepsJob(db, e, j);
  }

  lemma OthersKeepJob(w: World, e: Event, j: Uuid)
    requires Inv(w) && j in w.material.jobs && !RunActs(e, j)
    ensures j in Step(w, e).material.jobs && Step(w, e).material.jobs[j] == w.material.jobs[j]
  {
    hide MI.Inv, MaterialStep, ChatStep, M.MaterialBusy;
    PersonaSteps.EverythingDrawn(w.material);
    if e.OnMaterial? {
      MaterialStepKeepsJob(w.material, e.material, j);
    }
  }

  /** Only the run itself moves its job, whatever is patched, discarded, deleted or restarted meanwhile. */
  lemma {:induction false} OthersLeaveJob(w: World, es: seq<Event>, j: Uuid)
    requires Inv(w) && j in w.material.jobs && NoneActs(es, j)
    ensures j in Played(w, es).material.jobs && Played(w, es).material.jobs[j] == w.material.jobs[j]
    decreases |es|
  {
    hide Inv, Step, RunActs;
    if es != [] {
      OthersKeepJob(w, es[0], j);
      StepKeepsInv(w, es[0]);
      assert NoneActs(es[1..], j);
      OthersLeaveJob(Step(w, es[0]), es[1..], j);
    }
  }

  /** A transaction of the run, and then what the others commit before its next one. */
  ghost function Then(w: World, e: MaterialEvent, others: seq<Event>): World {
    Played(Step(w, OnMaterial(e)), others)
  }
}
