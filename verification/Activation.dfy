/** What activation promises: the version that chats retrieve from is indexed exactly, and nothing about it changes until
    its persona is deleted. */
module Activation {
  import opened Basics
  import M = Materials
  import opened MaterialInvariant
  import DraftSteps
  import IndexSteps
  import opened Runs
  import Deletion

  lemma SameMaterialRefl(db: M.Tables, v: Uuid)
    requires v in db.versions
    ensures SameMaterial(db, db, v)
  {
  }

  lemma SameSourcesTrans(a: map<Uuid, M.Source>, b: map<Uuid, M.Source>, c: map<Uuid, M.Source>, v: Uuid)
    requires SameSources(a, b, v) && SameSources(b, c, v)
    ensures SameSources(a, c, v)
  {
  }

  lemma SameChunksTrans(
    a: map<M.ChunkId, M.ChunkRow>, b: map<M.ChunkId, M.ChunkRow>, c: map<M.ChunkId, M.ChunkRow>, v: Uuid)
    requires SameChunks(a, b, v) && SameChunks(b, c, v)
    ensures SameChunks(a, c, v)
  {
  }

  lemma SameMaterialTrans(a: M.Tables, b: M.Tables, c: M.Tables, v: Uuid)
    requires SameMaterial(a, b, v) && SameMaterial(b, c, v)
    ensures SameMaterial(a, c, v)
  {
    hide SameSources, SameChunks;
    SameSourcesTrans(a.sources, b.sources, c.sources, v);
    SameChunksTrans(a.chunks, b.chunks, c.chunks, v);
  }

  /** One step leaves an activated version as it is, unless it deletes the persona. */
  lemma SealedStep(w: World, e: Event, v: Uuid)
    requires Runs.Inv(w) && Sealed(w.material, v)
    ensures var after := Step(w, e);
      || Deletion.IsDeleted(after, w.material.versions[v].persona)
      || (Sealed(after.material, v) && SameMaterial(w.material, after.material, v))
  {
    hide MaterialInvariant.Inv, SameMaterial, IsDraft, MaterialStep, ChatStep, M.MaterialBusy, M.DeleteMaterial;
    SameMaterialRefl(w.material, v);
    match e
    case OnMaterial(m) => MaterialStepKeepsInv(w.material, m);
    case OnChat(_) =>
    case DeletePersona(owner, p, key) =>
      if Delete(w, owner, p, key).1.Deleted? {
        DraftSteps.DeleteMaterialKeepsInv(w.material, owner, p, key);
        Deletion.TombstoneIsDeleted(w, owner, p, key);
      }
  }

  lemma SealedIsExact(w: World, v: Uuid)
    requires Runs.Inv(w) && Sealed(w.material, v)
    ensures w.material.versions[v].status == M.Ready
    ensures IndexedExactly(w.material.sources, w.material.chunks, w.material.versions[v].persona, v)
  {
    hide PersonasOk, VersionsHomed, SourcesOk, ChunksOk, JobsHomed, LoadsOk, LocksOk, IndexedExactly;
  }

  /** From activation to the deletion of the persona, the version has the same settings, the same sources and the same
      chunks, and those are exactly the chunks of its sources. */
  lemma {:induction false} ActivatedIsFixed(ws: seq<World>, es: seq<Event>, i: nat, k: nat, v: Uuid)
    requires IsRun(ws, es) && i <= k <= |es| && Sealed(ws[i].material, v)
    ensures var before, now := ws[i].material, ws[k].material;
      || Deletion.IsDeleted(ws[k], before.versions[v].persona)
      || (Sealed(now, v) && SameMaterial(before, now, v)
          && now.versions[v].status == M.Ready && IndexedExactly(now.sources, now.chunks, before.versions[v].persona, v))
    decreases k - i
  {
    hide Step, Runs.Inv, IsDraft, IndexedExactly, SameSources, SameChunks;
    var before := ws[i].material;
    var p := before.versions[v].persona;
    if i == k {
      SameMaterialRefl(before, v);
      RunsKeepInv(ws, es, k);
      SealedIsExact(ws[k], v);
    } else {
      ActivatedIsFixed(ws, es, i, k - 1, v);
      RunsKeepInv(ws, es, k - 1);
      OneStep(ws, es, k - 1);
      if Deletion.IsDeleted(ws[k - 1], p) {
        Deletion.DeletedStays(ws[k - 1], es[k - 1], p);
      } else {
        SealedStep(ws[k - 1], es[k - 1], v);
        if !Deletion.IsDeleted(ws[k], p) {
          SameMaterialTrans(before, ws[k - 1].material, ws[k].material, v);
          RunsKeepInv(ws, es, k);
          SealedIsExact(ws[k], v);
        }
      }
    }
  }

  /** activate_draft accepts the draft only when its index is exact, and from then on it is fixed. */
  lemma ActivationIsSafe(
    ws: seq<World>, es: seq<Event>, i: nat, k: nat, owner: Subject, p: Uuid, expectedRevision: nat, v: Uuid)
    requires IsRun(ws, es) && i < k <= |es| && es[i] == OnMaterial(ActivateDraft(owner, p, expectedRevision))
    requires M.ActivateDraft(ws[i].material, owner, p, expectedRevision).1 == M.Done(v)
    ensures var before, now := ws[i].material, ws[k].material;
      && v in before.versions && before.versions[v].persona == p
      && IndexedExactly(before.sources, before.chunks, p, v)
      && (Deletion.IsDeleted(ws[k], p)
          || (SameMaterial(before, now, v) && IndexedExactly(now.sources, now.chunks, p, v)))
  {
    hide Runs.Inv, IndexedExactly, SameSources, SameChunks, IsDraft, M.ActivateDraft, Deletion.IsDeleted;
    RunsKeepInv(ws, es, i);
    var before, sealed := ws[i].material, ws[i + 1].material;
    Activates(ws[i], owner, p, expectedRevision, v);
    ActivationStep(ws, es, i, owner, p, expectedRevision);
    ActivatedIsFixed(ws, es, i + 1, k, v);
    if !Deletion.IsDeleted(ws[k], p) {
      SameMaterialTrans(before, sealed, ws[k].material, v);
    }
    RunsKeepInv(ws, es, i + 1);
    SealedIsExact(ws[i + 1], v);
  }

  lemma ActivationStep(ws: seq<World>, es: seq<Event>, i: nat, owner: Subject, p: Uuid, expectedRevision: nat)
    requires IsRun(ws, es) && i < |es| && es[i] == OnMaterial(ActivateDraft(owner, p, expectedRevision))
    ensures ws[i + 1].material == M.ActivateDraft(ws[i].material, owner, p, expectedRevision).0
  {
    OneStep(ws, es, i);
  }

  lemma Activates(w: World, owner: Subject, p: Uuid, expectedRevision: nat, v: Uuid)
    requires Runs.Inv(w) && M.ActivateDraft(w.material, owner, p, expectedRevision).1 == M.Done(v)
    ensures var after := M.ActivateDraft(w.material, owner, p, expectedRevision).0;
      && Sealed(after, v) && SameMaterial(w.material, after, v)
      && w.material.versions[v].persona == p && after.versions[v].persona == p
      && after.sources == w.material.sources && after.chunks == w.material.chunks
  {
    hide MaterialInvariant.Inv, IsDraft, SameSources, SameChunks;
    DraftSteps.ActivateDraftKeepsInv(w.material, owner, p, expectedRevision);
    DraftSteps.DraftIsDraft(w.material, owner, p);
  }

  /** The version a conversation retrieves from holds exactly the chunks of its sources. */
  lemma ActiveIsExact(ws: seq<World>, es: seq<Event>, n: nat, p: Uuid, v: Uuid)
    requires IsRun(ws, es) && n <= |es| && p in ws[n].material.personas
    requires ws[n].material.personas[p].active == Some(v)
    ensures var db := ws[n].material;
      v in db.versions && db.versions[v].status == M.Ready && IndexedExactly(db.sources, db.chunks, p, v)
  {
    hide Step, Runs.Inv, IndexedExactly;
    RunsKeepInv(ws, es, n);
    ActiveIsSealed(ws[n], p, v);
    SealedIsExact(ws[n], v);
  }

  lemma ActiveIsSealed(w: World, p: Uuid, v: Uuid)
    requires Runs.Inv(w) && p in w.material.personas && w.material.personas[p].active == Some(v)
    ensures Sealed(w.material, v) && w.material.versions[v].persona == p
  {
    hide VersionsHomed, SealedAreReady, ReadyAreIndexed, SourcesOk, ChunksOk, JobsHomed, LoadsOk, LocksOk;
    var db := w.material;
    assert PersonaOk(db.users, db.versions, db.drawn, p, db.personas[p]);
  }

  /** No index run is under way on a ready version, in any reachable state. */
  lemma NoRunOnReady(ws: seq<World>, es: seq<Event>, n: nat, j: Uuid)
    requires IsRun(ws, es) && n <= |es| && j in ws[n].material.jobs
    requires ws[n].material.jobs[j].version in ws[n].material.versions
    requires ws[n].material.versions[ws[n].material.jobs[j].version].status == M.Ready
    ensures ws[n].material.jobs[j].phase.Settled?
  {
    hide Step, PersonasOk, VersionsHomed, SealedAreReady, ReadyAreIndexed, SourcesOk, ChunksOk, LoadsOk, LocksOk;
    RunsKeepInv(ws, es, n);
    var db := ws[n].material;
    assert JobHomed(db.personas, db.versions, db.drawn, db.jobs[j]);
  }

  /** In any run, the commit of an index run whose revision is still the version's succeeds: the version can be activated
      and its chunks are exactly those of its sources. */
  lemma CurrentRunSucceeds(ws: seq<World>, es: seq<Event>, n: nat, j: Uuid)
    requires IsRun(ws, es) && n <= |es| && j in ws[n].material.jobs && ws[n].material.jobs[j].phase.Built?
    requires var db, job := ws[n].material, ws[n].material.jobs[j];
      job.version in db.versions && db.versions[job.version].revision == job.revision
    ensures var after, job := M.CommitJob(ws[n].material, j), ws[n].material.jobs[j];
      && job.version in after.versions && M.CanActivate(after.versions[job.version])
      && IndexedExactly(after.sources, after.chunks, job.persona, job.version)
  {
    hide Step, MaterialInvariant.Inv, IndexedExactly, M.CommitJob;
    RunsKeepInv(ws, es, n);
    IndexSteps.CurrentRunCommits(ws[n].material, j);
  }
}
