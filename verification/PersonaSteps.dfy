/** The transactions on personas and drafts keep the invariant and every activated version. */
module PersonaSteps {
  import opened Basics
  import opened Materials
  import opened MaterialInvariant

  lemma EverythingDrawn(db: Tables)
    requires Inv(db)
    ensures db.personas.Keys <= db.drawn && db.versions.Keys <= db.drawn && db.sources.Keys <= db.drawn
    ensures db.jobs.Keys <= db.drawn
    ensures forall c :: c in db.chunks ==> c.version in db.versions
    ensures forall j :: j in db.jobs ==> db.jobs[j].version in db.drawn
  {
    hide SealedAreReady, ReadyAreIndexed, LoadsOk, LocksOk;
    forall p | p in db.personas
      ensures p in db.drawn
    {
      assert PersonaOk(db.users, db.versions, db.drawn, p, db.personas[p]);
    }
    forall j | j in db.jobs
      ensures db.jobs[j].version in db.drawn
    {
      assert JobHomed(db.personas, db.versions, db.drawn, db.jobs[j]);
    }
  }

  // ---------------------------------------------------------------- CreatePersona

  lemma NewPersonaRow(db: Tables, after: Tables, newPersona: Uuid, persona: Persona)
    requires Inv(db) && newPersona !in db.drawn
    requires persona.owner in after.users && persona.active.None? && persona.draft.None? && !persona.deleted
    requires db.users <= after.users && after.personas == db.personas[newPersona := persona]
    requires after.versions == db.versions && after.drawn == db.drawn + {newPersona}
    ensures PersonasOk(after.users, after.personas, after.versions, after.drawn)
    ensures VersionsHomed(after.personas, after.versions, after.drawn)
    ensures forall v :: v in db.versions ==>
      (IsDraft(after.personas, after.versions, v) <==> IsDraft(db.personas, db.versions, v))
    ensures SealedAreReady(after.personas, after.versions)
  {
    hide JobsHomed, LoadsOk, LocksOk, ReadyAreIndexed, SourcesOk, ChunksOk;
    forall p | p in after.personas
      ensures PersonaOk(after.users, after.versions, after.drawn, p, after.personas[p])
    {
      assert p in db.personas ==> PersonaOk(db.users, db.versions, db.drawn, p, db.personas[p]);
    }
    EverythingDrawn(db);
  }

  lemma MoreDrawn(db: Tables, drawn: set<Uuid>)
    requires Inv(db) && db.drawn <= drawn
    ensures SourcesOk(db.sources, db.versions, drawn) && LoadsOk(db.jobs, db.versions, db.sources, drawn)
  {
    hide PersonasOk, VersionsHomed, SealedAreReady, ReadyAreIndexed, ChunksOk, JobsHomed, LocksOk;
    forall j | j in db.jobs
      ensures LoadOk(db.jobs[j], db.versions, db.sources, drawn)
    {
      assert LoadOk(db.jobs[j], db.versions, db.sources, db.drawn);
    }
  }

  lemma NewPersonaKeepsInv(db: Tables, after: Tables, newPersona: Uuid, persona: Persona)
    requires Inv(db) && newPersona !in db.drawn
    requires persona.owner in after.users && persona.active.None? && persona.draft.None? && !persona.deleted
    requires db.users <= after.users && after.personas == db.personas[newPersona := persona]
    requires after == db.(users := after.users, personas := after.personas, records := after.records,
      drawn := db.drawn + {newPersona})
    ensures Inv(after) && SealedKept(db, after)
  {
    hide PersonasOk, VersionsHomed, SealedAreReady, ReadyAreIndexed, SourcesOk, ChunksOk, JobsHomed, LoadsOk, LocksOk;
    hide SameSources, SameChunks, IsDraft;
    SameIsSame(db, after);
    NewPersonaRow(db, after, newPersona, persona);
    MoreDrawn(db, after.drawn);
    EverythingDrawn(db);
    JobsFrame(db.jobs, after.jobs, db.personas, after.personas, db.versions, db.drawn, after.drawn);
  }

  lemma CreatePersonaKeepsInv(db: Tables, owner: Subject, name: string, key: Uuid, newPersona: Uuid, lockKey: int)
    requires Inv(db)
    ensures var after := CreatePersona(db, owner, name, key, newPersona, lockKey).0; Inv(after) && SealedKept(db, after)
  {
    hide Inv, SealedKept;
    var after := CreatePersona(db, owner, name, key, newPersona, lockKey).0;
    if after.drawn != db.drawn {
      NewPersonaKeepsInv(db, after, newPersona, after.personas[newPersona]);
    } else {
      UsersGrow(db, after);
    }
  }

  lemma UsersGrow(db: Tables, after: Tables)
    requires Inv(db) && db.users <= after.users && after == db.(users := after.users)
    ensures Inv(after) && SealedKept(db, after)
  {
    hide VersionsHomed, SealedAreReady, ReadyAreIndexed, SourcesOk, ChunksOk, JobsHomed, LoadsOk, LocksOk;
    hide SameSources, SameChunks;
    SameIsSame(db, after);
    forall p | p in after.personas
      ensures PersonaOk(after.users, after.versions, after.drawn, p, after.personas[p])
    {
      assert PersonaOk(db.users, db.versions, db.drawn, p, db.personas[p]);
    }
  }
  // ---------------------------------------------------------------- CreateDraft

  /** The copies are exactly the new rows, all of them of the new version. */
  lemma {:induction false} CopiesAreNew(sources: map<Uuid, Source>, v: Uuid, rows: seq<SourceRow>, ids: seq<Uuid>)
    requires |ids| == |rows|
    ensures var after := CopySources(sources, v, rows, ids);
      && (forall s :: s in after ==> s in sources || s in ids)
      && (forall s :: s in ids ==> s in after && after[s].version == v)
      && (forall s :: s in sources && s !in ids ==> s in after && after[s] == sources[s])
    decreases |rows|
  {
    if rows != [] {
      CopiesAreNew(sources[ids[0] := Source(v, rows[0].kind, rows[0].content)], v, rows[1..], ids[1..]);
      assert ids == [ids[0]] + ids[1..];
    }
  }

  /** Sources that came with fresh identifiers and belong to the version `v`; the others are as before. */
  ghost predicate OnlyNewSources(
    sources: map<Uuid, Source>, after: map<Uuid, Source>, v: Uuid, drawn: set<Uuid>, drawn': set<Uuid>)
  {
    && (forall s :: s in sources ==> s in after && after[s] == sources[s])
    && (forall s :: s in after && s !in sources ==> after[s].version == v && s !in drawn && s in drawn')
  }

  lemma DraftSources(db: Tables, after: Tables, v: Uuid, version: Version)
    requires Inv(db) && v !in db.versions && db.drawn <= after.drawn
    requires OnlyNewSources(db.sources, after.sources, v, db.drawn, after.drawn)
    requires after.versions == db.versions[v := version] && after.chunks == db.chunks && after.jobs == db.jobs
    ensures SourcesOk(after.sources, after.versions, after.drawn)
    ensures ChunksOk(after.chunks, after.sources, after.versions)
  {
    hide PersonasOk, VersionsHomed, SealedAreReady, LocksOk, ReadyAreIndexed, JobsHomed, LoadsOk;
  }

  lemma OtherSources(
    sources: map<Uuid, Source>, after: map<Uuid, Source>, v: Uuid, drawn: set<Uuid>, drawn': set<Uuid>, u: Uuid)
    requires OnlyNewSources(sources, after, v, drawn, drawn') && u != v
    ensures SameSources(sources, after, u)
  {
  }

  lemma DraftLoads(db: Tables, after: Tables, v: Uuid, version: Version)
    requires Inv(db) && v !in db.drawn && db.drawn <= after.drawn
    requires OnlyNewSources(db.sources, after.sources, v, db.drawn, after.drawn)
    requires forall u :: u in db.versions ==> SameSources(db.sources, after.sources, u)
    requires after.versions == db.versions[v := version] && after.jobs == db.jobs
    ensures LoadsOk(after.jobs, after.versions, after.sources, after.drawn)
  {
    hide PersonasOk, VersionsHomed, SealedAreReady, LocksOk, ReadyAreIndexed, SourcesOk, ChunksOk, Lists, SameSources;
    EverythingDrawn(db);
    forall j | j in db.jobs
      ensures LoadOk(db.jobs[j], after.versions, after.sources, after.drawn)
    {
      var job := db.jobs[j];
      assert LoadOk(job, db.versions, db.sources, db.drawn);
      if job.phase.Built? && job.version in after.versions && after.versions[job.version].revision == job.revision {
        ListsFrame(db.sources, after.sources, job.version, Chunker.CHUNKABLE_KINDS, job.phase.rows);
      }
    }
  }

  lemma DraftPointer(db: Tables, after: Tables, p: Uuid, v: Uuid, version: Version)
    requires Inv(db) && v !in db.drawn && version.persona == p && Living(db.personas, p) && db.personas[p].draft.None?
    requires after.users == db.users && after.personas == db.personas[p := db.personas[p].(draft := Some(v))]
    requires after.versions == db.versions[v := version] && db.drawn <= after.drawn && v in after.drawn
    ensures PersonasOk(after.users, after.personas, after.versions, after.drawn)
    ensures VersionsHomed(after.personas, after.versions, after.drawn)
    ensures SealedAreReady(after.personas, after.versions)
    ensures forall u :: Sealed(db, u) ==> Sealed(after, u)
  {
    hide JobsHomed, LoadsOk, LocksOk, ReadyAreIndexed, SourcesOk, ChunksOk;
    EverythingDrawn(db);
    forall q | q in after.personas
      ensures PersonaOk(after.users, after.versions, after.drawn, q, after.personas[q])
    {
      assert PersonaOk(db.users, db.versions, db.drawn, q, db.personas[q]);
    }
  }

  lemma DraftJobs(db: Tables, after: Tables, v: Uuid, version: Version)
    requires Inv(db) && v !in db.drawn && db.drawn <= after.drawn
    requires SameLives(db.personas, after.personas)
    requires after.versions == db.versions[v := version] && after.jobs == db.jobs
    ensures JobsHomed(after.jobs, after.personas, after.versions, after.drawn) && LocksOk(after.jobs, after.personas)
  {
    hide PersonasOk, VersionsHomed, SealedAreReady, LoadsOk, ReadyAreIndexed, SourcesOk, ChunksOk;
    EverythingDrawn(db);
    JobsFrame(db.jobs, after.jobs, db.personas, after.personas, db.versions, db.drawn, after.drawn);
  }

  lemma CreateDraftKeepsInv(
    db: Tables, owner: Subject, p: Uuid, input: DraftInput, key: Uuid, newVersion: Uuid,
    rows: seq<SourceRow>, ids: seq<Uuid>)
    requires Inv(db)
    ensures var after := CreateDraft(db, owner, p, input, key, newVersion, rows, ids).0;
      Inv(after) && SealedKept(db, after)
  {
    hide PersonasOk, VersionsHomed, SealedAreReady, ReadyAreIndexed, SourcesOk, ChunksOk, JobsHomed, LoadsOk, LocksOk;
    hide SameSources, SameChunks, CopiedRows, CopySources;
    var after := CreateDraft(db, owner, p, input, key, newVersion, rows, ids).0;
    if Fresh([newVersion] + ids, db.drawn) {
      NewIds(newVersion, ids, db.drawn);
    }
    if after.drawn != db.drawn {
      EverythingDrawn(db);
      if |rows| == |ids| {
        CopiesAreNew(db.sources, newVersion, rows, ids);
      }
      assert OnlyNewSources(db.sources, after.sources, newVersion, db.drawn, after.drawn);
      var version := after.versions[newVersion];
      DraftSources(db, after, newVersion, version);
      forall u | u in db.versions
        ensures SameSources(db.sources, after.sources, u)
      {
        OtherSources(db.sources, after.sources, newVersion, db.drawn, after.drawn, u);
      }
      DraftLoads(db, after, newVersion, version);
      DraftPointer(db, after, p, newVersion, version);
      DraftJobs(db, after, newVersion, version);
      forall u
        ensures SameChunks(db.chunks, after.chunks, u)
      {
        SameChunksRefl(db.chunks, u);
      }
      ReadyFrame(db, after);
    } else {
      NothingChanges(db, after);
    }
  }

  lemma NewIds(newVersion: Uuid, ids: seq<Uuid>, drawn: set<Uuid>)
    requires Fresh([newVersion] + ids, drawn)
    ensures newVersion !in drawn && forall i :: i in ids ==> i !in drawn
  {
    var all := [newVersion] + ids;
    assert all[0] == newVersion;
    forall i | i in ids
      ensures i !in drawn
    {
      var k :| 0 <= k < |ids| && ids[k] == i;
      assert all[k + 1] == i;
    }
  }

  lemma SameChunksRefl(chunks: map<ChunkId, ChunkRow>, v: Uuid)
    ensures SameChunks(chunks, chunks, v)
  {
  }

  lemma NothingChanges(db: Tables, after: Tables)
    requires Inv(db) && after == db
    ensures Inv(after) && SealedKept(db, after)
  {
    hide Inv;
    SameIsSame(db, after);
  }
}
