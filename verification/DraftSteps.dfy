/** Patching, activating and discarding a draft, and deleting a persona, keep the invariant and every activated version
    (of the other personas, when one is deleted). */
module DraftSteps {
  import opened Basics
  import opened Materials
  import opened MaterialInvariant
  import opened PersonaSteps

  // ---------------------------------------------------------------- PatchDraft

  /** What a patch may do to the sources: those of other versions stay, those of `v` keep their identifier or get a
      fresh one, and only the removed ones go. */
  ghost predicate SourcesPatched(
    sources: map<Uuid, Source>, after: map<Uuid, Source>, v: Uuid, removes: seq<Uuid>, ids: seq<Uuid>)
  {
    && (forall s :: s in after ==>
          (s in sources && after[s].version == sources[s].version) || (s in ids && after[s].version == v))
    && (forall s :: s in sources && sources[s].version != v ==> s in after && after[s] == sources[s])
    && (forall s :: s in sources && s !in removes ==> s in after)
  }

  /** Every identifier the request names is one of the version's. */
  predicate OwnTargets(upserts: seq<Upsert>, sources: map<Uuid, Source>, v: Uuid) {
    forall i :: 0 <= i < |upserts| && upserts[i].id.Some? ==>
      upserts[i].id.value in sources && sources[upserts[i].id.value].version == v
  }

  lemma {:induction false} NoConflictOwnTargets(
    sources: map<Uuid, Source>, v: Uuid, upserts: seq<Upsert>, removes: seq<Uuid>)
    requires UpsertConflict(SourcesOf(sources, v), upserts, removes).None?
    ensures OwnTargets(upserts, WithoutSources(sources, v, removes), v)
    decreases |upserts|
  {
    if upserts != [] {
      NoConflictOwnTargets(sources, v, upserts[1..], removes);
      forall i | 0 <= i < |upserts| && upserts[i].id.Some?
        ensures upserts[i].id.value in WithoutSources(sources, v, removes)
        ensures WithoutSources(sources, v, removes)[upserts[i].id.value].version == v
      {
        if i > 0 {
          assert upserts[i] == upserts[1..][i - 1];
        }
      }
    }
  }

  lemma DrawnTail(upserts: seq<Upsert>)
    requires upserts != [] && Distinct(Drawn(upserts))
    ensures Distinct(Drawn(upserts[1..]))
    ensures forall i :: i in Drawn(upserts[1..]) ==> i in Drawn(upserts)
    ensures upserts[0].id.None? ==> upserts[0].newId in Drawn(upserts) && upserts[0].newId !in Drawn(upserts[1..])
  {
    var item := upserts[0];
    DistinctTail(if item.id.None? then [item.newId] else [], Drawn(upserts[1..]));
  }

  lemma DistinctTail(own: seq<Uuid>, rest: seq<Uuid>)
    requires Distinct(own + rest)
    ensures Distinct(rest) && (forall i :: i in rest ==> i in own + rest && i !in own)
  {
    var all := own + rest;
    forall i, j | 0 <= i < j < |rest|
      ensures rest[i] != rest[j]
    {
      assert all[|own| + i] != all[|own| + j];
    }
    forall i, k | 0 <= i < |rest| && 0 <= k < |own|
      ensures rest[i] != own[k]
    {
      assert all[|own| + i] != all[k];
    }
  }

  lemma {:induction false} UpsertsPatch(sources: map<Uuid, Source>, v: Uuid, upserts: seq<Upsert>)
    requires Upserted(sources, v, upserts).Ok? && OwnTargets(upserts, sources, v)
    requires forall i :: i in Drawn(upserts) ==> i !in sources
    requires Distinct(Drawn(upserts))
    ensures SourcesPatched(sources, Upserted(sources, v, upserts).value, v, [], Drawn(upserts))
    decreases |upserts|
  {
    if upserts != [] {
      hide Drawn;
      var rest := upserts[1..];
      var next := WithSource(sources, v, upserts[0]);
      DrawnTail(upserts);
      assert upserts[0].id.Some? ==> upserts[0].id.value in sources;
      assert OwnTargets(rest, next, v) by {
        forall i | 0 <= i < |rest| && rest[i].id.Some?
          ensures rest[i].id.value in next && next[rest[i].id.value].version == v
        {
          assert rest[i] == upserts[i + 1];
        }
      }
      UpsertsPatch(next, v, rest);
      PatchesCompose(sources, next, Upserted(next, v, rest).value, v, upserts);
    }
  }

  lemma PatchesCompose(
    sources: map<Uuid, Source>, next: map<Uuid, Source>, after: map<Uuid, Source>, v: Uuid, upserts: seq<Upsert>)
    requires upserts != [] && Distinct(Drawn(upserts))
    requires OwnTargets(upserts, sources, v) && next == WithSource(sources, v, upserts[0])
    requires upserts[0].id.None? ==> upserts[0].newId !in sources
    requires SourcesPatched(next, after, v, [], Drawn(upserts[1..]))
    ensures SourcesPatched(sources, after, v, [], Drawn(upserts))
  {
    hide Drawn;
    DrawnTail(upserts);
  }

  lemma PatchedSources(db: Tables, v: Uuid, upserts: seq<Upsert>, removes: seq<Uuid>)
    requires db.sources.Keys <= db.drawn
    requires SourceConflict(SourcesOf(db.sources, v), upserts, removes).None?
    requires Upserted(WithoutSources(db.sources, v, removes), v, upserts).Ok? && Fresh(Drawn(upserts), db.drawn)
    ensures SourcesPatched(
      db.sources, Upserted(WithoutSources(db.sources, v, removes), v, upserts).value, v, removes, Drawn(upserts))
  {
    NoConflictOwnTargets(db.sources, v, upserts, removes);
    UpsertsPatch(WithoutSources(db.sources, v, removes), v, upserts);
  }

  lemma PatchSourceTables(db: Tables, after: Tables, v: Uuid, version: Version, removes: seq<Uuid>, ids: seq<Uuid>)
    requires Inv(db) && v in db.versions && IsDraft(db.personas, db.versions, v)
    requires version.status == Editing && version.persona == db.versions[v].persona
    requires version.revision > db.versions[v].revision
    requires SourcesPatched(db.sources, after.sources, v, removes, ids) && (forall i :: i in ids ==> i !in db.drawn)
    requires after.versions == db.versions[v := version] && after.jobs == db.jobs
    requires after.chunks == WithoutChunksOf(db.chunks, v, removes)
    requires after.drawn == db.drawn + (set i | i in ids)
    ensures forall u :: u != v ==> SameSources(db.sources, after.sources, u) && SameChunks(db.chunks, after.chunks, u)
    ensures SourcesOk(after.sources, after.versions, after.drawn)
    ensures ChunksOk(after.chunks, after.sources, after.versions)
  {
    hide PersonasOk, VersionsHomed, SealedAreReady, LocksOk, ReadyAreIndexed, Lists, JobsHomed, LoadsOk;
    EverythingDrawn(db);
  }

  lemma PatchLoads(db: Tables, after: Tables, v: Uuid, version: Version, removes: seq<Uuid>, ids: seq<Uuid>)
    requires Inv(db) && v in db.versions && version.revision > db.versions[v].revision
    requires SourcesPatched(db.sources, after.sources, v, removes, ids) && (forall i :: i in ids ==> i !in db.drawn)
    requires after.versions == db.versions[v := version] && after.jobs == db.jobs
    requires after.drawn == db.drawn + (set i | i in ids)
    requires forall u :: u != v ==> SameSources(db.sources, after.sources, u)
    ensures LoadsOk(after.jobs, after.versions, after.sources, after.drawn)
  {
    hide PersonasOk, VersionsHomed, SealedAreReady, LocksOk, ReadyAreIndexed, ChunksOk, Lists;
    forall j | j in db.jobs
      ensures LoadOk(db.jobs[j], after.versions, after.sources, after.drawn)
    {
      var job := db.jobs[j];
      assert LoadOk(job, db.versions, db.sources, db.drawn) && JobHomed(db.personas, db.versions, db.drawn, job);
      if job.phase.Built? && job.version in after.versions && after.versions[job.version].revision == job.revision {
        ListsFrame(db.sources, after.sources, job.version, Chunker.CHUNKABLE_KINDS, job.phase.rows);
      }
    }
  }

  /** One version row changes, and it was nobody's activated version. */
  lemma DraftRow(db: Tables, after: Tables, v: Uuid, version: Version)
    requires Inv(db) && IsDraft(db.personas, db.versions, v) && version.persona == db.versions[v].persona
    requires after.users == db.users && after.personas == db.personas && db.drawn <= after.drawn
    requires after.versions == db.versions[v := version]
    ensures PersonasOk(after.users, after.personas, after.versions, after.drawn)
    ensures VersionsHomed(after.personas, after.versions, after.drawn)
    ensures SealedAreReady(after.personas, after.versions)
    ensures forall u :: Sealed(db, u) ==> u != v && Sealed(after, u)
  {
    hide JobsHomed, LoadsOk, LocksOk, ReadyAreIndexed, SourcesOk, ChunksOk;
    forall q | q in after.personas
      ensures PersonaOk(after.users, after.versions, after.drawn, q, after.personas[q])
    {
      assert PersonaOk(db.users, db.versions, db.drawn, q, db.personas[q]);
    }
  }

  lemma DraftRowJobs(db: Tables, after: Tables, v: Uuid, version: Version)
    requires Inv(db) && v in db.versions && version.persona == db.versions[v].persona
    requires version.revision >= db.versions[v].revision && version.status != Ready
    requires after.personas == db.personas && db.drawn <= after.drawn && after.versions == db.versions[v := version]
    ensures JobsHomed(db.jobs, after.personas, after.versions, after.drawn)
  {
    hide PersonasOk, VersionsHomed, SealedAreReady, LoadsOk, LocksOk, ReadyAreIndexed, SourcesOk, ChunksOk;
    forall j | j in db.jobs
      ensures JobHomed(after.personas, after.versions, after.drawn, db.jobs[j])
    {
      assert JobHomed(db.personas, db.versions, db.drawn, db.jobs[j]);
    }
  }

  lemma DraftIsDraft(db: Tables, owner: Subject, p: Uuid)
    requires Inv(db) && DraftOf(db, owner, p).Ok?
    ensures IsDraft(db.personas, db.versions, DraftOf(db, owner, p).value)
    ensures db.versions[DraftOf(db, owner, p).value].persona == p
  {
    hide LoadsOk, LocksOk, ReadyAreIndexed, SourcesOk, ChunksOk, VersionsHomed, SealedAreReady, JobsHomed;
    assert PersonaOk(db.users, db.versions, db.drawn, p, db.personas[p]);
  }

  lemma PatchDraftKeepsInv(
    db: Tables, owner: Subject, p: Uuid, expectedRevision: nat, settings: Option<SettingsPatch>,
    upserts: seq<Upsert>, removes: seq<Uuid>, stored: seq<SourceRow>)
    requires Inv(db)
    ensures var after := PatchDraft(db, owner, p, expectedRevision, settings, upserts, removes, stored).0;
      Inv(after) && SealedKept(db, after)
  {
    hide PersonasOk, VersionsHomed, SealedAreReady, ReadyAreIndexed, SourcesOk, ChunksOk, JobsHomed, LoadsOk, LocksOk;
    hide SameSources, SameChunks, Upserted, UpsertConflict, SourcesPatched, PatchedSettings, IsDraft;
    var step := PatchDraft(db, owner, p, expectedRevision, settings, upserts, removes, stored);
    var after := step.0;
    if step.1.Done? {
      EverythingDrawn(db);
      DraftIsDraft(db, owner, p);
      var v, ids := step.1.id, Drawn(upserts);
      var version := after.versions[v];
      PatchedSources(db, v, upserts, removes);
      PatchSourceTables(db, after, v, version, removes, ids);
      ReadyFrame(db, after);
      PatchLoads(db, after, v, version, removes, ids);
      DraftRow(db, after, v, version);
      DraftRowJobs(db, after, v, version);
    } else {
      NothingChanges(db, after);
    }
  }

  // ---------------------------------------------------------------- ActivateDraft

  lemma ActivatePointers(db: Tables, after: Tables, p: Uuid, v: Uuid)
    requires Inv(db) && Living(db.personas, p) && PointsTo(db.versions, p, v) && db.versions[v].status == Ready
    requires db.personas[p].draft == Some(v)
    requires after == db.(personas := db.personas[p := db.personas[p].(active := Some(v), draft := None)])
    ensures PersonasOk(after.users, after.personas, after.versions, after.drawn)
    ensures VersionsHomed(after.personas, after.versions, after.drawn)
    ensures SealedAreReady(after.personas, after.versions)
    ensures forall u :: Sealed(db, u) ==> Sealed(after, u)
  {
    hide JobsHomed, LoadsOk, LocksOk, ReadyAreIndexed, SourcesOk, ChunksOk;
    forall q | q in after.personas
      ensures PersonaOk(after.users, after.versions, after.drawn, q, after.personas[q])
    {
      assert PersonaOk(db.users, db.versions, db.drawn, q, db.personas[q]);
    }
  }

  /** Activation also seals the version. */
  lemma ActivateDraftKeepsInv(db: Tables, owner: Subject, p: Uuid, expectedRevision: nat)
    requires Inv(db)
    ensures var step := ActivateDraft(db, owner, p, expectedRevision);
      && Inv(step.0) && SealedKept(db, step.0)
      && (step.1.Done? ==> Sealed(step.0, step.1.id) && SameMaterial(db, step.0, step.1.id))
  {
    hide PersonasOk, VersionsHomed, SealedAreReady, ReadyAreIndexed, SourcesOk, ChunksOk, JobsHomed, LoadsOk, LocksOk;
    hide SameSources, SameChunks;
    var step := ActivateDraft(db, owner, p, expectedRevision);
    SameIsSame(db, step.0);
    if step.1.Done? {
      DraftIsDraft(db, owner, p);
      ActivatePointers(db, step.0, p, step.1.id);
      JobsFrame(db.jobs, db.jobs, db.personas, step.0.personas, db.versions, db.drawn, db.drawn);
    } else {
      NothingChanges(db, step.0);
    }
  }

  // ---------------------------------------------------------------- DiscardDraft

  /** Versions and all their sources and chunks go, nothing else does. */
  ghost predicate VersionsGone(db: Tables, after: Tables, gone: set<Uuid>) {
    && after.versions == db.versions - gone && after.jobs == db.jobs && after.drawn == db.drawn
    && (forall s :: s in after.sources ==> s in db.sources && after.sources[s] == db.sources[s])
    && (forall s :: s in db.sources ==> (s in after.sources <==> db.sources[s].version !in gone))
    && (forall c :: c in after.chunks ==> c in db.chunks && after.chunks[c] == db.chunks[c])
    && (forall c :: c in db.chunks ==> (c in after.chunks <==> c.version !in gone))
  }

  lemma GoneTables(db: Tables, after: Tables, gone: set<Uuid>)
    requires Inv(db) && VersionsGone(db, after, gone)
    ensures forall u :: u !in gone ==> SameSources(db.sources, after.sources, u) && SameChunks(db.chunks, after.chunks, u)
    ensures SourcesOk(after.sources, after.versions, after.drawn)
    ensures ChunksOk(after.chunks, after.sources, after.versions)
  {
    hide PersonasOk, VersionsHomed, SealedAreReady, LocksOk, ReadyAreIndexed, JobsHomed, LoadsOk;
  }

  lemma GoneLoads(db: Tables, after: Tables, gone: set<Uuid>)
    requires Inv(db) && VersionsGone(db, after, gone)
    requires forall u :: u !in gone ==> SameSources(db.sources, after.sources, u)
    ensures LoadsOk(after.jobs, after.versions, after.sources, after.drawn)
  {
    hide PersonasOk, VersionsHomed, SealedAreReady, LocksOk, ReadyAreIndexed, ChunksOk, Lists, JobsHomed;
    forall j | j in db.jobs
      ensures LoadOk(db.jobs[j], after.versions, after.sources, after.drawn)
    {
      var job := db.jobs[j];
      assert LoadOk(job, db.versions, db.sources, db.drawn);
      if job.phase.Built? && job.version in after.versions && after.versions[job.version].revision == job.revision {
        ListsFrame(db.sources, after.sources, job.version, Chunker.CHUNKABLE_KINDS, job.phase.rows);
      }
    }
  }

  lemma DiscardPointers(db: Tables, after: Tables, p: Uuid, v: Uuid)
    requires Inv(db) && Living(db.personas, p) && db.personas[p].draft == Some(v) && PointsTo(db.versions, p, v)
    requires after.users == db.users && after.drawn == db.drawn && after.versions == db.versions - {v}
    requires after.personas == db.personas[p := db.personas[p].(draft := None)]
    ensures PersonasOk(after.users, after.personas, after.versions, after.drawn)
    ensures VersionsHomed(after.personas, after.versions, after.drawn)
    ensures SealedAreReady(after.personas, after.versions)
    ensures forall u :: Sealed(db, u) ==> u != v && Sealed(after, u)
  {
    hide JobsHomed, LoadsOk, LocksOk, ReadyAreIndexed, SourcesOk, ChunksOk;
    forall q | q in after.personas
      ensures PersonaOk(after.users, after.versions, after.drawn, q, after.personas[q])
    {
      assert PersonaOk(db.users, db.versions, db.drawn, q, db.personas[q]);
    }
  }

  lemma GoneJobs(db: Tables, after: Tables, gone: set<Uuid>)
    requires Inv(db) && VersionsGone(db, after, gone)
    requires forall j :: j in db.jobs ==>
      && Living(after.personas, db.jobs[j].persona)
      && after.personas[db.jobs[j].persona].lockKey == db.personas[db.jobs[j].persona].lockKey
    ensures JobsHomed(after.jobs, after.personas, after.versions, after.drawn) && LocksOk(after.jobs, after.personas)
  {
    hide PersonasOk, VersionsHomed, SealedAreReady, ReadyAreIndexed, ChunksOk, SourcesOk, LoadsOk;
    forall j | j in db.jobs
      ensures JobHomed(after.personas, after.versions, after.drawn, db.jobs[j])
    {
      assert JobHomed(db.personas, db.versions, db.drawn, db.jobs[j]);
    }
    forall j, k | j in db.jobs && k in db.jobs && SameLock(after.personas, db.jobs[j], db.jobs[k])
      ensures j == k
    {
      assert SameLock(db.personas, db.jobs[j], db.jobs[k]);
    }
  }

  lemma JobsLive(db: Tables)
    requires Inv(db)
    ensures forall j :: j in db.jobs ==> Living(db.personas, db.jobs[j].persona)
  {
    hide PersonasOk, VersionsHomed, SealedAreReady, ReadyAreIndexed, ChunksOk, SourcesOk, LoadsOk, LocksOk;
    forall j | j in db.jobs
      ensures Living(db.personas, db.jobs[j].persona)
    {
      assert JobHomed(db.personas, db.versions, db.drawn, db.jobs[j]);
    }
  }

  lemma DiscardDraftKeepsInv(db: Tables, owner: Subject, p: Uuid, key: Uuid)
    requires Inv(db)
    ensures var after := DiscardDraft(db, owner, p, key).0; Inv(after) && SealedKept(db, after)
  {
    hide PersonasOk, VersionsHomed, SealedAreReady, ReadyAreIndexed, SourcesOk, ChunksOk, JobsHomed, LoadsOk, LocksOk;
    hide SameSources, SameChunks;
    var after := DiscardDraft(db, owner, p, key).0;
    if after != db {
      DraftIsDraft(db, owner, p);
      var v := DraftOf(db, owner, p).value;
      assert VersionsGone(db, after, {v});
      GoneTables(db, after, {v});
      ReadyFrame(db, after);
      GoneLoads(db, after, {v});
      DiscardPointers(db, after, p, v);
      JobsLive(db);
      GoneJobs(db, after, {v});
    } else {
      NothingChanges(db, after);
    }
  }

  // ---------------------------------------------------------------- DeletePersona

  lemma DeletePointers(db: Tables, after: Tables, p: Uuid, gone: set<Uuid>)
    requires Inv(db) && p in db.personas
    requires forall v :: v in gone <==> v in db.versions && db.versions[v].persona == p
    requires after.users == db.users && after.drawn == db.drawn && after.versions == db.versions - gone
    requires after.personas ==
      db.personas[p := db.personas[p].(active := None, draft := None, deleted := true, name := "")]
    ensures PersonasOk(after.users, after.personas, after.versions, after.drawn)
    ensures VersionsHomed(after.personas, after.versions, after.drawn)
    ensures SealedAreReady(after.personas, after.versions)
    ensures forall u :: Sealed(db, u) && u !in gone ==> Sealed(after, u)
  {
    hide JobsHomed, LoadsOk, LocksOk, ReadyAreIndexed, SourcesOk, ChunksOk;
    forall q | q in after.personas
      ensures PersonaOk(after.users, after.versions, after.drawn, q, after.personas[q])
    {
      assert PersonaOk(db.users, db.versions, db.drawn, q, db.personas[q]);
    }
  }

  /** When no run holds the persona's lock, none of its rows is left, and every other persona's version is as before. */
  lemma DeleteMaterialKeepsInv(db: Tables, owner: Subject, p: Uuid, key: Uuid)
    requires Inv(db) && p in db.personas && !MaterialBusy(db, p)
    ensures var after := DeleteMaterial(db, owner, p, key);
      && Inv(after)
      && (forall v :: Sealed(db, v) && db.versions[v].persona != p ==> Sealed(after, v) && SameMaterial(db, after, v))
  {
    hide PersonasOk, VersionsHomed, SealedAreReady, ReadyAreIndexed, SourcesOk, JobsHomed, LoadsOk, LocksOk;
    hide SameSources, SameChunks;
    var after := DeleteMaterial(db, owner, p, key);
    var gone := set v | v in db.versions && db.versions[v].persona == p;
    EverythingDrawn(db);
    assert VersionsGone(db, after, gone);
    GoneTables(db, after, gone);
    ReadyFrame(db, after);
    GoneLoads(db, after, gone);
    DeletePointers(db, after, p, gone);
    JobsLive(db);
    assert forall j :: j in db.jobs ==> db.jobs[j].persona != p;
    GoneJobs(db, after, gone);
  }
}
