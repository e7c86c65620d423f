/** The transactions of an index run keep the invariant; the commit of a run of the current revision leaves exactly the
    chunks of the version's sources. */
module IndexSteps {
  import opened Basics
  import opened Chunker
  import ChunkerProofs
  import opened Materials
  import opened MaterialInvariant
  import opened PersonaSteps
  import opened DraftSteps

  // ---------------------------------------------------------------- what a run inserts

  /** The chunker makes this record from this row. */
  ghost predicate MadeFrom(row: SourceRow, record: ChunkRecord) {
    && row.kind in CHUNKABLE_KINDS
    && exists k :: 0 <= k < |ChunkMaterial(row.content, row.kind).value|
         && record == ChunkRecord(row.id, ChunkMaterial(row.content, row.kind).value[k])
  }

  ghost predicate MadeFromSome(rows: seq<SourceRow>, record: ChunkRecord) {
    exists i :: 0 <= i < |rows| && MadeFrom(rows[i], record)
  }

  lemma {:induction false} PendingIsExact(rows: seq<SourceRow>)
    requires Pending(rows).Ok?
    ensures forall record :: record in Pending(rows).value <==> MadeFromSome(rows, record)
  {
    if rows != [] {
      var chunks := ChunkMaterial(rows[0].content, rows[0].kind).value;
      var first, rest := RecordsOf(rows[0].id, chunks), Pending(rows[1..]).value;
      PendingIsExact(rows[1..]);
      forall record
        ensures record in Pending(rows).value <==> MadeFromSome(rows, record)
      {
        MadeFromFirst(rows, record);
        assert record in first <==> MadeFrom(rows[0], record) by {
          if MadeFrom(rows[0], record) {
            var k :| 0 <= k < |chunks| && record == ChunkRecord(rows[0].id, chunks[k]);
            assert first[k] == record;
          }
        }
      }
    }
  }

  lemma MadeFromFirst(rows: seq<SourceRow>, record: ChunkRecord)
    requires rows != []
    ensures MadeFromSome(rows, record) <==> MadeFrom(rows[0], record) || MadeFromSome(rows[1..], record)
  {
    hide MadeFrom;
    if MadeFromSome(rows, record) && !MadeFrom(rows[0], record) {
      var i :| 0 <= i < |rows| && MadeFrom(rows[i], record);
      assert rows[1..][i - 1] == rows[i];
    }
    if MadeFromSome(rows[1..], record) {
      var i :| 0 <= i < |rows| - 1 && MadeFrom(rows[1..][i], record);
      assert rows[i + 1] == rows[1..][i];
    }
  }

  ghost predicate KeyedBySome(v: Uuid, records: seq<ChunkRecord>, c: ChunkId) {
    exists record :: record in records && KeyOf(v, record) == c
  }

  /** Every record becomes a row, nothing else changes. */
  lemma {:induction false} InsertIsExact(
    chunks: map<ChunkId, ChunkRow>, sources: set<Uuid>, p: Uuid, v: Uuid, records: seq<ChunkRecord>)
    requires InsertChunks(chunks, sources, p, v, records).Some?
    ensures var after := InsertChunks(chunks, sources, p, v, records).value;
      && (forall c :: c in after <==> c in chunks || KeyedBySome(v, records, c))
      && (forall c :: c in chunks ==> after[c] == chunks[c])
      && (forall record :: record in records ==>
            record.source in sources && KeyOf(v, record) in after && after[KeyOf(v, record)] == RowOf(p, record))
    decreases |records|
  {
    if records != [] {
      var key, rest := KeyOf(v, records[0]), records[1..];
      InsertIsExact(chunks[key := RowOf(p, records[0])], sources, p, v, rest);
      assert records == [records[0]] + rest;
    }
  }

  // ---------------------------------------------------------------- CommitJob

  /** What the run's version holds after its chunks were replaced: only chunks of the run, with the run's rows. */
  lemma ReplacedChunks(db: Tables, job: Job, c: ChunkId)
    requires job.phase.Built? && ReplaceChunks(db, job.persona, job.version, job.phase.records).Some?
    ensures var after := ReplaceChunks(db, job.persona, job.version, job.phase.records).value;
      && (c.version != job.version ==> (c in after <==> c in db.chunks) && (c in db.chunks ==> after[c] == db.chunks[c]))
      && (c.version == job.version ==> (c in after <==> KeyedBySome(job.version, job.phase.records, c)))
  {
    var cleared := ChunksOutside(db.chunks, job.version);
    InsertIsExact(cleared, db.sources.Keys, job.persona, job.version, job.phase.records);
  }

  lemma RunIsExact(db: Tables, job: Job)
    requires job.phase.Built? && BuildRecords(job.phase.rows) == Ok(job.phase.records)
    requires Lists(db.sources, job.version, CHUNKABLE_KINDS, job.phase.rows)
    requires ReplaceChunks(db, job.persona, job.version, job.phase.records).Some?
    ensures IndexedExactly(
      db.sources, ReplaceChunks(db, job.persona, job.version, job.phase.records).value, job.persona, job.version)
  {
    hide Lists, ReplaceChunks, BuildRecords;
    var after := ReplaceChunks(db, job.persona, job.version, job.phase.records).value;
    forall c: ChunkId | c.version == job.version
      ensures c in after <==> ChunkDue(db.sources, c)
      ensures c in after ==> after[c] == DueRow(db.sources, job.persona, c)
    {
      ReplacedChunks(db, job, c);
      RunKeys(db, job, c);
    }
  }

  lemma RunKeys(db: Tables, job: Job, c: ChunkId)
    requires job.phase.Built? && BuildRecords(job.phase.rows) == Ok(job.phase.records)
    requires Lists(db.sources, job.version, CHUNKABLE_KINDS, job.phase.rows) && c.version == job.version
    requires ReplaceChunks(db, job.persona, job.version, job.phase.records).Some?
    ensures KeyedBySome(job.version, job.phase.records, c) <==> ChunkDue(db.sources, c)
    ensures ChunkDue(db.sources, c) ==>
      var after := ReplaceChunks(db, job.persona, job.version, job.phase.records).value;
      c in after && after[c] == DueRow(db.sources, job.persona, c)
  {
    hide Lists, ChunkMaterial;
    var records := job.phase.records;
    var cleared := ChunksOutside(db.chunks, job.version);
    InsertIsExact(cleared, db.sources.Keys, job.persona, job.version, records);
    if KeyedBySome(job.version, records, c) {
      KeyedIsDue(db.sources, job, c);
    }
    if ChunkDue(db.sources, c) {
      DueIsKeyed(db.sources, job, c);
    }
  }

  lemma KeyedIsDue(sources: map<Uuid, Source>, job: Job, c: ChunkId)
    requires job.phase.Built? && BuildRecords(job.phase.rows) == Ok(job.phase.records)
    requires Lists(sources, job.version, CHUNKABLE_KINDS, job.phase.rows)
    requires KeyedBySome(job.version, job.phase.records, c)
    ensures ChunkDue(sources, c)
  {
    hide ChunkMaterial;
    var rows := job.phase.rows;
    PendingIsExact(rows);
    var record :| record in job.phase.records && KeyOf(job.version, record) == c;
    var i :| 0 <= i < |rows| && MadeFrom(rows[i], record);
    ChunkerProofs.ChunksNumbered(rows[i].content, rows[i].kind);
  }

  lemma DueIsKeyed(sources: map<Uuid, Source>, job: Job, c: ChunkId)
    requires job.phase.Built? && BuildRecords(job.phase.rows) == Ok(job.phase.records)
    requires Lists(sources, job.version, CHUNKABLE_KINDS, job.phase.rows)
    requires c.version == job.version && ChunkDue(sources, c)
    ensures var record := ChunkRecord(c.source, ChunksOf(sources[c.source])[c.ordinal]);
      record in job.phase.records && KeyOf(job.version, record) == c
  {
    hide ChunkMaterial;
    var source, rows := sources[c.source], job.phase.rows;
    PendingIsExact(rows);
    var i :| 0 <= i < |rows| && rows[i].id == c.source;
    ChunkerProofs.ChunksNumbered(source.content, source.kind);
    var record := ChunkRecord(c.source, ChunksOf(source)[c.ordinal]);
    assert MadeFrom(rows[i], record);
    assert MadeFromSome(rows, record);
  }

  /** A run whose version is gone inserts nothing: the foreign key to the sources refuses its first row. */
  lemma RecordsComeFromRows(db: Tables, job: Job)
    requires Inv(db) && LoadOk(job, db.versions, db.sources, db.drawn) && job.phase.Built?
    requires ReplaceChunks(db, job.persona, job.version, job.phase.records).Some?
    ensures job.version in db.versions
    ensures forall record :: record in job.phase.records ==>
      record.source in db.sources && db.sources[record.source].version == job.version
  {
    hide PersonasOk, VersionsHomed, SealedAreReady, ReadyAreIndexed, ChunksOk, JobsHomed, LoadsOk, LocksOk, Lists;
    hide ChunkMaterial;
    var records := job.phase.records;
    var cleared := ChunksOutside(db.chunks, job.version);
    InsertIsExact(cleared, db.sources.Keys, job.persona, job.version, records);
    PendingIsExact(job.phase.rows);
    forall record | record in records
      ensures db.sources[record.source].version == job.version
    {
      var i :| 0 <= i < |job.phase.rows| && MadeFrom(job.phase.rows[i], record);
      assert RowKnown(job.phase.rows[i], job.version, db.sources, db.drawn);
    }
    assert records[0] in records;
  }

  lemma CommitChunks(db: Tables, after: Tables, job: Job)
    requires Inv(db) && LoadOk(job, db.versions, db.sources, db.drawn) && job.phase.Built?
    requires JobHomed(db.personas, db.versions, db.drawn, job)
    requires ReplaceChunks(db, job.persona, job.version, job.phase.records) == Some(after.chunks)
    requires job.version in db.versions
    requires after.versions == db.versions[job.version := MarkedReady(db.versions[job.version], job.revision)]
    requires after.sources == db.sources
    ensures ChunksOk(after.chunks, after.sources, after.versions)
    ensures forall u :: u != job.version ==> SameSources(db.sources, after.sources, u) && SameChunks(db.chunks, after.chunks, u)
  {
    hide PersonasOk, VersionsHomed, SealedAreReady, SourcesOk, JobsHomed, LoadsOk, LocksOk, ReadyAreIndexed, Lists;
    hide ReplaceChunks, BuildRecords, KeyedBySome;
    forall c: ChunkId
      ensures c.version != job.version ==>
        (c in after.chunks <==> c in db.chunks) && (c in db.chunks ==> after.chunks[c] == db.chunks[c])
    {
      ReplacedChunks(db, job, c);
    }
    forall c | c in after.chunks
      ensures PointsTo(after.versions, after.chunks[c].persona, c.version)
      ensures c.source in after.sources && after.sources[c.source].version == c.version
    {
      if c.version == job.version {
        NewChunkOk(db, job, c);
      }
    }
  }

  lemma CommitIndexes(db: Tables, after: Tables, job: Job)
    requires Inv(db) && LoadOk(job, db.versions, db.sources, db.drawn) && job.phase.Built?
    requires JobHomed(db.personas, db.versions, db.drawn, job)
    requires ReplaceChunks(db, job.persona, job.version, job.phase.records) == Some(after.chunks)
    requires job.version in db.versions
    requires after.versions == db.versions[job.version := MarkedReady(db.versions[job.version], job.revision)]
    requires after.sources == db.sources
    requires forall u :: u != job.version ==>
      SameSources(db.sources, after.sources, u) && SameChunks(db.chunks, after.chunks, u)
    ensures ReadyAreIndexed(after.versions, after.sources, after.chunks)
  {
    hide PersonasOk, VersionsHomed, SealedAreReady, SourcesOk, ChunksOk, JobsHomed, LoadsOk, LocksOk;
    hide IndexedExactly, Lists, ReplaceChunks, BuildRecords, SameSources, SameChunks;
    forall u | u in after.versions && after.versions[u].status == Ready
      ensures CanActivate(after.versions[u])
      ensures IndexedExactly(after.sources, after.chunks, after.versions[u].persona, u)
    {
      if u == job.version {
        RunIsExact(db, job);
      } else {
        IndexFrame(db.sources, db.chunks, after.sources, after.chunks, db.versions[u].persona, u);
      }
    }
  }

  lemma NewChunkOk(db: Tables, job: Job, c: ChunkId)
    requires Inv(db) && LoadOk(job, db.versions, db.sources, db.drawn) && job.phase.Built?
    requires ReplaceChunks(db, job.persona, job.version, job.phase.records).Some? && c.version == job.version
    requires c in ReplaceChunks(db, job.persona, job.version, job.phase.records).value
    ensures ReplaceChunks(db, job.persona, job.version, job.phase.records).value[c].persona == job.persona
    ensures c.source in db.sources && db.sources[c.source].version == c.version
  {
    hide Inv, LoadOk;
    RecordsComeFromRows(db, job);
    var cleared := ChunksOutside(db.chunks, job.version);
    InsertIsExact(cleared, db.sources.Keys, job.persona, job.version, job.phase.records);
    var record :| record in job.phase.records && KeyOf(job.version, record) == c;
  }

  lemma NotReadyIsDraft(db: Tables, v: Uuid)
    requires Inv(db) && v in db.versions && db.versions[v].status != Ready
    ensures IsDraft(db.personas, db.versions, v)
  {
  }

  /** The only run of a version settles: its version may change status, not revision. */
  lemma SettledJobs(db: Tables, after: Tables, j: Uuid, version: Version)
    requires Inv(db) && j in db.jobs && db.jobs[j].version in db.versions
    requires version.persona == db.jobs[j].persona && version.revision == db.versions[db.jobs[j].version].revision
    requires after.jobs == db.jobs[j := db.jobs[j].(phase := Settled)] && after.drawn == db.drawn
    requires after.personas == db.personas && after.versions == db.versions[db.jobs[j].version := version]
    ensures JobsHomed(after.jobs, after.personas, after.versions, after.drawn) && LocksOk(after.jobs, after.personas)
  {
    hide PersonasOk, VersionsHomed, SealedAreReady, LoadsOk, ReadyAreIndexed, SourcesOk, ChunksOk;
    assert JobHomed(db.personas, db.versions, db.drawn, db.jobs[j]);
    forall k | k in after.jobs
      ensures JobHomed(after.personas, after.versions, after.drawn, after.jobs[k])
    {
      assert JobHomed(db.personas, db.versions, db.drawn, db.jobs[k]);
      assert db.jobs[k].persona == db.jobs[j].persona ==> SameLock(db.personas, db.jobs[k], db.jobs[j]);
    }
    forall i, k | i in after.jobs && k in after.jobs && SameLock(after.personas, after.jobs[i], after.jobs[k])
      ensures i == k
    {
      assert SameLock(db.personas, db.jobs[i], db.jobs[k]);
    }
  }

  lemma SettledLoads(db: Tables, after: Tables, j: Uuid, version: Version)
    requires Inv(db) && j in db.jobs && db.jobs[j].version in db.versions
    requires version.revision == db.versions[db.jobs[j].version].revision
    requires after.jobs == db.jobs[j := db.jobs[j].(phase := Settled)] && after.drawn == db.drawn
    requires after.versions == db.versions[db.jobs[j].version := version] && after.sources == db.sources
    ensures LoadsOk(after.jobs, after.versions, after.sources, after.drawn)
    ensures SourcesOk(after.sources, after.versions, after.drawn)
  {
    hide PersonasOk, VersionsHomed, SealedAreReady, ReadyAreIndexed, ChunksOk, JobsHomed, LocksOk, Lists;
    forall k | k in after.jobs
      ensures LoadOk(after.jobs[k], after.versions, after.sources, after.drawn)
    {
      assert LoadOk(db.jobs[k], db.versions, db.sources, db.drawn);
    }
  }

  /** A run goes on to another phase; no other table changes. */
  lemma PhaseKeepsInv(db: Tables, j: Uuid, phase: Phase)
    requires Inv(db) && j in db.jobs && !db.jobs[j].phase.Settled?
    requires LoadOk(db.jobs[j].(phase := phase), db.versions, db.sources, db.drawn)
    ensures Inv(WithPhase(db, j, phase)) && SealedKept(db, WithPhase(db, j, phase))
  {
    hide PersonasOk, VersionsHomed, SealedAreReady, ReadyAreIndexed, ChunksOk, SourcesOk, JobsHomed, LocksOk, LoadOk;
    hide SameSources, SameChunks;
    var after := WithPhase(db, j, phase);
    SameIsSame(db, after);
    JobsFrame(db.jobs, after.jobs, db.personas, db.personas, db.versions, db.drawn, db.drawn);
    forall k | k in after.jobs
      ensures LoadOk(after.jobs[k], after.versions, after.sources, after.drawn)
    {
      assert LoadOk(db.jobs[k], db.versions, db.sources, db.drawn);
    }
  }

  lemma CommitJobKeepsInv(db: Tables, j: Uuid)
    requires Inv(db)
    ensures Inv(CommitJob(db, j)) && SealedKept(db, CommitJob(db, j))
  {
    hide PersonasOk, VersionsHomed, SealedAreReady, ReadyAreIndexed, SourcesOk, ChunksOk, LocksOk;
    hide SameSources, SameChunks, ReplaceChunks, BuildRecords;
    var after := CommitJob(db, j);
    if j !in db.jobs || !db.jobs[j].phase.Built? {
      NothingChanges(db, after);
    } else {
      var job := db.jobs[j];
      assert JobHomed(db.personas, db.versions, db.drawn, job) && LoadOk(job, db.versions, db.sources, db.drawn);
      if ReplaceChunks(db, job.persona, job.version, job.phase.records).None? {
        PhaseKeepsInv(db, j, Doomed("indexing_failed"));
      } else {
        CommitSucceeds(db, j);
      }
    }
  }

  lemma CommitSucceeds(db: Tables, j: Uuid)
    requires Inv(db) && j in db.jobs && db.jobs[j].phase.Built?
    requires ReplaceChunks(db, db.jobs[j].persona, db.jobs[j].version, db.jobs[j].phase.records).Some?
    ensures Inv(CommitJob(db, j)) && SealedKept(db, CommitJob(db, j))
  {
    hide PersonasOk, VersionsHomed, SealedAreReady, ReadyAreIndexed, SourcesOk, ChunksOk, LocksOk;
    hide SameSources, SameChunks, ReplaceChunks, LoadOk;
    var after, job := CommitJob(db, j), db.jobs[j];
    assert JobHomed(db.personas, db.versions, db.drawn, job) && LoadOk(job, db.versions, db.sources, db.drawn);
    hide LoadsOk, JobsHomed;
    RecordsComeFromRows(db, job);
    var version := after.versions[job.version];
    CommitChunks(db, after, job);
    CommitIndexes(db, after, job);
    NotReadyIsDraft(db, job.version);
    DraftRow(db, after, job.version, version);
    SettledJobs(db, after, j, version);
    SettledLoads(db, after, j, version);
  }

  // ---------------------------------------------------------------- the other steps of a run

  lemma StartIndexingKeepsInv(db: Tables, owner: Subject, p: Uuid, expectedRevision: nat, newJob: Uuid)
    requires Inv(db)
    ensures var after := StartIndexing(db, owner, p, expectedRevision, newJob).0; Inv(after) && SealedKept(db, after)
  {
    hide PersonasOk, VersionsHomed, SealedAreReady, ReadyAreIndexed, SourcesOk, ChunksOk, JobsHomed, LoadsOk, LocksOk;
    hide SameSources, SameChunks;
    var step := StartIndexing(db, owner, p, expectedRevision, newJob);
    var after := step.0;
    if step.1.Done? {
      DraftIsDraft(db, owner, p);
      var v := DraftOf(db, owner, p).value;
      var version := after.versions[v];
      DraftRow(db, after, v, version);
      DraftRowJobs(db, after, v, version);
      SameIsSame(db, after);
      OneVersionRow(db, after, v, version);
      NewJob(db, after, newJob, v, version);
    } else {
      NothingChanges(db, after);
    }
  }

  /** A row that is not ready afterwards, and sources and chunks as before. */
  lemma OneVersionRow(db: Tables, after: Tables, v: Uuid, version: Version)
    requires Inv(db) && v in db.versions && version.persona == db.versions[v].persona && version.status != Ready
    requires after.versions == db.versions[v := version] && after.sources == db.sources && after.chunks == db.chunks
    requires db.drawn <= after.drawn
    ensures ReadyAreIndexed(after.versions, after.sources, after.chunks)
    ensures SourcesOk(after.sources, after.versions, after.drawn)
    ensures ChunksOk(after.chunks, after.sources, after.versions)
  {
    hide PersonasOk, VersionsHomed, SealedAreReady, JobsHomed, LoadsOk, LocksOk, IndexedExactly;
  }

  lemma NewJob(db: Tables, after: Tables, j: Uuid, v: Uuid, version: Version)
    requires Inv(db) && v in db.versions && j !in db.drawn && after.drawn == db.drawn + {j}
    requires version == db.versions[v].(status := Processing)
    requires after.versions == db.versions[v := version] && after.personas == db.personas && after.sources == db.sources
    requires Living(db.personas, version.persona) && !LockHeld(db, db.personas[version.persona].lockKey)
    requires JobsHomed(db.jobs, after.personas, after.versions, after.drawn)
    requires after.jobs == db.jobs[j := Job(version.persona, v, version.revision, Claimed)]
    ensures JobsHomed(after.jobs, after.personas, after.versions, after.drawn) && LocksOk(after.jobs, after.personas)
    ensures LoadsOk(after.jobs, after.versions, after.sources, after.drawn)
  {
    hide PersonasOk, SealedAreReady, ReadyAreIndexed, ChunksOk, SourcesOk, Lists;
    forall i, k | i in after.jobs && k in after.jobs && SameLock(after.personas, after.jobs[i], after.jobs[k])
      ensures i == k
    {
      if i != j && k != j {
        assert SameLock(db.personas, db.jobs[i], db.jobs[k]);
      }
    }
    forall k | k in after.jobs
      ensures LoadOk(after.jobs[k], after.versions, after.sources, after.drawn)
    {
      assert k in db.jobs ==> LoadOk(db.jobs[k], db.versions, db.sources, db.drawn);
    }
  }

  lemma BuildJobKeepsInv(db: Tables, j: Uuid, rows: seq<SourceRow>, embedded: bool)
    requires Inv(db)
    ensures Inv(BuildJob(db, j, rows, embedded)) && SealedKept(db, BuildJob(db, j, rows, embedded))
  {
    hide Inv, SealedKept, LoadOk, BuildRecords, Lists;
    if j !in db.jobs || !db.jobs[j].phase.Claimed? || !Lists(db.sources, db.jobs[j].version, CHUNKABLE_KINDS, rows) {
      NothingChanges(db, BuildJob(db, j, rows, embedded));
    } else {
      match BuildRecords(rows)
      case Err(code) =>
        NotLoaded(db, db.jobs[j], Doomed(code));
        PhaseKeepsInv(db, j, Doomed(code));
      case Ok(records) =>
        LoadedIsOk(db, db.jobs[j], rows, records);
        NotLoaded(db, db.jobs[j], Doomed("embedding_unavailable"));
        PhaseKeepsInv(db, j, if embedded then Built(rows, records) else Doomed("embedding_unavailable"));
    }
  }

  lemma LoadedIsOk(db: Tables, job: Job, rows: seq<SourceRow>, records: seq<ChunkRecord>)
    requires Inv(db) && Lists(db.sources, job.version, CHUNKABLE_KINDS, rows) && BuildRecords(rows) == Ok(records)
    ensures LoadOk(job.(phase := Built(rows, records)), db.versions, db.sources, db.drawn)
  {
    hide PersonasOk, VersionsHomed, SealedAreReady, ReadyAreIndexed, ChunksOk, JobsHomed, LocksOk, LoadsOk, BuildRecords;
  }

  lemma NotLoaded(db: Tables, job: Job, phase: Phase)
    requires !phase.Built?
    ensures LoadOk(job.(phase := phase), db.versions, db.sources, db.drawn)
  {
  }

  lemma DoomJobKeepsInv(db: Tables, j: Uuid)
    requires Inv(db)
    ensures Inv(DoomJob(db, j)) && SealedKept(db, DoomJob(db, j))
  {
    hide Inv, SealedKept, LoadOk;
    if DoomJob(db, j) != db {
      NotLoaded(db, db.jobs[j], Doomed("indexing_failed"));
      PhaseKeepsInv(db, j, Doomed("indexing_failed"));
    } else {
      NothingChanges(db, DoomJob(db, j));
    }
  }

  lemma FailJobKeepsInv(db: Tables, j: Uuid)
    requires Inv(db)
    ensures Inv(FailJob(db, j)) && SealedKept(db, FailJob(db, j))
  {
    hide PersonasOk, VersionsHomed, SealedAreReady, ReadyAreIndexed, SourcesOk, ChunksOk, LocksOk, LoadsOk;
    hide SameSources, SameChunks, LoadOk;
    var after := FailJob(db, j);
    if after.versions != db.versions {
      var v := db.jobs[j].version;
      assert JobHomed(db.personas, db.versions, db.drawn, db.jobs[j]);
      hide JobsHomed;
      var version := after.versions[v];
      NotReadyIsDraft(db, v);
      DraftRow(db, after, v, version);
      OneVersionRow(db, after, v, version);
      SettledJobs(db, after, j, version);
      SettledLoads(db, after, j, version);
      SameIsSame(db, after);
    } else if after.jobs != db.jobs {
      NotLoaded(db, db.jobs[j], Settled);
      PhaseKeepsInv(db, j, Settled);
    } else {
      NothingChanges(db, after);
    }
  }

  lemma CrashJobKeepsInv(db: Tables, j: Uuid)
    requires Inv(db)
    ensures Inv(CrashJob(db, j)) && SealedKept(db, CrashJob(db, j))
  {
    hide PersonasOk, VersionsHomed, SealedAreReady, ReadyAreIndexed, ChunksOk, SourcesOk, JobsHomed, LocksOk, LoadOk;
    hide SameSources, SameChunks;
    var after := CrashJob(db, j);
    SameIsSame(db, after);
    JobsFrame(db.jobs, after.jobs, db.personas, db.personas, db.versions, db.drawn, db.drawn);
  }

  lemma ReleaseJobKeepsInv(db: Tables, j: Uuid)
    requires Inv(db)
    ensures Inv(ReleaseJob(db, j)) && SealedKept(db, ReleaseJob(db, j))
  {
    hide Inv, SealedKept;
    if ReleaseJob(db, j) != db {
      CrashJobKeepsInv(db, j);
    } else {
      NothingChanges(db, db);
    }
  }

  lemma RestartKeepsInv(db: Tables)
    requires Inv(db)
    ensures Inv(Restart(db)) && SealedKept(db, Restart(db))
  {
    hide PersonasOk, VersionsHomed, ReadyAreIndexed, SourcesOk, ChunksOk, JobsHomed, LoadsOk, LocksOk;
    hide SameSources, SameChunks;
    var after := Restart(db);
    SameIsSame(db, after);
    RestartRows(db);
    RestartReferences(db);
    RestartJobs(db);
    ReadyFrame(db, after);
  }

  lemma RestartRows(db: Tables)
    requires Inv(db)
    ensures var after := Restart(db);
      && PersonasOk(after.users, after.personas, after.versions, after.drawn)
      && VersionsHomed(after.personas, after.versions, after.drawn)
  {
    hide SealedAreReady, ReadyAreIndexed, SourcesOk, ChunksOk, JobsHomed, LoadsOk, LocksOk;
    var after := Restart(db);
    forall q | q in after.personas
      ensures PersonaOk(after.users, after.versions, after.drawn, q, after.personas[q])
    {
      assert PersonaOk(db.users, db.versions, db.drawn, q, db.personas[q]);
    }
  }

  lemma RestartReferences(db: Tables)
    requires Inv(db)
    ensures var after := Restart(db);
      && SourcesOk(after.sources, after.versions, after.drawn)
      && ChunksOk(after.chunks, after.sources, after.versions)
  {
    hide PersonasOk, VersionsHomed, SealedAreReady, ReadyAreIndexed, JobsHomed, LoadsOk, LocksOk;
  }

  lemma RestartJobs(db: Tables)
    requires Inv(db)
    ensures var after := Restart(db);
      && JobsHomed(after.jobs, after.personas, after.versions, after.drawn)
      && LoadsOk(after.jobs, after.versions, after.sources, after.drawn)
  {
    hide PersonasOk, VersionsHomed, SealedAreReady, ReadyAreIndexed, ChunksOk, SourcesOk, LocksOk, Lists;
    var after := Restart(db);
    forall j | j in db.jobs
      ensures JobHomed(after.personas, after.versions, after.drawn, after.jobs[j])
      ensures LoadOk(after.jobs[j], after.versions, after.sources, after.drawn)
    {
      assert JobHomed(db.personas, db.versions, db.drawn, db.jobs[j]);
      assert LoadOk(db.jobs[j], db.versions, db.sources, db.drawn);
    }
  }

  // ---------------------------------------------------------------- a run that nobody disturbed succeeds

  predicate DistinctKeys(v: Uuid, records: seq<ChunkRecord>) {
    forall i, j :: 0 <= i < j < |records| ==> KeyOf(v, records[i]) != KeyOf(v, records[j])
  }

  lemma {:induction false} InsertSucceeds(
    chunks: map<ChunkId, ChunkRow>, sources: set<Uuid>, p: Uuid, v: Uuid, records: seq<ChunkRecord>)
    requires DistinctKeys(v, records)
    requires forall i :: 0 <= i < |records| ==> records[i].source in sources && KeyOf(v, records[i]) !in chunks
    ensures InsertChunks(chunks, sources, p, v, records).Some?
    decreases |records|
  {
    if records != [] {
      var rest := records[1..];
      var next := chunks[KeyOf(v, records[0]) := RowOf(p, records[0])];
      forall i | 0 <= i < |rest|
        ensures rest[i].source in sources && KeyOf(v, rest[i]) !in next
      {
        assert rest[i] == records[i + 1] && KeyOf(v, records[0]) != KeyOf(v, records[i + 1]);
      }
      assert DistinctKeys(v, rest) by {
        forall i, j | 0 <= i < j < |rest|
          ensures KeyOf(v, rest[i]) != KeyOf(v, rest[j])
        {
          assert KeyOf(v, records[i + 1]) != KeyOf(v, records[j + 1]);
        }
      }
      InsertSucceeds(next, sources, p, v, rest);
    }
  }

  ghost predicate NoSharedSource(xs: seq<ChunkRecord>, ys: seq<ChunkRecord>) {
    forall x, y :: x in xs && y in ys ==> x.source != y.source
  }

  lemma DistinctAppend(v: Uuid, xs: seq<ChunkRecord>, ys: seq<ChunkRecord>)
    requires DistinctKeys(v, xs) && DistinctKeys(v, ys)
    requires NoSharedSource(xs, ys)
    ensures DistinctKeys(v, xs + ys)
  {
    var all := xs + ys;
    forall i, j | 0 <= i < j < |all|
      ensures KeyOf(v, all[i]) != KeyOf(v, all[j])
    {
      if i < |xs| <= j {
        assert all[i] in xs && all[j] in ys;
      } else if i >= |xs| {
        assert all[i] == ys[i - |xs|] && all[j] == ys[j - |xs|];
      }
    }
  }

  lemma RecordsAreDistinct(v: Uuid, row: SourceRow)
    requires row.kind in CHUNKABLE_KINDS
    ensures DistinctKeys(v, RecordsOf(row.id, ChunkMaterial(row.content, row.kind).value))
  {
    hide ChunkMaterial;
    ChunkerProofs.ChunksNumbered(row.content, row.kind);
  }

  lemma {:induction false} PendingKeysDistinct(v: Uuid, rows: seq<SourceRow>)
    requires Pending(rows).Ok? && forall i, j :: 0 <= i < j < |rows| ==> rows[i].id != rows[j].id
    ensures DistinctKeys(v, Pending(rows).value)
  {
    hide DistinctKeys;
    if rows == [] {
      NoneDistinct(v);
    } else {
      var rest := rows[1..];
      forall i, j | 0 <= i < j < |rest|
        ensures rest[i].id != rest[j].id
      {
        assert rows[i + 1].id != rows[j + 1].id;
      }
      PendingKeysDistinct(v, rest);
      RecordsAreDistinct(v, rows[0]);
      OtherSourcesAfter(rows);
      DistinctAppend(v, RecordsOf(rows[0].id, ChunkMaterial(rows[0].content, rows[0].kind).value), Pending(rest).value);
    }
  }

  lemma NoneDistinct(v: Uuid)
    ensures DistinctKeys(v, [])
  {
  }

  lemma OtherSourcesAfter(rows: seq<SourceRow>)
    requires rows != [] && Pending(rows).Ok? && forall i, j :: 0 <= i < j < |rows| ==> rows[i].id != rows[j].id
    ensures NoSharedSource(
      RecordsOf(rows[0].id, ChunkMaterial(rows[0].content, rows[0].kind).value), Pending(rows[1..]).value)
  {
    hide ChunkMaterial;
    PendingIsExact(rows[1..]);
    forall y | y in Pending(rows[1..]).value
      ensures y.source != rows[0].id
    {
      var i :| 0 <= i < |rows| - 1 && MadeFrom(rows[1..][i], y);
      assert rows[1..][i] == rows[i + 1];
    }
  }

  /** When the version still has the revision the run started from, its commit is never refused: no UNIQUE key repeats and
      every source is there. The version is then ready and its index exact. */
  lemma CurrentRunCommits(db: Tables, j: Uuid)
    requires Inv(db) && j in db.jobs && db.jobs[j].phase.Built? && db.jobs[j].version in db.versions
    requires db.versions[db.jobs[j].version].revision == db.jobs[j].revision
    ensures var after, v := CommitJob(db, j), db.jobs[j].version;
      && v in after.versions && CanActivate(after.versions[v])
      && IndexedExactly(after.sources, after.chunks, db.jobs[j].persona, v)
  {
    hide PersonasOk, VersionsHomed, SealedAreReady, ReadyAreIndexed, SourcesOk, ChunksOk, JobsHomed, LocksOk;
    hide IndexedExactly, InsertChunks, ChunkMaterial;
    var job := db.jobs[j];
    assert LoadOk(job, db.versions, db.sources, db.drawn);
    hide LoadsOk;
    PendingKeysDistinct(job.version, job.phase.rows);
    SourcesAreThere(db.sources, job);
    InsertSucceeds(ChunksOutside(db.chunks, job.version), db.sources.Keys, job.persona, job.version, job.phase.records);
    RunIsExact(db, job);
  }

  lemma SourcesAreThere(sources: map<Uuid, Source>, job: Job)
    requires job.phase.Built? && BuildRecords(job.phase.rows) == Ok(job.phase.records)
    requires Lists(sources, job.version, CHUNKABLE_KINDS, job.phase.rows)
    ensures forall record :: record in job.phase.records ==> record.source in sources
  {
    hide ChunkMaterial;
    PendingIsExact(job.phase.rows);
    forall record | record in job.phase.records
      ensures record.source in sources
    {
      var i :| 0 <= i < |job.phase.rows| && MadeFrom(job.phase.rows[i], record);
    }
  }
}
