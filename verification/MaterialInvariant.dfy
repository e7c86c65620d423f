/** The invariant of the persona and material tables. Its heart: while an index run is under way its version is not
    ready, a ready version is indexed exactly, and every version that is not a draft is ready. */
module MaterialInvariant {
  import opened Basics
  import opened Chunker
  import opened Materials

  // ---------------------------------------------------------------- exact indexes

  predicate Chunkable(source: Source) {
    source.kind in CHUNKABLE_KINDS
  }

  /** The chunks of a chunkable source. */
  function ChunksOf(source: Source): seq<Chunk>
    requires Chunkable(source)
  {
    ChunkMaterial(source.content, source.kind).value
  }

  /** The chunker makes a chunk with this key from the sources of the key's version. */
  predicate ChunkDue(sources: map<Uuid, Source>, c: ChunkId) {
    && c.source in sources && sources[c.source].version == c.version && Chunkable(sources[c.source])
    && c.kind == sources[c.source].kind && c.ordinal < |ChunksOf(sources[c.source])|
  }

  function DueRow(sources: map<Uuid, Source>, p: Uuid, c: ChunkId): ChunkRow
    requires ChunkDue(sources, c)
  {
    RowOf(p, ChunkRecord(c.source, ChunksOf(sources[c.source])[c.ordinal]))
  }

  /** The stored chunks of a version are the chunks of its sources, no more and no less. */
  ghost predicate IndexedExactly(sources: map<Uuid, Source>, chunks: map<ChunkId, ChunkRow>, p: Uuid, v: Uuid) {
    forall c: ChunkId :: c.version == v ==>
      (c in chunks <==> ChunkDue(sources, c)) && (c in chunks ==> chunks[c] == DueRow(sources, p, c))
  }

  ghost predicate SameSources(sources: map<Uuid, Source>, after: map<Uuid, Source>, v: Uuid) {
    && (forall s :: s in sources && sources[s].version == v ==> s in after && after[s] == sources[s])
    && (forall s :: s in after && after[s].version == v ==> s in sources && sources[s] == after[s])
  }

  ghost predicate SameChunks(chunks: map<ChunkId, ChunkRow>, after: map<ChunkId, ChunkRow>, v: Uuid) {
    forall c: ChunkId :: c.version == v ==>
      (c in after <==> c in chunks) && (c in chunks ==> after[c] == chunks[c])
  }

  lemma IndexFrame(
    sources: map<Uuid, Source>, chunks: map<ChunkId, ChunkRow>,
    sources': map<Uuid, Source>, chunks': map<ChunkId, ChunkRow>, p: Uuid, v: Uuid)
    requires SameSources(sources, sources', v) && SameChunks(chunks, chunks', v)
    requires IndexedExactly(sources, chunks, p, v)
    ensures IndexedExactly(sources', chunks', p, v)
  {
    forall c: ChunkId | c.version == v
      ensures ChunkDue(sources', c) <==> ChunkDue(sources, c)
      ensures ChunkDue(sources, c) ==> DueRow(sources', p, c) == DueRow(sources, p, c)
    {
    }
  }

  lemma ListsFrame(
    sources: map<Uuid, Source>, sources': map<Uuid, Source>, v: Uuid, kinds: seq<string>, rows: seq<SourceRow>)
    requires SameSources(sources, sources', v) && Lists(sources, v, kinds, rows)
    ensures Lists(sources', v, kinds, rows)
  {
    forall i | 0 <= i < |rows|
      ensures rows[i].id in sources' && sources'[rows[i].id] == Source(v, rows[i].kind, rows[i].content)
    {
      assert rows[i].id in sources && sources[rows[i].id].version == v;
    }
  }

  // ---------------------------------------------------------------- the invariant

  predicate PointsTo(versions: map<Uuid, Version>, p: Uuid, v: Uuid) {
    v in versions && versions[v].persona == p
  }

  predicate Living(personas: map<Uuid, Persona>, p: Uuid) {
    p in personas && !personas[p].deleted
  }

  predicate IsDraft(personas: map<Uuid, Persona>, versions: map<Uuid, Version>, v: Uuid) {
    v in versions && versions[v].persona in personas && personas[versions[v].persona].draft == Some(v)
  }

  /** Nobody's draft: it was activated. */
  predicate Sealed(db: Tables, v: Uuid) {
    v in db.versions && !IsDraft(db.personas, db.versions, v)
  }

  predicate PersonaOk(users: set<Subject>, versions: map<Uuid, Version>, drawn: set<Uuid>, p: Uuid, persona: Persona) {
    && p in drawn && persona.owner in users
    && (persona.draft.Some? ==> PointsTo(versions, p, persona.draft.value) && persona.active != persona.draft)
    && (persona.active.Some? ==> PointsTo(versions, p, persona.active.value))
    && (persona.deleted ==> persona.draft.None? && persona.active.None?)
  }

  ghost predicate PersonasOk(
    users: set<Subject>, personas: map<Uuid, Persona>, versions: map<Uuid, Version>, drawn: set<Uuid>) {
    forall p :: p in personas ==> PersonaOk(users, versions, drawn, p, personas[p])
  }

  ghost predicate VersionsHomed(personas: map<Uuid, Persona>, versions: map<Uuid, Version>, drawn: set<Uuid>) {
    forall v :: v in versions ==> Living(personas, versions[v].persona) && v in drawn
  }

  ghost predicate SealedAreReady(personas: map<Uuid, Persona>, versions: map<Uuid, Version>) {
    forall v :: v in versions && !IsDraft(personas, versions, v) ==> versions[v].status == Ready
  }

  ghost predicate ReadyAreIndexed(
    versions: map<Uuid, Version>, sources: map<Uuid, Source>, chunks: map<ChunkId, ChunkRow>) {
    forall v :: v in versions && versions[v].status == Ready ==>
      CanActivate(versions[v]) && IndexedExactly(sources, chunks, versions[v].persona, v)
  }

  ghost predicate SourcesOk(sources: map<Uuid, Source>, versions: map<Uuid, Version>, drawn: set<Uuid>) {
    forall s :: s in sources ==> s in drawn && sources[s].version in versions
  }

  ghost predicate ChunksOk(
    chunks: map<ChunkId, ChunkRow>, sources: map<Uuid, Source>, versions: map<Uuid, Version>) {
    forall c :: c in chunks ==>
      PointsTo(versions, chunks[c].persona, c.version) && c.source in sources && sources[c.source].version == c.version
  }

  predicate JobHomed(personas: map<Uuid, Persona>, versions: map<Uuid, Version>, drawn: set<Uuid>, job: Job) {
    && Living(personas, job.persona) && job.version in drawn
    && (job.version in versions ==>
          versions[job.version].persona == job.persona && job.revision <= versions[job.version].revision)
    // no index run is under way on a ready version
    && (job.version in versions && !job.phase.Settled? ==> versions[job.version].status != Ready)
  }

  ghost predicate JobsHomed(
    jobs: map<Uuid, Job>, personas: map<Uuid, Persona>, versions: map<Uuid, Version>, drawn: set<Uuid>) {
    forall j :: j in jobs ==> j in drawn && JobHomed(personas, versions, drawn, jobs[j])
  }

  predicate RowKnown(row: SourceRow, v: Uuid, sources: map<Uuid, Source>, drawn: set<Uuid>) {
    row.id in drawn && (row.id in sources ==> sources[row.id].version == v)
  }

  /** What a run that has loaded its sources still knows: they are the version's own, and all of them as long as the
      revision is the one it started from. */
  ghost predicate LoadOk(job: Job, versions: map<Uuid, Version>, sources: map<Uuid, Source>, drawn: set<Uuid>) {
    job.phase.Built? ==>
      && BuildRecords(job.phase.rows) == Ok(job.phase.records)
      && (forall i :: 0 <= i < |job.phase.rows| ==> RowKnown(job.phase.rows[i], job.version, sources, drawn))
      && (job.version in versions && versions[job.version].revision == job.revision ==>
            Lists(sources, job.version, CHUNKABLE_KINDS, job.phase.rows))
  }

  ghost predicate LoadsOk(
    jobs: map<Uuid, Job>, versions: map<Uuid, Version>, sources: map<Uuid, Source>, drawn: set<Uuid>) {
    forall j :: j in jobs ==> LoadOk(jobs[j], versions, sources, drawn)
  }

  /** Two runs that hold the same advisory lock. */
  predicate SameLock(personas: map<Uuid, Persona>, a: Job, b: Job) {
    a.persona in personas && b.persona in personas && personas[a.persona].lockKey == personas[b.persona].lockKey
  }

  ghost predicate LocksOk(jobs: map<Uuid, Job>, personas: map<Uuid, Persona>) {
    forall j, k :: j in jobs && k in jobs && SameLock(personas, jobs[j], jobs[k]) ==> j == k
  }

  ghost predicate Inv(db: Tables) {
    && PersonasOk(db.users, db.personas, db.versions, db.drawn)
    && VersionsHomed(db.personas, db.versions, db.drawn)
    && SealedAreReady(db.personas, db.versions)
    && ReadyAreIndexed(db.versions, db.sources, db.chunks)
    && SourcesOk(db.sources, db.versions, db.drawn)
    && ChunksOk(db.chunks, db.sources, db.versions)
    && JobsHomed(db.jobs, db.personas, db.versions, db.drawn)
    && LoadsOk(db.jobs, db.versions, db.sources, db.drawn)
    && LocksOk(db.jobs, db.personas)
  }

  /** A version with its settings, sources and chunks is the same in both. */
  ghost predicate SameMaterial(db: Tables, after: Tables, v: Uuid) {
    && v in db.versions && v in after.versions && after.versions[v] == db.versions[v]
    && SameSources(db.sources, after.sources, v) && SameChunks(db.chunks, after.chunks, v)
  }

  /** Every sealed version stays sealed and keeps its settings, sources and chunks. */
  ghost predicate SealedKept(db: Tables, after: Tables) {
    forall v :: Sealed(db, v) ==> Sealed(after, v) && SameMaterial(db, after, v)
  }

  // ---------------------------------------------------------------- frames: who reads what

  /** The persona rows that were there still are, with the same owner, lock and life. */
  ghost predicate SameLives(personas: map<Uuid, Persona>, personas': map<Uuid, Persona>) {
    forall p :: p in personas ==>
      && p in personas' && personas'[p].lockKey == personas[p].lockKey && personas'[p].deleted == personas[p].deleted
  }

  lemma JobsFrame(
    jobs: map<Uuid, Job>, jobs': map<Uuid, Job>, personas: map<Uuid, Persona>, personas': map<Uuid, Persona>,
    versions: map<Uuid, Version>, drawn: set<Uuid>, drawn': set<Uuid>)
    requires JobsHomed(jobs, personas, versions, drawn) && LocksOk(jobs, personas)
    requires SameLives(personas, personas') && drawn <= drawn'
    requires forall j :: j in jobs' ==>
      j in jobs && (jobs'[j] == jobs[j] || (jobs'[j] == jobs[j].(phase := jobs'[j].phase) && !jobs[j].phase.Settled?))
    ensures JobsHomed(jobs', personas', versions, drawn') && LocksOk(jobs', personas')
  {
    forall j | j in jobs'
      ensures JobHomed(personas', versions, drawn', jobs'[j]) && jobs'[j].persona == jobs[j].persona
    {
      assert JobHomed(personas, versions, drawn, jobs[j]);
    }
    forall j, k | j in jobs' && k in jobs' && SameLock(personas', jobs'[j], jobs'[k])
      ensures j == k
    {
      assert JobHomed(personas, versions, drawn, jobs[j]) && JobHomed(personas, versions, drawn, jobs[k]);
      assert SameLock(personas, jobs[j], jobs[k]);
    }
  }

  /** Ready versions stay indexed when they, their sources and their chunks stay. */
  lemma ReadyFrame(db: Tables, after: Tables)
    requires ReadyAreIndexed(db.versions, db.sources, db.chunks)
    requires forall u :: u in after.versions && after.versions[u].status == Ready ==>
      && u in db.versions && db.versions[u] == after.versions[u]
      && SameSources(db.sources, after.sources, u) && SameChunks(db.chunks, after.chunks, u)
    ensures ReadyAreIndexed(after.versions, after.sources, after.chunks)
  {
    hide IndexedExactly, SameSources, SameChunks;
    forall u | u in after.versions && after.versions[u].status == Ready
      ensures CanActivate(after.versions[u])
      ensures IndexedExactly(after.sources, after.chunks, after.versions[u].persona, u)
    {
      IndexFrame(db.sources, db.chunks, after.sources, after.chunks, db.versions[u].persona, u);
    }
  }

  lemma SameIsSame(db: Tables, after: Tables)
    requires after.sources == db.sources && after.chunks == db.chunks
    ensures forall v :: SameSources(db.sources, after.sources, v) && SameChunks(db.chunks, after.chunks, v)
  {
  }
}
