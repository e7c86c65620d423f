/** The persona and material tables and the transactions of repository.py and indexing/runner.py on them, each as one
    function. An index run is a job: it spans several transactions and holds its persona's advisory lock throughout. */
module Materials {
  import opened Basics
  import opened Text
  import opened Chunker

  const MAX_PERSONAS_PER_USER: nat := 3
  const MAX_PROFILE_CHARS: nat := 1500
  const MAX_BODY_KIND_CHARS: nat := 200_000
  const MAX_SPEECH_CHARS: nat := 100_000
  const MAX_SPEECH_LINE_CHARS: nat := 500
  const MAX_DRAFT_TOTAL_CHARS: nat := 500_000
  const DRAFT_KINDS: seq<string> := ["profile", "events", "relationships", "abilities", "speech_examples"]

  datatype Persona = Persona(
    owner: Subject, name: string, lockKey: int, active: Option<Uuid>, draft: Option<Uuid>, deleted: bool)

  datatype Settings = Settings(name: string, profile: string, speechExamples: string)

  datatype VersionStatus = Editing | Processing | Ready | IndexFailed

  datatype Version = Version(
    persona: Uuid, revision: nat, status: VersionStatus, base: Option<Uuid>, settings: Settings,
    indexedRevision: Option<nat>, errorCode: Option<string>)

  datatype Source = Source(version: Uuid, kind: string, content: string)

  /** The UNIQUE key of material_chunks. */
  datatype ChunkId = ChunkId(version: Uuid, kind: string, source: Uuid, ordinal: nat)

  datatype ChunkRow = ChunkRow(persona: Uuid, headingPath: seq<string>, content: string, charCount: nat)

  datatype Operation = CreatePersonaOp | CreateDraftOp | DiscardDraftOp | DeletePersonaOp

  datatype RecordId = RecordId(owner: Subject, operation: Operation, scope: Option<Uuid>, key: Uuid)

  /** The hashed request fields. */
  datatype Fingerprint = OfName(name: string) | OfInput(input: DraftInput) | OfDiscard | OfDelete

  datatype Record = Record(fingerprint: Fingerprint, persona: Uuid, version: Option<Uuid>)

  /** The oneOf of POST /draft. */
  datatype DraftInput = FromSettings(settings: Settings) | FromBase(base: Uuid)

  /** A row of the SELECT over material_sources. */
  datatype SourceRow = SourceRow(id: Uuid, kind: string, content: string)

  datatype ChunkRecord = ChunkRecord(source: Uuid, chunk: Chunk)

  /** Where an index run is: it holds the lock in every phase. */
  datatype Phase =
    | Claimed
    | Built(rows: seq<SourceRow>, records: seq<ChunkRecord>)
    | Doomed(errorCode: string)
    | Settled

  datatype Job = Job(persona: Uuid, version: Uuid, revision: nat, phase: Phase)

  /** `drawn` is every identifier uuid4 has returned so far, here and in the chat tables. */
  datatype Tables = Tables(
    users: set<Subject>,
    personas: map<Uuid, Persona>,
    versions: map<Uuid, Version>,
    sources: map<Uuid, Source>,
    chunks: map<ChunkId, ChunkRow>,
    records: map<RecordId, Record>,
    jobs: map<Uuid, Job>,
    drawn: set<Uuid>)

  const EMPTY: Tables := Tables({}, map[], map[], map[], map[], map[], map[], {})

  datatype Reply =
    | Done(id: Uuid)
    | PersonaNotFound
    | PersonaLimitExceeded
    | DuplicatePersonaName
    | PersonaBusy
    | DraftNotFound
    | DraftNotStarted
    | DraftAlreadyExists
    | BaseVersionNotFound
    | RevisionConflict
    | IndexingInProgress
    | NoSourcesToIndex
    | NotActivatable
    | Invalid(code: string)
    | IdempotencyConflict
    | UuidRepeated
    // the rows given are not what the SELECT returns: there is no such step
    | OtherRows

  // ---------------------------------------------------------------- looking things up

  predicate LivePersona(db: Tables, owner: Subject, p: Uuid) {
    p in db.personas && db.personas[p].owner == owner && !db.personas[p].deleted
  }

  /** _lock_persona then _draft_version_of: the draft slot, or why there is none. */
  function DraftOf(db: Tables, owner: Subject, p: Uuid): Result<Uuid, Reply> {
    if !LivePersona(db, owner, p) then Err(PersonaNotFound)
    else if db.personas[p].draft.Some? then Ok(db.personas[p].draft.value)
    else if db.personas[p].active.Some? then Err(DraftNotStarted)
    else Err(DraftNotFound)
  }

  /** Some session holds the advisory lock of this key. */
  predicate LockHeld(db: Tables, lockKey: int) {
    exists j :: j in db.jobs && db.jobs[j].persona in db.personas
      && db.personas[db.jobs[j].persona].lockKey == lockKey
  }

  /** The rows list the sources of a version whose kind is wanted, each once. */
  ghost predicate Lists(sources: map<Uuid, Source>, v: Uuid, kinds: seq<string>, rows: seq<SourceRow>) {
    && (forall i, j :: 0 <= i < j < |rows| ==> rows[i].id != rows[j].id)
    && (forall i :: 0 <= i < |rows| ==>
          rows[i].id in sources && rows[i].kind in kinds
          && sources[rows[i].id] == Source(v, rows[i].kind, rows[i].content))
    && (forall s :: s in sources && sources[s].version == v && sources[s].kind in kinds ==>
          exists i :: 0 <= i < |rows| && rows[i].id == s)
  }

  /** The rows list all sources of a version, whatever their kind. */
  ghost predicate ListsAll(sources: map<Uuid, Source>, v: Uuid, rows: seq<SourceRow>) {
    exists kinds :: CoversKinds(sources, v, kinds) && Lists(sources, v, kinds, rows)
  }

  predicate CoversKinds(sources: map<Uuid, Source>, v: Uuid, kinds: seq<string>) {
    forall s :: s in sources && sources[s].version == v ==> sources[s].kind in kinds
  }

  // ---------------------------------------------------------------- personas

  /** The user's personas, those that are deleted not among them. */
  function PersonasOf(personas: map<Uuid, Persona>, owner: Subject): set<Uuid> {
    set p | p in personas && personas[p].owner == owner && !personas[p].deleted
  }

  function CreatePersona(
    db: Tables, owner: Subject, name: string, key: Uuid, newPersona: Uuid, lockKey: int): (Tables, Reply)
  {
    var id := RecordId(owner, CreatePersonaOp, None, key);
    var mine := PersonasOf(db.personas, owner);
    if id in db.records then
      var record := db.records[id];
      if record.fingerprint != OfName(name) then (db, IdempotencyConflict)
      else if record.persona !in db.personas || db.personas[record.persona].deleted then (db, PersonaNotFound)
      else (db.(users := db.users + {owner}), Done(record.persona))
    else if |mine| >= MAX_PERSONAS_PER_USER then (db, PersonaLimitExceeded)
    else if exists p :: p in mine && db.personas[p].name == name then (db, DuplicatePersonaName)
    else if newPersona in db.drawn then (db, UuidRepeated)
    else
      (db.(
        users := db.users + {owner},
        personas := db.personas[newPersona := Persona(owner, name, lockKey, None, None, false)],
        records := db.records[id := Record(OfName(name), newPersona, None)],
        drawn := db.drawn + {newPersona}),
      Done(newPersona))
  }

  // ---------------------------------------------------------------- drafts

  function NewVersion(p: Uuid, settings: Settings, base: Option<Uuid>): Version {
    Version(p, 1, Editing, base, settings, None, None)
  }

  /** The INSERT loop of _copy_version: the rows again, under new identifiers. */
  function CopySources(sources: map<Uuid, Source>, v: Uuid, rows: seq<SourceRow>, ids: seq<Uuid>): map<Uuid, Source>
    requires |ids| == |rows|
    decreases |rows|
  {
    if rows == [] then sources
    else CopySources(sources[ids[0] := Source(v, rows[0].kind, rows[0].content)], v, rows[1..], ids[1..])
  }

  predicate Distinct(ids: seq<Uuid>) {
    forall i, j :: 0 <= i < j < |ids| ==> ids[i] != ids[j]
  }

  predicate Fresh(ids: seq<Uuid>, drawn: set<Uuid>) {
    Distinct(ids) && forall i :: 0 <= i < |ids| ==> ids[i] !in drawn
  }

  /** The rows to copy: all sources of the base version, or none. */
  ghost predicate CopiedRows(db: Tables, input: DraftInput, rows: seq<SourceRow>) {
    match input
    case FromSettings(_) => rows == []
    case FromBase(base) => ListsAll(db.sources, base, rows)
  }

  /** create_draft. `rows` are the base version's sources as selected, `ids` the identifiers drawn for their copies. */
  ghost function CreateDraft(
    db: Tables, owner: Subject, p: Uuid, input: DraftInput, key: Uuid, newVersion: Uuid,
    rows: seq<SourceRow>, ids: seq<Uuid>): (Tables, Reply)
  {
    var id := RecordId(owner, CreateDraftOp, Some(p), key);
    if !LivePersona(db, owner, p) then (db, PersonaNotFound)
    else if id in db.records then
      if db.records[id].fingerprint != OfInput(input) then (db, IdempotencyConflict)
      else if db.records[id].version.None? || db.records[id].version.value !in db.versions then (db, DraftNotFound)
      else (db, Done(db.records[id].version.value))
    else if db.personas[p].draft.Some? then (db, DraftAlreadyExists)
    else if input.FromBase? && (db.personas[p].active != Some(input.base) || input.base !in db.versions) then
      (db, BaseVersionNotFound)
    else if input.FromSettings? && |input.settings.profile| > MAX_PROFILE_CHARS then
      (db, Invalid("settings_too_large"))
    else if |ids| != |rows| || !CopiedRows(db, input, rows) then (db, OtherRows)
    else if !Fresh([newVersion] + ids, db.drawn) then (db, UuidRepeated)
    else
      var version := match input
        case FromSettings(settings) => NewVersion(p, settings, None)
        case FromBase(base) => NewVersion(p, db.versions[base].settings, Some(base));
      (db.(
        versions := db.versions[newVersion := version],
        sources := CopySources(db.sources, newVersion, rows, ids),
        personas := db.personas[p := db.personas[p].(draft := Some(newVersion))],
        records := db.records[id := Record(OfInput(input), p, Some(newVersion))],
        drawn := db.drawn + {newVersion} + (set i | i in ids)),
      Done(newVersion))
  }

  /** The settings of a PATCH body: only the fields that are present. */
  datatype SettingsPatch = SettingsPatch(
    name: Option<string>, profile: Option<string>, speechExamples: Option<string>)

  /** One source of a PATCH body; `newId` is what uuid4 returns for it when it has no id. */
  datatype Upsert = Upsert(id: Option<Uuid>, newId: Uuid, kind: string, content: string)

  function Or<T>(value: Option<T>, default: T): T {
    match value
    case Some(v) => v
    case None => default
  }

  /** _apply_settings */
  function PatchedSettings(current: Settings, patch: Option<SettingsPatch>, upserts: seq<Upsert>)
    : Result<Settings, string>
  {
    if patch.None? then Ok(current)
    else
      var settings := patch.value;
      var touches := (kind: string) => exists i :: 0 <= i < |upserts| && upserts[i].kind == kind;
      var name, profile := Or(settings.name, current.name), Or(settings.profile, current.profile);
      if settings.profile.Some? && touches("profile") then Err("conflicting_fields")
      else if settings.speechExamples.Some? && touches("speech_examples") then Err("conflicting_fields")
      else if Strip(profile) == "" then Err("invalid_settings")
      else if Strip(name) == "" then Err("invalid_settings")
      else Ok(Settings(name, profile, Or(settings.speechExamples, current.speechExamples)))
  }

  function SourcesOf(sources: map<Uuid, Source>, v: Uuid): set<Uuid> {
    set s | s in sources && sources[s].version == v
  }

  /** The checks of _apply_sources on the identifiers of the request. */
  function SourceConflict(known: set<Uuid>, upserts: seq<Upsert>, removes: seq<Uuid>): Option<string> {
    if exists r :: r in removes && r !in known then Some("unknown_source")
    else UpsertConflict(known, upserts, removes)
  }

  function UpsertConflict(known: set<Uuid>, upserts: seq<Upsert>, removes: seq<Uuid>): Option<string> {
    if upserts == [] then None
    else if upserts[0].id.Some? && upserts[0].id.value !in known then Some("unknown_source")
    else if upserts[0].id.Some? && upserts[0].id.value in removes then Some("conflicting_fields")
    else UpsertConflict(known, upserts[1..], removes)
  }

  function WithoutSources(sources: map<Uuid, Source>, v: Uuid, removes: seq<Uuid>): map<Uuid, Source> {
    map s | s in sources && !(sources[s].version == v && s in removes) :: sources[s]
  }

  function WithoutChunksOf(chunks: map<ChunkId, ChunkRow>, v: Uuid, removes: seq<Uuid>): map<ChunkId, ChunkRow> {
    map c | c in chunks && !(c.version == v && c.source in removes) :: chunks[c]
  }

  function Target(item: Upsert): Uuid {
    Or(item.id, item.newId)
  }

  /** INSERT ... ON CONFLICT (id) DO UPDATE, which leaves version_id as it is. */
  function WithSource(sources: map<Uuid, Source>, v: Uuid, item: Upsert): map<Uuid, Source> {
    var s := Target(item);
    sources[s := Source(if s in sources then sources[s].version else v, item.kind, item.content)]
  }

  /** The upsert loop of _apply_sources. */
  function Upserted(sources: map<Uuid, Source>, v: Uuid, upserts: seq<Upsert>): Result<map<Uuid, Source>, string>
    decreases |upserts|
  {
    if upserts == [] then Ok(sources)
    else if upserts[0].kind !in DRAFT_KINDS then Err("invalid_source_kind")
    else if Strip(upserts[0].content) == "" then Err("invalid_source")
    else Upserted(WithSource(sources, v, upserts[0]), v, upserts[1..])
  }

  /** The identifiers drawn for sources without one. */
  function Drawn(upserts: seq<Upsert>): seq<Uuid> {
    if upserts == [] then []
    else (if upserts[0].id.None? then [upserts[0].newId] else []) + Drawn(upserts[1..])
  }

  /** The length of all sources of one kind together. */
  function KindChars(rows: seq<SourceRow>, kind: string): nat {
    if rows == [] then 0 else (if rows[0].kind == kind then |rows[0].content| else 0) + KindChars(rows[1..], kind)
  }

  function TotalChars(rows: seq<SourceRow>): nat {
    if rows == [] then 0 else |rows[0].content| + TotalChars(rows[1..])
  }

  /** No stretch without a line feed is longer than a line may be. */
  predicate ShortLines(text: string) {
    forall i, j :: 0 <= i <= j <= |text| && WithinLine(text, i, j) ==> j - i <= MAX_SPEECH_LINE_CHARS
  }

  predicate WithinLine(text: string, i: nat, j: nat)
    requires i <= j <= |text|
  {
    forall k :: i <= k < j ==> text[k] != '\n'
  }

  /** _guard_draft_limits: lengths count together what several sources of one kind hold. */
  predicate WithinLimits(profile: string, rows: seq<SourceRow>) {
    && |profile| <= MAX_PROFILE_CHARS
    && KindChars(rows, "events") <= MAX_BODY_KIND_CHARS
    && KindChars(rows, "relationships") <= MAX_BODY_KIND_CHARS
    && KindChars(rows, "abilities") <= MAX_BODY_KIND_CHARS
    && (forall i :: 0 <= i < |rows| && rows[i].kind == "speech_examples" ==> ShortLines(rows[i].content))
    && KindChars(rows, "speech_examples") <= MAX_SPEECH_CHARS
    && TotalChars(rows) <= MAX_DRAFT_TOTAL_CHARS
  }

  /** patch_draft. `stored` is what reading the draft's sources again after the change returns. */
  ghost function PatchDraft(
    db: Tables, owner: Subject, p: Uuid, expectedRevision: nat, settings: Option<SettingsPatch>,
    upserts: seq<Upsert>, removes: seq<Uuid>, stored: seq<SourceRow>): (Tables, Reply)
  {
    if DraftOf(db, owner, p).Err? then (db, DraftOf(db, owner, p).error)
    else
      var v := DraftOf(db, owner, p).value;
      if v !in db.versions then (db, DraftNotFound)
      else if db.versions[v].revision != expectedRevision then (db, RevisionConflict)
      else
        var patched := PatchedSettings(db.versions[v].settings, settings, upserts);
        var conflict := SourceConflict(SourcesOf(db.sources, v), upserts, removes);
        var sources := Upserted(WithoutSources(db.sources, v, removes), v, upserts);
        if patched.Err? then (db, Invalid(patched.error))
        else if conflict.Some? then (db, Invalid(conflict.value))
        else if sources.Err? then (db, Invalid(sources.error))
        else if !Fresh(Drawn(upserts), db.drawn) then (db, UuidRepeated)
        else if !ListsAll(sources.value, v, stored) then (db, OtherRows)
        else if !WithinLimits(patched.value.profile, stored) then (db, Invalid("settings_too_large"))
        else
          (db.(
            versions := db.versions[v := db.versions[v].(
              settings := patched.value, revision := db.versions[v].revision + 1, status := Editing)],
            sources := sources.value,
            chunks := WithoutChunksOf(db.chunks, v, removes),
            drawn := db.drawn + (set i | i in Drawn(upserts))),
          Done(v))
  }

  /** The sources of the draft as the request leaves them before the limits are looked at. */
  ghost predicate ReadsBack(
    db: Tables, owner: Subject, p: Uuid, upserts: seq<Upsert>, removes: seq<Uuid>, stored: seq<SourceRow>)
  {
    DraftOf(db, owner, p).Ok? ==>
      var v := DraftOf(db, owner, p).value;
      var sources := Upserted(WithoutSources(db.sources, v, removes), v, upserts);
      sources.Ok? ==> ListsAll(sources.value, v, stored)
  }

  predicate CanActivate(version: Version) {
    version.status == Ready && version.indexedRevision == Some(version.revision)
  }

  /** activate_draft */
  function ActivateDraft(db: Tables, owner: Subject, p: Uuid, expectedRevision: nat): (Tables, Reply) {
    if DraftOf(db, owner, p).Err? then (db, DraftOf(db, owner, p).error)
    else
      var v := DraftOf(db, owner, p).value;
      if v !in db.versions then (db, DraftNotFound)
      else if db.versions[v].revision != expectedRevision then (db, RevisionConflict)
      else if !CanActivate(db.versions[v]) then (db, NotActivatable)
      else (db.(personas := db.personas[p := db.personas[p].(active := Some(v), draft := None)]), Done(v))
  }

  function ChunksOutside(chunks: map<ChunkId, ChunkRow>, v: Uuid): map<ChunkId, ChunkRow> {
    map c | c in chunks && c.version != v :: chunks[c]
  }

  function SourcesOutside(sources: map<Uuid, Source>, versions: set<Uuid>): map<Uuid, Source> {
    map s | s in sources && sources[s].version !in versions :: sources[s]
  }

  /** discard_draft */
  function DiscardDraft(db: Tables, owner: Subject, p: Uuid, key: Uuid): (Tables, Reply) {
    var id := RecordId(owner, DiscardDraftOp, Some(p), key);
    if !LivePersona(db, owner, p) then (db, PersonaNotFound)
    else if id in db.records then (db, Done(p))
    else if DraftOf(db, owner, p).Err? then (db, DraftOf(db, owner, p).error)
    else
      var v := DraftOf(db, owner, p).value;
      (db.(
        personas := db.personas[p := db.personas[p].(draft := None)],
        chunks := ChunksOutside(db.chunks, v),
        sources := SourcesOutside(db.sources, {v}),
        versions := db.versions - {v},
        records := db.records[id := Record(OfDiscard, p, None)]),
      Done(p))
  }

  // ---------------------------------------------------------------- index runs

  /** start_indexing: on success a job exists, which holds the lock. */
  function StartIndexing(db: Tables, owner: Subject, p: Uuid, expectedRevision: nat, newJob: Uuid): (Tables, Reply) {
    if DraftOf(db, owner, p).Err? then (db, DraftOf(db, owner, p).error)
    else
      var v := DraftOf(db, owner, p).value;
      if LockHeld(db, db.personas[p].lockKey) then (db, IndexingInProgress)
      else if v !in db.versions then (db, DraftNotFound)
      else if db.versions[v].status == Processing then (db, IndexingInProgress)
      else if db.versions[v].revision != expectedRevision then (db, RevisionConflict)
      else if !(exists s :: s in db.sources && db.sources[s].version == v && db.sources[s].kind in CHUNKABLE_KINDS) then
        (db, NoSourcesToIndex)
      else if newJob in db.drawn then (db, UuidRepeated)
      else
        (db.(
          versions := db.versions[v := db.versions[v].(status := Processing)],
          jobs := db.jobs[newJob := Job(p, v, db.versions[v].revision, Claimed)],
          drawn := db.drawn + {newJob}),
        Done(newJob))
  }

  /** The chunk records of one source. */
  function RecordsOf(source: Uuid, chunks: seq<Chunk>): (records: seq<ChunkRecord>)
    ensures |records| == |chunks|
    ensures forall i :: 0 <= i < |chunks| ==> records[i] == ChunkRecord(source, chunks[i])
  {
    Map((chunk: Chunk) => ChunkRecord(source, chunk), chunks)
  }

  /** The loop of _build_records: a source that gives no chunk fails the run. */
  function Pending(rows: seq<SourceRow>): Result<seq<ChunkRecord>, string> {
    if rows == [] then Ok([])
    else
      match ChunkMaterial(rows[0].content, rows[0].kind)
      case None => Err("indexing_failed")
      case Some(chunks) =>
        if chunks == [] then Err("chunking_produced_nothing")
        else
          match Pending(rows[1..])
          case Err(code) => Err(code)
          case Ok(more) => Ok(RecordsOf(rows[0].id, chunks) + more)
  }

  /** _build_records, up to the embedding call. */
  function BuildRecords(rows: seq<SourceRow>): Result<seq<ChunkRecord>, string> {
    match Pending(rows)
    case Err(code) => Err(code)
    case Ok(records) => if records == [] then Err("no_content") else Ok(records)
  }

  function WithPhase(db: Tables, j: Uuid, phase: Phase): Tables
    requires j in db.jobs
  {
    db.(jobs := db.jobs[j := db.jobs[j].(phase := phase)])
  }

  /** _load_sources and _build_records: `rows` is the result of the SELECT. `embedded` says whether the embedding service
      returned one vector a chunk. */
  ghost function BuildJob(db: Tables, j: Uuid, rows: seq<SourceRow>, embedded: bool): Tables {
    if j !in db.jobs || !db.jobs[j].phase.Claimed? || !Lists(db.sources, db.jobs[j].version, CHUNKABLE_KINDS, rows) then db
    else
      match BuildRecords(rows)
      case Err(code) => WithPhase(db, j, Doomed(code))
      case Ok(records) =>
        if embedded then WithPhase(db, j, Built(rows, records)) else WithPhase(db, j, Doomed("embedding_unavailable"))
  }

  function KeyOf(v: Uuid, record: ChunkRecord): ChunkId {
    ChunkId(v, record.chunk.kind, record.source, record.chunk.ordinal)
  }

  function RowOf(p: Uuid, record: ChunkRecord): ChunkRow {
    ChunkRow(p, record.chunk.headingPath, record.chunk.content, record.chunk.charCount)
  }

  /** The INSERT loop of replace_chunks: None when the UNIQUE key or the foreign key to the sources refuses a row. */
  function InsertChunks(
    chunks: map<ChunkId, ChunkRow>, sources: set<Uuid>, p: Uuid, v: Uuid, records: seq<ChunkRecord>)
    : Option<map<ChunkId, ChunkRow>>
    decreases |records|
  {
    if records == [] then Some(chunks)
    else if KeyOf(v, records[0]) in chunks || records[0].source !in sources then None
    else InsertChunks(chunks[KeyOf(v, records[0]) := RowOf(p, records[0])], sources, p, v, records[1..])
  }

  /** replace_chunks */
  function ReplaceChunks(db: Tables, p: Uuid, v: Uuid, records: seq<ChunkRecord>): Option<map<ChunkId, ChunkRow>> {
    InsertChunks(ChunksOutside(db.chunks, v), db.sources.Keys, p, v, records)
  }

  /** _mark_ready_in: only a run of the current revision makes the version ready. */
  function MarkedReady(version: Version, revision: nat): Version {
    version.(
      status := if version.revision == revision then Ready else version.status,
      indexedRevision := Some(revision), errorCode := None)
  }

  /** The transaction that replaces the chunks and marks the version; a refused row sends the run to failure. */
  function CommitJob(db: Tables, j: Uuid): Tables {
    if j !in db.jobs || !db.jobs[j].phase.Built? then db
    else
      var job := db.jobs[j];
      match ReplaceChunks(db, job.persona, job.version, job.phase.records)
      case None => WithPhase(db, j, Doomed("indexing_failed"))
      case Some(chunks) =>
        WithPhase(db, j, Settled).(
          chunks := chunks,
          versions := if job.version in db.versions
            then db.versions[job.version := MarkedReady(db.versions[job.version], job.revision)] else db.versions)
  }

  /** Any other exception before the commit. */
  function DoomJob(db: Tables, j: Uuid): Tables {
    if j in db.jobs && (db.jobs[j].phase.Claimed? || db.jobs[j].phase.Built?) then
      WithPhase(db, j, Doomed("indexing_failed"))
    else db
  }

  /** _mark_failed */
  function FailJob(db: Tables, j: Uuid): Tables {
    if j !in db.jobs || !db.jobs[j].phase.Doomed? then db
    else
      var job := db.jobs[j];
      var current := job.version in db.versions && db.versions[job.version].revision == job.revision;
      WithPhase(db, j, Settled).(
        versions := if current
          then db.versions[job.version :=
            db.versions[job.version].(status := IndexFailed, errorCode := Some(job.phase.errorCode))]
          else db.versions)
  }

  /** Unlocking and returning the connection. */
  function ReleaseJob(db: Tables, j: Uuid): Tables {
    if j in db.jobs && db.jobs[j].phase.Settled? then db.(jobs := db.jobs - {j}) else db
  }

  /** The process or its connection dies: the server ends the session and drops the lock with it. */
  function CrashJob(db: Tables, j: Uuid): Tables {
    db.(jobs := db.jobs - {j})
  }

  /** The startup hook: whatever is processing counts as interrupted, also when its job is alive in another process. */
  function Restart(db: Tables): Tables {
    db.(versions := map v | v in db.versions ::
      if db.versions[v].status == Processing
      then db.versions[v].(status := IndexFailed, errorCode := Some("interrupted")) else db.versions[v])
  }

  // ---------------------------------------------------------------- deleting a persona

  predicate MaterialBusy(db: Tables, p: Uuid)
    requires p in db.personas
  {
    LockHeld(db, db.personas[p].lockKey)
    || exists v :: v in db.versions && db.versions[v].persona == p && db.versions[v].status == Processing
  }

  function ChunksOfOthers(chunks: map<ChunkId, ChunkRow>, p: Uuid): map<ChunkId, ChunkRow> {
    map c | c in chunks && chunks[c].persona != p :: chunks[c]
  }

  /** Only the creation and deletion of a persona are remembered beyond it. */
  function RecordsKept(records: map<RecordId, Record>, p: Uuid): map<RecordId, Record> {
    map r | r in records
      && !(records[r].persona == p && r.operation != CreatePersonaOp && r.operation != DeletePersonaOp) :: records[r]
  }

  /** _delete_material_records and the tombstone with its record. */
  function DeleteMaterial(db: Tables, owner: Subject, p: Uuid, key: Uuid): Tables
    requires p in db.personas
  {
    var versions := set v | v in db.versions && db.versions[v].persona == p;
    var id := RecordId(owner, DeletePersonaOp, Some(p), key);
    db.(
      personas := db.personas[p := db.personas[p].(active := None, draft := None, deleted := true, name := "")],
      chunks := ChunksOfOthers(db.chunks, p),
      sources := SourcesOutside(db.sources, versions),
      versions := db.versions - versions,
      records := RecordsKept(db.records, p)[id := Record(OfDelete, p, None)])
  }
}
