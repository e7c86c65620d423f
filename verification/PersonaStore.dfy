/** The PostgresPersonaStore of repository.py with the index runner of indexing/runner.py and indexing/store.py: the tables
    are its fields, and every method is proved to do exactly what the transaction functions of Materials say. */
module PersonaStores {
  import opened Basics
  import opened Text
  import opened Chunker
  import opened Materials
  import R = Runs
  import H = MaterialHistory

  /** A step of the run leaves its job for it to go on with. */
  lemma OwnStep(w: R.World, after: Tables, e: R.MaterialEvent, others: seq<R.Event>, j: Uuid)
    requires R.Inv(w) && after == R.MaterialStep(w.material, e) && j in after.jobs && H.NoneActs(others, j)
    ensures var next := H.Then(w, e, others);
      R.Inv(next) && j in next.material.jobs && next.material.jobs[j] == after.jobs[j]
  {
    hide R.Inv, R.MaterialStep, H.NoneActs;
    R.StepKeepsInv(w, R.OnMaterial(e));
    H.OthersLeaveJob(R.Step(w, R.OnMaterial(e)), others, j);
    R.PlayedKeepsInv(R.Step(w, R.OnMaterial(e)), others);
  }

  /** The events of a run are its transactions. */
  lemma RunSteps(db: Tables, j: Uuid, rows: seq<SourceRow>, embedded: bool)
    ensures R.MaterialStep(db, R.BuildJob(j, rows, embedded)) == BuildJob(db, j, rows, embedded)
    ensures R.MaterialStep(db, R.CommitJob(j)) == CommitJob(db, j)
    ensures R.MaterialStep(db, R.FailJob(j)) == FailJob(db, j)
    ensures R.MaterialStep(db, R.ReleaseJob(j)) == ReleaseJob(db, j)
  {
    hide BuildJob, CommitJob, FailJob, ReleaseJob;
  }

  class PersonaStore {
    var users: set<Subject>
    var personas: map<Uuid, Persona>
    var versions: map<Uuid, Version>
    var sources: map<Uuid, Source>
    var chunks: map<ChunkId, ChunkRow>
    var records: map<RecordId, Record>
    var jobs: map<Uuid, Job>
    var drawn: set<Uuid>

    constructor ()
      ensures View() == EMPTY
    {
      users, personas, versions, sources := {}, map[], map[], map[];
      chunks, records, jobs, drawn := map[], map[], map[], {};
    }

    /** The tables as a value. */
    function View(): Tables
      reads this
    {
      Tables(users, personas, versions, sources, chunks, records, jobs, drawn)
    }

    // -------------------------------------------------------------- personas

    method CreatePersona(owner: Subject, name: string, key: Uuid, newPersona: Uuid, lockKey: int) returns (reply: Reply)
      modifies this
      ensures (View(), reply) == Materials.CreatePersona(old(View()), owner, name, key, newPersona, lockKey)
    {
      var id := RecordId(owner, CreatePersonaOp, None, key);
      if id in records {
        var record := records[id];
        if record.fingerprint != OfName(name) {
          return IdempotencyConflict;
        }
        if record.persona !in personas || personas[record.persona].deleted {
          return PersonaNotFound;
        }
        users := users + {owner};
        return Done(record.persona);
      }
      var mine := PersonasOf(personas, owner);
      if |mine| >= MAX_PERSONAS_PER_USER {
        return PersonaLimitExceeded;
      }
      if exists p :: p in mine && personas[p].name == name {
        return DuplicatePersonaName;
      }
      if newPersona in drawn {
        return UuidRepeated;
      }
      users := users + {owner};
      personas := personas[newPersona := Persona(owner, name, lockKey, None, None, false)];
      records := records[id := Record(OfName(name), newPersona, None)];
      drawn := drawn + {newPersona};
      return Done(newPersona);
    }

    // -------------------------------------------------------------- drafts

    /** `rows` is what the SELECT over the base version's sources returns, `ids` what uuid4 returns for their copies. */
    method CreateDraft(
      owner: Subject, p: Uuid, input: DraftInput, key: Uuid, newVersion: Uuid, rows: seq<SourceRow>, ids: seq<Uuid>)
      returns (reply: Reply)
      requires |ids| == |rows| && CopiedRows(View(), input, rows)
      modifies this
      ensures (View(), reply) == Materials.CreateDraft(old(View()), owner, p, input, key, newVersion, rows, ids)
    {
      hide CopiedRows, CopySources;
      var id := RecordId(owner, CreateDraftOp, Some(p), key);
      if !LivePersona(View(), owner, p) {
        return PersonaNotFound;
      }
      if id in records {
        var record := records[id];
        if record.fingerprint != OfInput(input) {
          return IdempotencyConflict;
        }
        if record.version.None? || record.version.value !in versions {
          return DraftNotFound;
        }
        return Done(record.version.value);
      }
      if personas[p].draft.Some? {
        return DraftAlreadyExists;
      }
      if input.FromBase? && (personas[p].active != Some(input.base) || input.base !in versions) {
        return BaseVersionNotFound;
      }
      if input.FromSettings? && |input.settings.profile| > MAX_PROFILE_CHARS {
        return Invalid("settings_too_large");
      }
      if !Fresh([newVersion] + ids, drawn) {
        return UuidRepeated;
      }
      var version := match input
        case FromSettings(settings) => NewVersion(p, settings, None)
        case FromBase(base) => NewVersion(p, versions[base].settings, Some(base));
      versions := versions[newVersion := version];
      CopyVersion(newVersion, rows, ids);
      personas := personas[p := personas[p].(draft := Some(newVersion))];
      records := records[id := Record(OfInput(input), p, Some(newVersion))];
      drawn := drawn + {newVersion} + (set i | i in ids);
      return Done(newVersion);
    }

    /** The rows again, under new identifiers: the base version keeps its own. */
    method CopyVersion(newVersion: Uuid, rows: seq<SourceRow>, ids: seq<Uuid>)
      requires |ids| == |rows|
      modifies this`sources
      ensures sources == CopySources(old(sources), newVersion, rows, ids)
    {
      assert rows[0..] == rows && ids[0..] == ids;
      for i := 0 to |rows|
        invariant CopySources(sources, newVersion, rows[i..], ids[i..]) == CopySources(old(sources), newVersion, rows, ids)
      {
        assert rows[i..][0] == rows[i] && rows[i..][1..] == rows[i + 1..];
        assert ids[i..][0] == ids[i] && ids[i..][1..] == ids[i + 1..];
        sources := sources[ids[i] := Source(newVersion, rows[i].kind, rows[i].content)];
      }
    }

    /** _apply_settings: the settings to store, or the code of the refusal. */
    method ApplySettings(current: Settings, patch: Option<SettingsPatch>, upserts: seq<Upsert>)
      returns (r: Result<Settings, string>)
      ensures r == PatchedSettings(current, patch, upserts)
    {
      if patch.None? {
        return Ok(current);
      }
      var settings := patch.value;
      if settings.profile.Some? && exists i :: 0 <= i < |upserts| && upserts[i].kind == "profile" {
        return Err("conflicting_fields");
      }
      if settings.speechExamples.Some? && exists i :: 0 <= i < |upserts| && upserts[i].kind == "speech_examples" {
        return Err("conflicting_fields");
      }
      var profile := Or(settings.profile, current.profile);
      if Strip(profile) == "" {
        return Err("invalid_settings");
      }
      var name := Or(settings.name, current.name);
      if Strip(name) == "" {
        return Err("invalid_settings");
      }
      return Ok(Settings(name, profile, Or(settings.speechExamples, current.speechExamples)));
    }

    /** The identifiers of the request are checked before anything is written. */
    method CheckTargets(known: set<Uuid>, upserts: seq<Upsert>, removes: seq<Uuid>) returns (conflict: Option<string>)
      ensures conflict == SourceConflict(known, upserts, removes)
    {
      if exists r :: r in removes && r !in known {
        return Some("unknown_source");
      }
      assert upserts[0..] == upserts;
      for i := 0 to |upserts|
        invariant UpsertConflict(known, upserts[i..], removes) == UpsertConflict(known, upserts, removes)
      {
        assert upserts[i..][0] == upserts[i] && upserts[i..][1..] == upserts[i + 1..];
        var item := upserts[i];
        if item.id.Some? {
          if item.id.value !in known {
            return Some("unknown_source");
          }
          if item.id.value in removes {
            return Some("conflicting_fields");
          }
        }
      }
      return None;
    }

    /** The DELETE loop: the chunks of a source go before the source. */
    method RemoveSources(v: Uuid, removes: seq<Uuid>)
      modifies this`sources, this`chunks
      ensures sources == WithoutSources(old(sources), v, removes)
      ensures chunks == WithoutChunksOf(old(chunks), v, removes)
    {
      for i := 0 to |removes|
        invariant sources == WithoutSources(old(sources), v, removes[..i])
        invariant chunks == WithoutChunksOf(old(chunks), v, removes[..i])
      {
        var source := removes[i];
        assert removes[..i + 1] == removes[..i] + [source];
        chunks := map c | c in chunks && !(c.version == v && c.source == source) :: chunks[c];
        sources := map s | s in sources && !(sources[s].version == v && s == source) :: sources[s];
      }
      assert removes[..|removes|] == removes;
    }

    /** The INSERT ... ON CONFLICT loop; an error leaves rows behind that the caller rolls back. */
    method UpsertSources(v: Uuid, upserts: seq<Upsert>) returns (error: Option<string>)
      modifies this`sources
      ensures Upserted(old(sources), v, upserts)
        == if error.Some? then Err(error.value) else Ok(sources)
    {
      assert upserts[0..] == upserts;
      for i := 0 to |upserts|
        invariant Upserted(sources, v, upserts[i..]) == Upserted(old(sources), v, upserts)
      {
        assert upserts[i..][0] == upserts[i] && upserts[i..][1..] == upserts[i + 1..];
        var item := upserts[i];
        if item.kind !in DRAFT_KINDS {
          return Some("invalid_source_kind");
        }
        if Strip(item.content) == "" {
          return Some("invalid_source");
        }
        var s := if item.id.Some? then item.id.value else item.newId;
        var home := if s in sources then sources[s].version else v;
        sources := sources[s := Source(home, item.kind, item.content)];
      }
      return None;
    }

    /** The lengths are those of the rows as stored, so that several sources cannot get round them together. */
    method GuardDraftLimits(profile: string, rows: seq<SourceRow>) returns (ok: bool)
      ensures ok <==> WithinLimits(profile, rows)
    {
      hide ShortLines;
      if |profile| > MAX_PROFILE_CHARS {
        return false;
      }
      var events := CharsOf(rows, "events");
      var relationships := CharsOf(rows, "relationships");
      var abilities := CharsOf(rows, "abilities");
      if events > MAX_BODY_KIND_CHARS || relationships > MAX_BODY_KIND_CHARS || abilities > MAX_BODY_KIND_CHARS {
        return false;
      }
      for i := 0 to |rows|
        invariant forall k :: 0 <= k < i && rows[k].kind == "speech_examples" ==> ShortLines(rows[k].content)
      {
        if rows[i].kind == "speech_examples" {
          var short := LinesAreShort(rows[i].content);
          if !short {
            return false;
          }
        }
      }
      var speech := CharsOf(rows, "speech_examples");
      if speech > MAX_SPEECH_CHARS {
        return false;
      }
      var total := 0;
      assert rows[0..] == rows;
      for i := 0 to |rows|
        invariant total + TotalChars(rows[i..]) == TotalChars(rows)
      {
        assert rows[i..][0] == rows[i] && rows[i..][1..] == rows[i + 1..];
        total := total + |rows[i].content|;
      }
      return total <= MAX_DRAFT_TOTAL_CHARS;
    }

    method CharsOf(rows: seq<SourceRow>, kind: string) returns (chars: nat)
      ensures chars == KindChars(rows, kind)
    {
      chars := 0;
      assert rows[0..] == rows;
      for i := 0 to |rows|
        invariant chars + KindChars(rows[i..], kind) == KindChars(rows, kind)
      {
        assert rows[i..][0] == rows[i] && rows[i..][1..] == rows[i + 1..];
        if rows[i].kind == kind {
          chars := chars + |rows[i].content|;
        }
      }
    }

    /** for line in content.split("\n") */
    method LinesAreShort(text: string) returns (ok: bool)
      ensures ok <==> ShortLines(text)
    {
      var start := 0;
      for i := 0 to |text|
        invariant start <= i && i - start <= MAX_SPEECH_LINE_CHARS && WithinLine(text, start, i)
        invariant start > 0 ==> text[start - 1] == '\n'
        invariant forall a, b :: 0 <= a <= b <= i && WithinLine(text, a, b) ==> b - a <= MAX_SPEECH_LINE_CHARS
      {
        if text[i] == '\n' {
          start := i + 1;
        } else if i + 1 - start > MAX_SPEECH_LINE_CHARS {
          assert WithinLine(text, start, i + 1);
          return false;
        }
      }
      return true;
    }

    method PatchDraft(
      owner: Subject, p: Uuid, expectedRevision: nat, settings: Option<SettingsPatch>, upserts: seq<Upsert>,
      removes: seq<Uuid>, stored: seq<SourceRow>) returns (reply: Reply)
      requires ReadsBack(View(), owner, p, upserts, removes, stored)
      modifies this
      ensures (View(), reply)
        == Materials.PatchDraft(old(View()), owner, p, expectedRevision, settings, upserts, removes, stored)
    {
      hide Upserted, UpsertConflict, PatchedSettings, WithoutSources, WithoutChunksOf, SourceConflict, ListsAll, WithinLimits;
      hide Fresh, Drawn, SourcesOf;
      var draft := DraftOf(View(), owner, p);
      if draft.Err? {
        return draft.error;
      }
      var v := draft.value;
      if v !in versions {
        return DraftNotFound;
      }
      if versions[v].revision != expectedRevision {
        return RevisionConflict;
      }
      var patched := ApplySettings(versions[v].settings, settings, upserts);
      if patched.Err? {
        return Invalid(patched.error);
      }
      var conflict := CheckTargets(SourcesOf(sources, v), upserts, removes);
      if conflict.Some? {
        return Invalid(conflict.value);
      }
      var oldSources, oldChunks := sources, chunks;
      RemoveSources(v, removes);
      var error := UpsertSources(v, upserts);
      if error.Some? {
        sources, chunks := oldSources, oldChunks;
        return Invalid(error.value);
      }
      if !Fresh(Drawn(upserts), drawn) {
        sources, chunks := oldSources, oldChunks;
        return UuidRepeated;
      }
      var fits := GuardDraftLimits(patched.value.profile, stored);
      if !fits {
        sources, chunks := oldSources, oldChunks;
        return Invalid("settings_too_large");
      }
      versions := versions[v := versions[v].(
        settings := patched.value, revision := versions[v].revision + 1, status := Editing)];
      drawn := drawn + (set i | i in Drawn(upserts));
      return Done(v);
    }

    method ActivateDraft(owner: Subject, p: Uuid, expectedRevision: nat) returns (reply: Reply)
      modifies this`personas
      ensures (View(), reply) == Materials.ActivateDraft(old(View()), owner, p, expectedRevision)
    {
      var draft := DraftOf(View(), owner, p);
      if draft.Err? {
        return draft.error;
      }
      var v := draft.value;
      if v !in versions {
        return DraftNotFound;
      }
      if versions[v].revision != expectedRevision {
        return RevisionConflict;
      }
      if !(versions[v].status == Ready && versions[v].indexedRevision == Some(versions[v].revision)) {
        return NotActivatable;
      }
      personas := personas[p := personas[p].(active := Some(v), draft := None)];
      return Done(v);
    }

    method DiscardDraft(owner: Subject, p: Uuid, key: Uuid) returns (reply: Reply)
      modifies this
      ensures (View(), reply) == Materials.DiscardDraft(old(View()), owner, p, key)
    {
      var id := RecordId(owner, DiscardDraftOp, Some(p), key);
      if !LivePersona(View(), owner, p) {
        return PersonaNotFound;
      }
      if id in records {
        return Done(p);
      }
      var draft := DraftOf(View(), owner, p);
      if draft.Err? {
        return draft.error;
      }
      var v := draft.value;
      personas := personas[p := personas[p].(draft := None)];
      chunks := ChunksOutside(chunks, v);
      sources := SourcesOutside(sources, {v});
      versions := versions - {v};
      records := records[id := Record(OfDiscard, p, None)];
      return Done(p);
    }

    // -------------------------------------------------------------- index runs

    method StartIndexing(owner: Subject, p: Uuid, expectedRevision: nat, newJob: Uuid) returns (reply: Reply)
      modifies this`versions, this`jobs, this`drawn
      ensures (View(), reply) == Materials.StartIndexing(old(View()), owner, p, expectedRevision, newJob)
    {
      var draft := DraftOf(View(), owner, p);
      if draft.Err? {
        return draft.error;
      }
      var v := draft.value;
      if LockHeld(View(), personas[p].lockKey) {
        return IndexingInProgress;
      }
      if v !in versions {
        return DraftNotFound;
      }
      if versions[v].status == Processing {
        return IndexingInProgress;
      }
      if versions[v].revision != expectedRevision {
        return RevisionConflict;
      }
      if !exists s :: s in sources && sources[s].version == v && sources[s].kind in CHUNKABLE_KINDS {
        return NoSourcesToIndex;
      }
      if newJob in drawn {
        return UuidRepeated;
      }
      var revision := versions[v].revision;
      versions := versions[v := versions[v].(status := Processing)];
      jobs := jobs[newJob := Job(p, v, revision, Claimed)];
      drawn := drawn + {newJob};
      return Done(newJob);
    }

    /** _build_records up to the embedding call, on the rows that _load_sources returned. */
    method ChunkSources(rows: seq<SourceRow>) returns (r: Result<seq<ChunkRecord>, string>)
      ensures r == BuildRecords(rows)
    {
      hide ChunkMaterial;
      var pending: seq<ChunkRecord> := [];
      assert rows[0..] == rows;
      AppendNothing(Pending(rows));
      for i := 0 to |rows|
        invariant Appended(pending, Pending(rows[i..])) == Pending(rows)
      {
        assert rows[i..][0] == rows[i] && rows[i..][1..] == rows[i + 1..];
        var made := RunChunkMaterial(rows[i].content, rows[i].kind);
        if made.None? {
          return Err("indexing_failed");
        }
        if made.value == [] {
          return Err("chunking_produced_nothing");
        }
        AppendTwice(pending, RecordsOf(rows[i].id, made.value), Pending(rows[i + 1..]));
        pending := pending + RecordsOf(rows[i].id, made.value);
      }
      assert Pending(rows) == Ok(pending + []) && pending + [] == pending;
      if pending == [] {
        return Err("no_content");
      }
      return Ok(pending);
    }

    /** The first transaction of a run and the embedding call. */
    method LoadAndBuild(j: Uuid, rows: seq<SourceRow>, embedded: bool)
      requires j in jobs && jobs[j].phase.Claimed? && Lists(sources, jobs[j].version, CHUNKABLE_KINDS, rows)
      modifies this`jobs
      ensures View() == BuildJob(old(View()), j, rows, embedded)
      ensures j in jobs && (jobs[j].phase.Built? || jobs[j].phase.Doomed?)
    {
      hide Lists, BuildRecords;
      var built := ChunkSources(rows);
      if built.Err? {
        jobs := jobs[j := jobs[j].(phase := Doomed(built.error))];
        return;
      }
      if !embedded {
        jobs := jobs[j := jobs[j].(phase := Doomed("embedding_unavailable"))];
        return;
      }
      jobs := jobs[j := jobs[j].(phase := Built(rows, built.value))];
    }

    /** replace_chunks: DELETE, then INSERT row by row; false stands for the error of a refused row. */
    method ReplaceChunks(p: Uuid, v: Uuid, pending: seq<ChunkRecord>) returns (ok: bool)
      modifies this`chunks
      ensures Materials.ReplaceChunks(old(View()), p, v, pending) == if ok then Some(chunks) else None
    {
      chunks := ChunksOutside(chunks, v);
      ghost var cleared := chunks;
      assert pending[0..] == pending;
      for i := 0 to |pending|
        invariant InsertChunks(chunks, sources.Keys, p, v, pending[i..])
          == InsertChunks(cleared, sources.Keys, p, v, pending)
      {
        assert pending[i..][0] == pending[i] && pending[i..][1..] == pending[i + 1..];
        var key := KeyOf(v, pending[i]);
        if key in chunks || pending[i].source !in sources {
          return false;
        }
        chunks := chunks[key := RowOf(p, pending[i])];
      }
      return true;
    }

    /** _mark_ready_in */
    method MarkReady(v: Uuid, revision: nat)
      modifies this`versions
      ensures versions == if v in old(versions)
        then old(versions)[v := MarkedReady(old(versions)[v], revision)] else old(versions)
    {
      if v in versions {
        var row := versions[v];
        var status := if row.revision == revision then Ready else row.status;
        versions := versions[v := row.(status := status, indexedRevision := Some(revision), errorCode := None)];
      }
    }

    /** The transaction that replaces the chunks and marks the version together, or neither. */
    method Commit(j: Uuid)
      modifies this
      ensures View() == CommitJob(old(View()), j)
      ensures j in old(jobs) ==> j in jobs
      ensures j in old(jobs) && (old(jobs[j].phase).Built? || old(jobs[j].phase).Doomed?) ==>
        jobs[j].phase.Doomed? || jobs[j].phase.Settled?
    {
      hide InsertChunks;
      if j !in jobs || !jobs[j].phase.Built? {
        return;
      }
      var job := jobs[j];
      var rollback := chunks;
      var ok := ReplaceChunks(job.persona, job.version, job.phase.records);
      if !ok {
        chunks := rollback;
        jobs := jobs[j := job.(phase := Doomed("indexing_failed"))];
        return;
      }
      MarkReady(job.version, job.revision);
      jobs := jobs[j := job.(phase := Settled)];
    }

    /** _mark_failed */
    method MarkFailed(j: Uuid)
      modifies this
      ensures View() == FailJob(old(View()), j)
      ensures j in old(jobs) ==> j in jobs
      ensures j in old(jobs) && (old(jobs[j].phase).Doomed? || old(jobs[j].phase).Settled?) ==> jobs[j].phase.Settled?
    {
      if j !in jobs || !jobs[j].phase.Doomed? {
        return;
      }
      var job := jobs[j];
      if job.version in versions && versions[job.version].revision == job.revision {
        versions := versions[job.version :=
          versions[job.version].(status := IndexFailed, errorCode := Some(job.phase.errorCode))];
      }
      jobs := jobs[j := job.(phase := Settled)];
    }

    /** What the others have committed since this process last looked. */
    method SeeOthers(tables: Tables, ghost w: R.World, ghost e: R.MaterialEvent, ghost others: seq<R.Event>)
      requires View() == R.MaterialStep(w.material, e) && tables == H.Then(w, e, others).material
      modifies this
      ensures View() == H.Then(w, e, others).material
    {
      users, personas, versions, sources := tables.users, tables.personas, tables.versions, tables.sources;
      chunks, records, jobs, drawn := tables.chunks, tables.records, tables.jobs, tables.drawn;
    }

    /** run_indexing: build, commit, mark a failure if there was one, and give the lock back in every case. Between any
        two of them the others commit what they like; `loaded`, `replaced` and `marked` are the tables that leaves. */
    method RunIndexing(
      j: Uuid, rows: seq<SourceRow>, embedded: bool, loaded: Tables, replaced: Tables, marked: Tables,
      ghost w: R.World, ghost others: seq<seq<R.Event>>)
      requires R.Inv(w) && w.material == View() && |others| == 3
      requires forall i :: 0 <= i < 3 ==> H.NoneActs(others[i], j)
      requires j in jobs && jobs[j].phase.Claimed? && Lists(sources, jobs[j].version, CHUNKABLE_KINDS, rows)
      requires var built := H.Then(w, R.BuildJob(j, rows, embedded), others[0]);
        var committed := H.Then(built, R.CommitJob(j), others[1]);
        && loaded == built.material && replaced == committed.material
        && marked == H.Then(committed, R.FailJob(j), others[2]).material
      modifies this
      ensures View() == R.MaterialStep(marked, R.ReleaseJob(j))
      ensures j in marked.jobs && j !in jobs
    {
      hide BuildJob, CommitJob, FailJob, Lists, R.Inv, H.NoneActs, R.MaterialStep, H.Then;
      RunSteps(w.material, j, rows, embedded);
      RunSteps(loaded, j, rows, embedded);
      RunSteps(replaced, j, rows, embedded);
      RunSteps(marked, j, rows, embedded);
      ghost var built := H.Then(w, R.BuildJob(j, rows, embedded), others[0]);
      ghost var committed := H.Then(built, R.CommitJob(j), others[1]);
      LoadAndBuild(j, rows, embedded);
      OwnStep(w, View(), R.BuildJob(j, rows, embedded), others[0], j);
      SeeOthers(loaded, w, R.BuildJob(j, rows, embedded), others[0]);
      Commit(j);
      OwnStep(built, View(), R.CommitJob(j), others[1], j);
      SeeOthers(replaced, built, R.CommitJob(j), others[1]);
      MarkFailed(j);
      OwnStep(committed, View(), R.FailJob(j), others[2], j);
      SeeOthers(marked, committed, R.FailJob(j), others[2]);
      jobs := jobs - {j};
    }


    method Restart()
      modifies this`versions
      ensures View() == Materials.Restart(old(View()))
    {
      versions := map v | v in versions ::
        if versions[v].status == Processing
        then versions[v].(status := IndexFailed, errorCode := Some("interrupted")) else versions[v];
    }

    // -------------------------------------------------------------- deleting a persona

    /** The checks of _reject_if_busy on the persona tables. */
    method MaterialIsBusy(p: Uuid) returns (busy: bool)
      requires p in personas
      ensures busy <==> MaterialBusy(View(), p)
    {
      if LockHeld(View(), personas[p].lockKey) {
        return true;
      }
      busy := exists v :: v in versions && versions[v].persona == p && versions[v].status == Processing;
    }

    /** _delete_material_records and the tombstone: pointers, chunks, sources, versions, records, in this order. */
    method DeleteMaterialRecords(owner: Subject, p: Uuid, key: Uuid)
      requires p in personas
      modifies this
      ensures View() == DeleteMaterial(old(View()), owner, p, key)
    {
      personas := personas[p := personas[p].(active := None, draft := None)];
      chunks := ChunksOfOthers(chunks, p);
      var gone := set v | v in versions && versions[v].persona == p;
      sources := SourcesOutside(sources, gone);
      versions := versions - gone;
      records := RecordsKept(records, p);
      personas := personas[p := personas[p].(deleted := true, name := "")];
      records := records[RecordId(owner, DeletePersonaOp, Some(p), key) := Record(OfDelete, p, None)];
    }
  }

  /** More records behind those collected so far. */
  function Appended(pending: seq<ChunkRecord>, more: Result<seq<ChunkRecord>, string>): Result<seq<ChunkRecord>, string> {
    match more
    case Err(code) => Err(code)
    case Ok(records) => Ok(pending + records)
  }

  lemma AppendNothing(more: Result<seq<ChunkRecord>, string>)
    ensures Appended([], more) == more
  {
    if more.Ok? {
      assert [] + more.value == more.value;
    }
  }

  lemma AppendTwice(
    pending: seq<ChunkRecord>, next: seq<ChunkRecord>, more: Result<seq<ChunkRecord>, string>)
    ensures Appended(pending + next, more) == Appended(pending, Appended(next, more))
  {
    if more.Ok? {
      Assoc(pending, next, more.value);
    }
  }
}
