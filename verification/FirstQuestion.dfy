/** The shortest run in which a question is accepted: a persona is created, its draft gets one line of speech, the draft is
    indexed and activated, a conversation is opened and a question asked. Statements of the form "this can happen" start
    from the row it leaves. */
module FirstQuestion {
  import opened Basics
  import opened Text
  import opened Chunker
  import opened Generations
  import M = Materials
  import MI = MaterialInvariant
  import C = ChatTables
  import CI = ChatInvariant
  import IndexSteps
  import opened Runs

  const OWNER: Subject := "owner"
  const PERSONA: Uuid := 1
  const VERSION: Uuid := 2
  const SOURCE: Uuid := 3
  const JOB: Uuid := 4
  const CONVERSATION: Uuid := 5
  const MESSAGE: Uuid := 6
  const GENERATION: Uuid := 7

  const SETTINGS: M.Settings := M.Settings("name", "profile", "")
  const LINE: M.SourceRow := M.SourceRow(SOURCE, "speech_examples", "hello")

  const UPSERT: M.Upsert := M.Upsert(None, SOURCE, "speech_examples", "hello")

  const CREATION: M.RecordId := M.RecordId(OWNER, M.CreatePersonaOp, None, 1)
  const DRAFTING: M.RecordId := M.RecordId(OWNER, M.CreateDraftOp, Some(PERSONA), 2)

  const SETUP: seq<MaterialEvent> := [
    CreatePersona(OWNER, "name", 1, PERSONA, 0),
    CreateDraft(OWNER, PERSONA, M.FromSettings(SETTINGS), 2, VERSION, [], []),
    PatchDraft(OWNER, PERSONA, 1, None, [UPSERT], [], [LINE]),
    StartIndexing(OWNER, PERSONA, 2, JOB),
    BuildJob(JOB, [LINE], true),
    CommitJob(JOB),
    ActivateDraft(OWNER, PERSONA, 2)]

  // ---------------------------------------------------------------- the material tables, step by step

  function Drafted(draft: Option<Uuid>, active: Option<Uuid>): map<Uuid, M.Persona> {
    map[PERSONA := M.Persona(OWNER, "name", 0, active, draft, false)]
  }

  const CREATED: M.Tables := M.EMPTY.(
    users := {OWNER}, personas := Drafted(None, None), records := map[CREATION := M.Record(M.OfName("name"), PERSONA, None)],
    drawn := {PERSONA})

  const STARTED: M.Tables := CREATED.(
    personas := Drafted(Some(VERSION), None), versions := map[VERSION := M.NewVersion(PERSONA, SETTINGS, None)],
    records := CREATED.records[DRAFTING := M.Record(M.OfInput(M.FromSettings(SETTINGS)), PERSONA, Some(VERSION))],
    drawn := {PERSONA, VERSION})

  const PATCHED: M.Tables := STARTED.(
    versions := map[VERSION := M.NewVersion(PERSONA, SETTINGS, None).(revision := 2)],
    sources := map[SOURCE := M.Source(VERSION, "speech_examples", "hello")], drawn := {PERSONA, VERSION, SOURCE})

  const CLAIMED: M.Tables := PATCHED.(
    versions := map[VERSION := PATCHED.versions[VERSION].(status := M.Processing)],
    jobs := map[JOB := M.Job(PERSONA, VERSION, 2, M.Claimed)], drawn := {PERSONA, VERSION, SOURCE, JOB})

  lemma CreatesPersona()
    ensures M.CreatePersona(M.EMPTY, OWNER, "name", 1, PERSONA, 0).0 == CREATED
  {
    assert M.PersonasOf(M.EMPTY.personas, OWNER) <= M.EMPTY.personas.Keys;
  }

  lemma CreatesDraft()
    ensures M.CreateDraft(CREATED, OWNER, PERSONA, M.FromSettings(SETTINGS), 2, VERSION, [], []).0 == STARTED
  {
    assert [VERSION] + [] == [VERSION];
    assert M.Fresh([VERSION], CREATED.drawn);
    assert M.CopySources(map[], VERSION, [], []) == map[];
  }

  lemma HelloIsTrimmed()
    ensures Strip("hello") == "hello" && SplitLines("hello") == ["hello"]
  {
    assert !IsSpace("hello"[0]) && !IsSpace("hello"[4]);
    assert SpaceEnd("hello", 0) == 0 && SpaceStart("hello", 5) == 5;
    assert forall i :: 0 <= i < 5 ==> !IsLineBreak("hello"[i]);
    assert LineEnd("hello") == 5;
    assert "hello"[..5] == "hello";
  }

  lemma KindsAreKnown()
    ensures "speech_examples" in M.DRAFT_KINDS && "speech_examples" in CHUNKABLE_KINDS
  {
    assert M.DRAFT_KINDS[4] == "speech_examples" && CHUNKABLE_KINDS[3] == "speech_examples";
  }

  lemma LineIsListed()
    ensures M.Lists(PATCHED.sources, VERSION, CHUNKABLE_KINDS, [LINE])
    ensures M.ListsAll(PATCHED.sources, VERSION, [LINE])
  {
    KindsAreKnown();
    assert [LINE][0].id == SOURCE;
    assert M.CoversKinds(PATCHED.sources, VERSION, CHUNKABLE_KINDS);
  }

  lemma LineFits()
    ensures M.WithinLimits("profile", [LINE])
  {
    assert [LINE][1..] == [];
    assert |"speech_examples"| == 15 && |"events"| == 6 && |"relationships"| == 13 && |"abilities"| == 9;
  }

  lemma UpsertsLine(sources: map<Uuid, M.Source>, upserts: seq<M.Upsert>)
    requires sources == map[] && upserts == [UPSERT]
    ensures M.Upserted(M.WithoutSources(sources, VERSION, []), VERSION, upserts) == Ok(PATCHED.sources)
    ensures M.Drawn(upserts) == [SOURCE] && M.SourceConflict({}, upserts, []) == None
  {
    HelloIsTrimmed();
    KindsAreKnown();
    hide Strip;
    assert upserts[1..] == [];
    assert M.UpsertConflict({}, upserts[1..], []) == None;
    assert M.UpsertConflict({}, upserts, []) == None;
    assert M.WithoutSources(sources, VERSION, []) == sources;
  }

  lemma PatchesDraft()
    ensures M.PatchDraft(STARTED, OWNER, PERSONA, 1, None, [UPSERT], [], [LINE]).0 == PATCHED
  {
    UpsertsLine(STARTED.sources, [UPSERT]);
    LineIsListed();
    LineFits();
    hide M.ListsAll, M.WithinLimits, M.Upserted, M.WithoutSources, M.Drawn, M.SourceConflict;
    assert M.SourcesOf(STARTED.sources, VERSION) == {};
    assert M.Fresh([SOURCE], STARTED.drawn);
    assert M.WithoutChunksOf(STARTED.chunks, VERSION, []) == STARTED.chunks;
  }

  lemma StartsIndexing()
    ensures M.StartIndexing(PATCHED, OWNER, PERSONA, 2, JOB).0 == CLAIMED
  {
    KindsAreKnown();
    assert SOURCE in PATCHED.sources && PATCHED.sources[SOURCE].version == VERSION;
    assert PATCHED.sources[SOURCE].kind in CHUNKABLE_KINDS;
    assert !M.LockHeld(PATCHED, 0);
    assert M.DraftOf(PATCHED, OWNER, PERSONA) == Ok(VERSION);
    assert PATCHED.versions[VERSION].status == M.Editing && PATCHED.versions[VERSION].revision == 2;
    assert M.StartIndexing(PATCHED, OWNER, PERSONA, 2, JOB).1 == M.Done(JOB);
    assert M.StartIndexing(PATCHED, OWNER, PERSONA, 2, JOB).0.versions == CLAIMED.versions;
    assert M.StartIndexing(PATCHED, OWNER, PERSONA, 2, JOB).0.jobs == CLAIMED.jobs;
    assert M.StartIndexing(PATCHED, OWNER, PERSONA, 2, JOB).0.drawn == CLAIMED.drawn;
  }

  // ---------------------------------------------------------------- indexing and activation

  function Built(records: seq<M.ChunkRecord>): M.Tables {
    CLAIMED.(jobs := map[JOB := M.Job(PERSONA, VERSION, 2, M.Built([LINE], records))])
  }

  lemma LineIsOneChunk()
    ensures ChunkMaterial("hello", "speech_examples") == Some([Chunk("speech_examples", 0, [], "hello", 5)])
  {
    HelloIsTrimmed();
    KindsAreKnown();
    hide CHUNKABLE_KINDS, Strip, SplitLines;
    assert ["hello"][1..] == [];
    assert SpeechChunks(1, []) == [];
    assert SpeechChunks(0, ["hello"]) == [Chunk("speech_examples", 0, [], "hello", 5)];
  }

  lemma BuildsRecords()
    ensures M.BuildRecords([LINE]).Ok?
  {
    LineIsOneChunk();
    hide ChunkMaterial;
    assert [LINE][1..] == [];
    assert M.Pending([]) == Ok([]);
  }

  lemma BuildsJob()
    ensures M.BuildRecords([LINE]).Ok?
    ensures M.BuildJob(CLAIMED, JOB, [LINE], true) == Built(M.BuildRecords([LINE]).value)
  {
    BuildsRecords();
    LineIsListed();
    hide M.BuildRecords, M.Lists;
  }

  /** What the chat needs of the persona tables once the draft is active. */
  predicate IsActive(db: M.Tables) {
    db.users == {OWNER} && db.personas == Drafted(None, Some(VERSION))
  }

  lemma CommitKeeps(db: M.Tables, j: Uuid, v: Uuid)
    requires v in db.versions
    ensures var after := M.CommitJob(db, j);
      && after.users == db.users && after.personas == db.personas
      && v in after.versions && after.versions[v].revision == db.versions[v].revision
  {
    hide M.ReplaceChunks;
  }

  lemma Commits(records: seq<M.ChunkRecord>)
    requires MI.Inv(Built(records))
    ensures var after := M.CommitJob(Built(records), JOB);
      && after.users == {OWNER} && after.personas == Drafted(Some(VERSION), None)
      && VERSION in after.versions && after.versions[VERSION].revision == 2 && M.CanActivate(after.versions[VERSION])
  {
    IndexSteps.CurrentRunCommits(Built(records), JOB);
    CommitKeeps(Built(records), JOB, VERSION);
    hide MI.Inv, M.CommitJob, M.CanActivate;
  }

  lemma Activates(db: M.Tables)
    requires db.users == {OWNER} && db.personas == Drafted(Some(VERSION), None)
    requires VERSION in db.versions && db.versions[VERSION].revision == 2 && M.CanActivate(db.versions[VERSION])
    ensures IsActive(M.ActivateDraft(db, OWNER, PERSONA, 2).0)
  {
    assert M.ActivateDraft(db, OWNER, PERSONA, 2).1 == M.Done(VERSION);
  }

  // ---------------------------------------------------------------- conversation and question

  const CHAT_SETUP: ChatEvent := ChatEvent.OpenConversation(OWNER, PERSONA, 3, CONVERSATION)

  function Question(me: Instance, now: Time): ChatEvent {
    Accept(now, now, me, OWNER, CONVERSATION, "question", 4, MESSAGE, GENERATION)
  }

  const ENV: C.Env := C.Env({OWNER}, map[PERSONA := C.PersonaView(OWNER, "name", false, Some(VERSION))])

  const OPENED: C.Tables := C.EMPTY.(
    conversations := map[CONVERSATION := C.Conversation(PERSONA, OWNER, VERSION, "name")],
    records := map[C.RecordId(OWNER, C.CreateConversation, PERSONA, 3) := C.Record(C.OfConversation(PERSONA), CONVERSATION)],
    drawn := {CONVERSATION})

  lemma OpensConversation()
    ensures ChatStep(C.EMPTY, ENV, CHAT_SETUP) == OPENED
  {
  }

  /** The row is queued and stamped by the instance, and nothing else holds the user's slot. */
  predicate IsAsked(w: World, me: Instance, now: Time) {
    w.chat.generations == map[GENERATION := C.QueuedRow(CONVERSATION, MESSAGE, VERSION, me, now)]
    && CONVERSATION in w.chat.conversations && w.chat.conversations[CONVERSATION].owner == OWNER
  }

  lemma Asks(me: Instance, now: Time)
    ensures var after := ChatStep(OPENED, ENV, Question(me, now));
      && after.generations == map[GENERATION := C.QueuedRow(CONVERSATION, MESSAGE, VERSION, me, now)]
      && after.conversations == OPENED.conversations
  {
    assert !exists g :: C.IsNewestActive(OPENED, OWNER, g);
    assert C.SlotCheck(OPENED, OWNER, now, now) == Some(OPENED.generations);
    hide C.SlotCheck;
  }

  lemma EnvIs(db: M.Tables)
    requires IsActive(db)
    ensures EnvOf(db) == ENV
  {
  }

  // ---------------------------------------------------------------- the run

  function Events(me: Instance, now: Time): seq<Event> {
    [OnMaterial(SETUP[0]), OnMaterial(SETUP[1]), OnMaterial(SETUP[2]), OnMaterial(SETUP[3]), OnMaterial(SETUP[4]),
      OnMaterial(SETUP[5]), OnMaterial(SETUP[6]), OnChat(CHAT_SETUP), OnChat(Question(me, now))]
  }

  lemma NextEvent(es: seq<Event>, n: nat)
    requires n < |es|
    ensures Played(START, es[..n + 1]) == Step(Played(START, es[..n]), es[n])
  {
    hide Step;
    PlayedLast(START, es[..n], es[n]);
    assert es[..n] + [es[n]] == es[..n + 1];
  }

  lemma SetupSteps(db: M.Tables)
    ensures MaterialStep(db, SETUP[0]) == M.CreatePersona(db, OWNER, "name", 1, PERSONA, 0).0
    ensures MaterialStep(db, SETUP[1]) == M.CreateDraft(db, OWNER, PERSONA, M.FromSettings(SETTINGS), 2, VERSION, [], []).0
    ensures MaterialStep(db, SETUP[2]) == M.PatchDraft(db, OWNER, PERSONA, 1, None, [UPSERT], [], [LINE]).0
    ensures MaterialStep(db, SETUP[3]) == M.StartIndexing(db, OWNER, PERSONA, 2, JOB).0
    ensures MaterialStep(db, SETUP[4]) == M.BuildJob(db, JOB, [LINE], true)
    ensures MaterialStep(db, SETUP[5]) == M.CommitJob(db, JOB)
    ensures MaterialStep(db, SETUP[6]) == M.ActivateDraft(db, OWNER, PERSONA, 2).0
  {
    hide M.CreatePersona, M.CreateDraft, M.PatchDraft, M.StartIndexing, M.BuildJob, M.CommitJob, M.ActivateDraft;
  }

  /** One event of the setup. */
  lemma NextSetup(me: Instance, now: Time, n: nat)
    requires n < 7
    ensures var es := Events(me, now);
      var w := Played(START, es[..n]);
      Played(START, es[..n + 1]) == w.(material := MaterialStep(w.material, SETUP[n]))
  {
    hide MaterialStep;
    NextEvent(Events(me, now), n);
  }

  /** One event of the chat. */
  lemma NextChat(me: Instance, now: Time, n: nat)
    requires 7 <= n < 9
    ensures var es, e := Events(me, now), if n == 7 then CHAT_SETUP else Question(me, now);
      var w := Played(START, es[..n]);
      Played(START, es[..n + 1]) == w.(chat := ChatStep(w.chat, EnvOf(w.material), e))
  {
    hide ChatStep, EnvOf;
    NextEvent(Events(me, now), n);
  }

  lemma MaterialPlayed(me: Instance, now: Time)
    ensures var w := Played(START, Events(me, now)[..7]); IsActive(w.material) && w.chat == C.EMPTY
  {
    hide MI.Inv, IsActive, Step, MaterialStep;
    hide M.CreatePersona, M.CreateDraft, M.PatchDraft, M.StartIndexing, M.BuildJob, M.CommitJob, M.ActivateDraft;
    var es := Events(me, now);
    assert es[..0] == [];
    forall n | 0 <= n < 7
      ensures var w := Played(START, es[..n]);
        Played(START, es[..n + 1]) == w.(material := MaterialStep(w.material, SETUP[n]))
    {
      NextSetup(me, now, n);
    }
    forall n | 0 <= n < 7 {
      SetupSteps(Played(START, es[..n]).material);
    }
    CreatesPersona();
    CreatesDraft();
    PatchesDraft();
    StartsIndexing();
    BuildsJob();
    var built := Played(START, es[..5]);
    StartIsGood();
    PlayedKeepsInv(START, es[..5]);
    assert MI.Inv(built.material);
    Commits(M.BuildRecords([LINE]).value);
    Activates(Played(START, es[..6]).material);
  }

  /** The question is accepted: its row waits in the queue under a lease of the instance. */
  lemma QuestionIsAccepted(me: Instance, now: Time)
    ensures IsAsked(Played(START, Events(me, now)), me, now)
  {
    hide Step, ChatStep;
    var es := Events(me, now);
    MaterialPlayed(me, now);
    EnvIs(Played(START, es[..7]).material);
    hide IsActive, EnvOf;
    NextChat(me, now, 7);
    OpensConversation();
    NextChat(me, now, 8);
    Asks(me, now);
    assert es[..9] == es;
  }
}
