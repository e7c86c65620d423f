/** The chat tables and the transactions of chat/repository.py on them, each as one function from tables to tables.

    A transaction that raises is rolled back: its function returns the tables unchanged. `now` is the database time of the
    transaction, `wall` the clock of the gateway process, `env` what the transaction reads of the persona tables. */
module ChatTables {
  import opened Basics
  import opened Generations

  /** What chat transactions see of a personas row. */
  datatype PersonaView = PersonaView(owner: Subject, name: string, deleted: bool, active: Option<Uuid>)

  datatype Env = Env(users: set<Subject>, personas: map<Uuid, PersonaView>)

  datatype Conversation = Conversation(persona: Uuid, owner: Subject, initialVersion: Uuid, title: string)

  datatype UserMessage = UserMessage(conversation: Uuid, content: string, createdAt: Time)

  datatype Operation = CreateConversation | ChatCompletion | RetryGeneration

  /** The primary key of chat_idempotency_records; the scope names the persona, conversation or generation asked about. */
  datatype RecordId = RecordId(owner: Subject, operation: Operation, scope: Uuid, key: Uuid)

  /** The hash of the request: the hashed fields themselves, since the hash is taken to be injective. */
  datatype Fingerprint =
    | OfConversation(persona: Uuid)
    | OfCompletion(conversation: Uuid, message: string)
    | OfRetry(generation: Uuid)

  datatype Record = Record(fingerprint: Fingerprint, result: Uuid)

  /** `drawn` is every identifier uuid4 has returned so far; the two counters are those of chat/metrics.py. */
  datatype Tables = Tables(
    conversations: map<Uuid, Conversation>,
    messages: map<Uuid, UserMessage>,
    generations: map<Uuid, Generation>,
    records: map<RecordId, Record>,
    drawn: set<Uuid>,
    disconnects: nat,
    reclaimed: nat)

  const EMPTY: Tables := Tables(map[], map[], map[], map[], {}, 0, 0)

  datatype RetryRefusal = GenerationActive | InputUnavailable | NotLatest

  datatype Reply =
    | Accepted(id: Uuid, replay: bool)
    | ConversationNotFound
    | GenerationNotFound
    | PersonaNotFound
    | NoActiveVersion
    | GenerationInProgress
    | IdempotencyConflict
    | RetryNotAllowed(why: RetryRefusal)
    | UuidRepeated

  function OwnerOf(db: Tables, r: Generation): Option<Subject> {
    if r.conversation in db.conversations then Some(db.conversations[r.conversation].owner) else None
  }

  /** The generation holds the user's slot. */
  predicate Holds(db: Tables, g: Uuid, owner: Subject) {
    g in db.generations && Active(db.generations[g].status) && OwnerOf(db, db.generations[g]) == Some(owner)
  }

  // ---------------------------------------------------------------- accepting a request

  /** The lookup by idempotency key: None when the request is new. */
  function Replay(db: Tables, id: RecordId, fingerprint: Fingerprint): Option<Reply> {
    if id !in db.records then None
    else if db.records[id].fingerprint != fingerprint then Some(IdempotencyConflict)
    else Some(Accepted(db.records[id].result, true))
  }

  /** _replay_before_reclaim: the first transaction of an accept. It writes nothing. */
  function ReplayBeforeReclaim(db: Tables, env: Env, id: RecordId, fingerprint: Fingerprint): Option<Reply> {
    if id.owner !in env.users then None else Replay(db, id, fingerprint)
  }

  /** The row the slot check reads: active, this user's, newest by creation time. */
  predicate IsNewestActive(db: Tables, owner: Subject, g: Uuid) {
    && Holds(db, g, owner)
    && forall h :: h in db.generations && Holds(db, h, owner) ==>
         db.generations[h].createdAt <= db.generations[g].createdAt
  }

  /** _reject_or_resolve_active_generation: None when it raises, otherwise the generations after it. */
  ghost function SlotCheck(db: Tables, owner: Subject, now: Time, wall: Time): Option<map<Uuid, Generation>> {
    if exists g :: IsNewestActive(db, owner, g) then
      var g :| IsNewestActive(db, owner, g);
      var row := db.generations[g];
      if Abandoned(row, wall) then Some(db.generations[g := GivenUp(row, now)]) else None
    else Some(db.generations)
  }

  predicate OpenConversation(db: Tables, env: Env, c: Uuid, owner: Subject) {
    && c in db.conversations && db.conversations[c].owner == owner
    && db.conversations[c].persona in env.personas && !env.personas[db.conversations[c].persona].deleted
  }

  function CompletionRecord(owner: Subject, conversation: Uuid, key: Uuid): RecordId {
    RecordId(owner, ChatCompletion, conversation, key)
  }

  function RetryRecord(owner: Subject, generation: Uuid, key: Uuid): RecordId {
    RecordId(owner, RetryGeneration, generation, key)
  }

  /** A row as INSERT leaves it, stamped by the instance that will stream it. */
  function QueuedRow(conversation: Uuid, message: Uuid, version: Uuid, me: Instance, now: Time): Generation {
    Stamped(
      Generation(conversation, message, version, me.mode, Queued, "", [], None, None, None, None, now, now, None),
      me, now)
  }

  function RetryRow(original: Uuid, row: Generation, snapshot: Snapshot, me: Instance, now: Time): Generation {
    Stamped(
      Generation(row.conversation, row.message, row.version, me.mode, Running, "", snapshot.citations, None,
        Some(original), Some(snapshot), None, now, now, None),
      me, now)
  }

  /** The main transaction of create_generation_queued. */
  ghost function Accept(
    db: Tables, env: Env, now: Time, wall: Time, me: Instance,
    owner: Subject, conversation: Uuid, message: string, key: Uuid, newMessage: Uuid, newGeneration: Uuid)
    : (Tables, Reply)
  {
    var id, fingerprint := CompletionRecord(owner, conversation, key), OfCompletion(conversation, message);
    if owner !in env.users then (db, ConversationNotFound)
    else if Replay(db, id, fingerprint).Some? then (db, Replay(db, id, fingerprint).value)
    else if !OpenConversation(db, env, conversation, owner) then (db, ConversationNotFound)
    else
      var slot := SlotCheck(db, owner, now, wall);
      var version := env.personas[db.conversations[conversation].persona].active;
      if slot.None? then (db, GenerationInProgress)
      else if version.None? then (db, NoActiveVersion)
      else if newMessage in db.drawn || newGeneration in db.drawn || newMessage == newGeneration then (db, UuidRepeated)
      else
        (db.(
          messages := db.messages[newMessage := UserMessage(conversation, message, now)],
          generations := slot.value[newGeneration := QueuedRow(conversation, newMessage, version.value, me, now)],
          records := db.records[id := Record(fingerprint, newGeneration)],
          drawn := db.drawn + {newMessage, newGeneration}),
        Accepted(newGeneration, false))
  }

  /** ORDER BY created_at, id */
  predicate NotAfter(time1: Time, id1: Uuid, time2: Time, id2: Uuid) {
    time1 < time2 || (time1 == time2 && id1 <= id2)
  }

  predicate LatestMessage(db: Tables, m: Uuid) {
    && m in db.messages
    && forall n :: n in db.messages && db.messages[n].conversation == db.messages[m].conversation ==>
         NotAfter(db.messages[n].createdAt, n, db.messages[m].createdAt, m)
  }

  predicate LatestAttempt(db: Tables, g: Uuid) {
    && g in db.generations
    && forall h :: h in db.generations && db.generations[h].message == db.generations[g].message ==>
         NotAfter(db.generations[h].createdAt, h, db.generations[g].createdAt, g)
  }

  /** Why this generation cannot be tried again, if so. */
  function Refusal(db: Tables, g: Uuid): Option<RetryRefusal>
    requires g in db.generations
  {
    var row := db.generations[g];
    if !Terminal(row.status) then Some(GenerationActive)
    else if row.snapshot.None? then Some(InputUnavailable)
    else if !LatestMessage(db, row.message) then Some(NotLatest)
    else if !LatestAttempt(db, g) then Some(NotLatest)
    else None
  }

  /** The main transaction of create_retry_generation. */
  ghost function Retry(
    db: Tables, env: Env, now: Time, wall: Time, me: Instance,
    owner: Subject, original: Uuid, key: Uuid, newGeneration: Uuid)
    : (Tables, Reply)
  {
    var id, fingerprint := RetryRecord(owner, original, key), OfRetry(original);
    if owner !in env.users then (db, GenerationNotFound)
    else if Replay(db, id, fingerprint).Some? then (db, Replay(db, id, fingerprint).value)
    else if original !in db.generations
         || !OpenConversation(db, env, db.generations[original].conversation, owner) then (db, GenerationNotFound)
    else if Refusal(db, original).Some? then (db, RetryNotAllowed(Refusal(db, original).value))
    else
      var slot := SlotCheck(db, owner, now, wall);
      var row := db.generations[original];
      if slot.None? then (db, GenerationInProgress)
      else if newGeneration in db.drawn then (db, UuidRepeated)
      else
        (db.(
          generations := slot.value[newGeneration := RetryRow(original, row, row.snapshot.value, me, now)],
          records := db.records[id := Record(fingerprint, newGeneration)],
          drawn := db.drawn + {newGeneration}),
        Accepted(newGeneration, false))
  }

  // ---------------------------------------------------------------- conversations

  function OpenNewConversation(
    db: Tables, env: Env, owner: Subject, persona: Uuid, key: Uuid, newConversation: Uuid)
    : (Tables, Reply)
  {
    var id, fingerprint := RecordId(owner, CreateConversation, persona, key), OfConversation(persona);
    if Replay(db, id, fingerprint).Some? then (db, Replay(db, id, fingerprint).value)
    else if persona !in env.personas || env.personas[persona].owner != owner || env.personas[persona].deleted then
      (db, PersonaNotFound)
    else if env.personas[persona].active.None? then (db, NoActiveVersion)
    else if newConversation in db.drawn then (db, UuidRepeated)
    else
      var view := env.personas[persona];
      (db.(
        conversations :=
          db.conversations[newConversation := Conversation(persona, owner, view.active.value, view.name)],
        records := db.records[id := Record(fingerprint, newConversation)],
        drawn := db.drawn + {newConversation}),
      Accepted(newConversation, false))
  }

  // ---------------------------------------------------------------- one row

  function WithRow(db: Tables, g: Uuid, row: Generation): Tables {
    db.(generations := db.generations[g := row])
  }

  /** mark_generation_running */
  function MarkRunning(db: Tables, g: Uuid, snapshot: Snapshot, me: Instance, now: Time): Tables {
    if g in db.generations then WithRow(db, g, MarkedRunning(db.generations[g], snapshot, me, now)) else db
  }

  /** finish_generation; when the row is gone the caller gets an exception and nothing is written. */
  function Finish(db: Tables, g: Uuid, verdict: Verdict, content: string, now: Time): Tables {
    if g in db.generations then WithRow(db, g, Finished(db.generations[g], verdict, content, now)) else db
  }

  /** mark_generation_reconciling, with the disconnect counted when the row changed. */
  function Disconnect(db: Tables, g: Uuid, now: Time): Tables {
    if g in db.generations && Live(db.generations[g].status) then
      WithRow(db, g, Parked(db.generations[g], now)).(disconnects := db.disconnects + 1)
    else db
  }

  /** request_cancel */
  function RequestCancel(db: Tables, owner: Subject, g: Uuid, now: Time): Tables {
    if g in db.generations && OwnerOf(db, db.generations[g]) == Some(owner) then
      WithRow(db, g, CancelAsked(db.generations[g], now))
    else db
  }

  // ---------------------------------------------------------------- many rows

  /** The rows a reclaim takes: this user's, or everybody's. */
  function ReclaimedRows(db: Tables, owner: Option<Subject>, now: Time): set<Uuid> {
    set g | g in db.generations && Reclaimable(db.generations[g], now)
            && (owner.None? || OwnerOf(db, db.generations[g]) == owner)
  }

  /** reclaim_user_expired_generations, and reclaim_expired_generations when no owner is given. */
  function Reclaim(db: Tables, owner: Option<Subject>, now: Time): Tables {
    var rows := ReclaimedRows(db, owner, now);
    db.(
      generations := map g | g in db.generations ::
        if g in rows then Reclaimed(db.generations[g], now) else db.generations[g],
      reclaimed := db.reclaimed + |rows|)
  }

  /** extend_own_leases */
  function ExtendLeases(db: Tables, me: Instance, now: Time): Tables {
    db.(generations := map g | g in db.generations :: Extended(db.generations[g], me, now))
  }

  function OwnedRows(db: Tables, instance: Uuid): set<Uuid> {
    set g | g in db.generations && Owns(db.generations[g], instance)
  }

  /** release_own_generations */
  function Release(db: Tables, instance: Uuid, now: Time): Tables {
    db.(
      generations := map g | g in db.generations :: Released(db.generations[g], instance, now),
      reclaimed := db.reclaimed + |OwnedRows(db, instance)|)
  }

  // ---------------------------------------------------------------- deleting a persona

  predicate ChatBusy(db: Tables, persona: Uuid) {
    exists g :: g in db.generations && Active(db.generations[g].status)
      && OfPersona(db, db.generations[g].conversation, persona)
  }

  predicate OfPersona(db: Tables, conversation: Uuid, persona: Uuid) {
    conversation in db.conversations && db.conversations[conversation].persona == persona
  }

  /** _delete_chat_records */
  function DeleteChat(db: Tables, owner: Subject, persona: Uuid): Tables {
    var conversations := set c | c in db.conversations && db.conversations[c].persona == persona;
    var generations := set g | g in db.generations && db.generations[g].conversation in conversations;
    db.(
      records := map id | id in db.records
        && !(id.owner == owner && db.records[id].result in conversations + generations) :: db.records[id],
      generations := map g | g in db.generations && g !in generations :: db.generations[g],
      messages := map m | m in db.messages && db.messages[m].conversation !in conversations :: db.messages[m],
      conversations := map c | c in db.conversations && c !in conversations :: db.conversations[c])
  }
}
