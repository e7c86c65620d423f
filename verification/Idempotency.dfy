/** Idempotency keys over whole runs: however the three transactions of several requests with one key interleave with
    each other and with everything else, at most one of them inserts, and all that succeed return the same row. */
module Idempotency {
  import opened Basics
  import opened Generations
  import C = ChatTables
  import CI = ChatInvariant
  import opened Runs
  import opened RowHistory

  ghost function AcceptReply(w: World, e: ChatEvent): C.Reply
    requires e.Accept?
  {
    C.Accept(w.chat, EnvOf(w.material), e.now, e.wall, e.me, e.owner, e.conversation, e.message, e.key,
      e.newMessage, e.newGeneration).1
  }

  ghost function RetryReply(w: World, e: ChatEvent): C.Reply
    requires e.Retry?
  {
    C.Retry(w.chat, EnvOf(w.material), e.now, e.wall, e.me, e.owner, e.original, e.key, e.newGeneration).1
  }

  ghost function MainReply(w: World, e: ChatEvent): C.Reply
    requires e.Accept? || e.Retry?
  {
    if e.Accept? then AcceptReply(w, e) else RetryReply(w, e)
  }

  // ---------------------------------------------------------------- what a record remembers

  /** The conversation a key is about: the scope itself, or the conversation of the generation in the scope. */
  predicate About(db: C.Tables, id: C.RecordId, c: Uuid) {
    match id.operation
    case CreateConversation => false
    case ChatCompletion => id.scope == c
    case RetryGeneration => id.scope in db.generations && db.generations[id.scope].conversation == c
  }

  predicate ConversationGone(db: C.Tables, c: Uuid) {
    c in db.drawn && c !in db.conversations
  }

  /** The record is as it was, or the conversation it is about is gone. */
  predicate Remembered(db: C.Tables, id: C.RecordId, record: C.Record, c: Uuid) {
    (id in db.records && db.records[id] == record) || ConversationGone(db, c)
  }

  lemma ChatStepRemembers(db: C.Tables, env: C.Env, e: ChatEvent, id: C.RecordId)
    requires id in db.records
    ensures id in ChatStep(db, env, e).records && ChatStep(db, env, e).records[id] == db.records[id]
  {
    hide C.SlotCheck, C.Refusal;
  }

  /** A record goes only together with the conversation its result belongs to. */
  lemma DeleteRemembers(db: C.Tables, env: C.Env, owner: Subject, p: Uuid, id: C.RecordId, c: Uuid)
    requires CI.Inv(db, env) && id in db.records && !id.operation.CreateConversation?
    requires db.records[id].result in db.generations && db.generations[db.records[id].result].conversation == c
    ensures Remembered(C.DeleteChat(db, owner, p), id, db.records[id], c)
  {
    hide CI.Rooted, CI.RecordsHold, CI.OneSlot;
    assert CI.RowLinked(db, db.generations[db.records[id].result]);
  }

  /** The result of a completion or retry record is a generation of the conversation the key is about. */
  lemma ResultIsInConversation(db: C.Tables, env: C.Env, id: C.RecordId, c: Uuid)
    requires CI.Inv(db, env) && id in db.records && About(db, id, c)
    ensures db.records[id].result in db.generations && db.generations[db.records[id].result].conversation == c
    ensures c in db.conversations
  {
    hide CI.Rooted, CI.OneSlot, CI.AllDrawn;
    assert CI.RecordHolds(db, id, db.records[id]);
    var row := db.generations[db.records[id].result];
    assert CI.RowLinked(db, row);
    if id.operation.RetryGeneration? {
      assert CI.RowLinked(db, db.generations[id.scope]);
    }
  }

  lemma StepRemembers(w: World, e: Event, id: C.RecordId, c: Uuid)
    requires Inv(w) && id in w.chat.records && About(w.chat, id, c)
    ensures Remembered(Step(w, e).chat, id, w.chat.records[id], c)
  {
    hide CI.Inv, MaterialStep, ChatStep, C.DeleteChat, About;
    match e
    case OnMaterial(_) =>
    case OnChat(chat) => ChatStepRemembers(w.chat, EnvOf(w.material), chat, id);
    case DeletePersona(owner, p, _) =>
      ResultIsInConversation(w.chat, EnvOf(w.material), id, c);
      NotOfConversations(w.chat, id, c);
      DeleteRemembers(w.chat, EnvOf(w.material), owner, p, id, c);
  }

  lemma NotOfConversations(db: C.Tables, id: C.RecordId, c: Uuid)
    requires About(db, id, c)
    ensures !id.operation.CreateConversation?
  {
  }

  /** The key still is about the same conversation after a step, or the conversation is gone. */
  lemma AboutStays(w: World, e: Event, id: C.RecordId, c: Uuid)
    requires Inv(w) && About(w.chat, id, c) && c in w.chat.conversations
    ensures About(Step(w, e).chat, id, c) || ConversationGone(Step(w, e).chat, c)
  {
    hide CI.Inv, MaterialStep, ChatStep, ChatMoves;
    StepMoves(w, e);
    ChatDrawn(w);
    var db, after := w.chat, Step(w, e).chat;
    DrawnGrows(db, after);
    if c in after.conversations && id.operation.RetryGeneration? {
      KeptWithConversation(w, e, id.scope);
      SameConversation(db, after, id.scope);
    }
  }

  lemma SameConversation(db: C.Tables, after: C.Tables, g: Uuid)
    requires ChatMoves(db, after) && g in db.generations && g in after.generations
    ensures after.generations[g].conversation == db.generations[g].conversation
  {
    assert Moves(db.generations[g], after.generations[g]);
  }

  /** A generation goes only together with its conversation. */
  lemma KeptWithConversation(w: World, e: Event, g: Uuid)
    requires Inv(w) && g in w.chat.generations
    requires w.chat.generations[g].conversation in Step(w, e).chat.conversations
    ensures g in Step(w, e).chat.generations
  {
    hide CI.Inv, MaterialStep, EnvOf;
    if e.OnChat? {
      RowsAreKept(w.chat, EnvOf(w.material), e.chat, g);
    }
  }

  lemma RowsAreKept(db: C.Tables, env: C.Env, e: ChatEvent, g: Uuid)
    requires g in db.generations
    ensures g in ChatStep(db, env, e).generations
  {
    hide C.Refusal, Stamped, Reclaimed, Released, Extended;
  }

  lemma GoneStays(w: World, e: Event, c: Uuid)
    requires Inv(w) && ConversationGone(w.chat, c)
    ensures ConversationGone(Step(w, e).chat, c)
  {
    hide CI.Inv, Step;
    StepMoves(w, e);
  }

  /** From the commit of a record on, it is remembered unchanged, or its conversation is gone for good. */
  lemma {:induction false} RecordsAreRemembered(ws: seq<World>, es: seq<Event>, i: nat, k: nat, id: C.RecordId, c: Uuid)
    requires IsRun(ws, es) && i <= k <= |es| && id in ws[i].chat.records && About(ws[i].chat, id, c)
    ensures Remembered(ws[k].chat, id, ws[i].chat.records[id], c)
    ensures About(ws[k].chat, id, c) || ConversationGone(ws[k].chat, c)
    decreases k - i
  {
    hide Step, Inv, About, ConversationGone, EnvOf;
    if i < k {
      var w := ws[k - 1];
      RecordsAreRemembered(ws, es, i, k - 1, id, c);
      RunsKeepInv(ws, es, k - 1);
      OneStep(ws, es, k - 1);
      if ConversationGone(w.chat, c) {
        GoneStays(w, es[k - 1], c);
      } else {
        StepRemembers(w, es[k - 1], id, c);
        InConversations(w, id, c);
        AboutStays(w, es[k - 1], id, c);
      }
    }
  }

  lemma InConversations(w: World, id: C.RecordId, c: Uuid)
    requires Inv(w) && id in w.chat.records && About(w.chat, id, c)
    ensures c in w.chat.conversations
  {
    ResultIsInConversation(w.chat, EnvOf(w.material), id, c);
  }

  // ---------------------------------------------------------------- completions

  /** A successful accept leaves its record, and needs its conversation. */
  lemma AcceptRecords(w: World, e: ChatEvent)
    requires Inv(w) && e.Accept? && AcceptReply(w, e).Accepted?
    ensures var after, id := Step(w, OnChat(e)).chat, C.CompletionRecord(e.owner, e.conversation, e.key);
      && id in after.records
      && after.records[id] == C.Record(C.OfCompletion(e.conversation, e.message), AcceptReply(w, e).id)
      && e.conversation in w.chat.conversations
      && (AcceptReply(w, e).replay <==> id in w.chat.records)
      && (AcceptReply(w, e).replay ==> after == w.chat)
  {
    hide CI.Inv, C.SlotCheck, EnvOf;
    var id := C.CompletionRecord(e.owner, e.conversation, e.key);
    if id in w.chat.records {
      ResultIsInConversation(w.chat, EnvOf(w.material), id, e.conversation);
    }
  }

  /** Of all requests with one key, wherever their main transactions fall in a run, the first that succeeds inserts and
      every later one that succeeds returns the same generation and changes nothing. */
  lemma OneGenerationPerKey(ws: seq<World>, es: seq<Event>, i: nat, k: nat, a: ChatEvent, b: ChatEvent)
    requires IsRun(ws, es) && i < k < |es| && es[i] == OnChat(a) && es[k] == OnChat(b) && a.Accept? && b.Accept?
    requires a.owner == b.owner && a.conversation == b.conversation && a.key == b.key
    requires AcceptReply(ws[i], a).Accepted? && AcceptReply(ws[k], b).Accepted?
    ensures AcceptReply(ws[k], b) == C.Accepted(AcceptReply(ws[i], a).id, true)
    ensures a.message == b.message && ws[k + 1].chat == ws[k].chat
  {
    hide Step, Inv, AcceptReply;
    var id := C.CompletionRecord(a.owner, a.conversation, a.key);
    RunsKeepInv(ws, es, i);
    RunsKeepInv(ws, es, k);
    AcceptRecords(ws[i], a);
    AcceptRecords(ws[k], b);
    OneStep(ws, es, i);
    OneStep(ws, es, k);
    RecordsAreRemembered(ws, es, i + 1, k, id, a.conversation);
    RepliesAgree(ws[k], b);
  }

  lemma RepliesAgree(w: World, e: ChatEvent)
    requires e.Accept? && AcceptReply(w, e).Accepted?
    requires C.CompletionRecord(e.owner, e.conversation, e.key) in w.chat.records
    ensures var record := w.chat.records[C.CompletionRecord(e.owner, e.conversation, e.key)];
      AcceptReply(w, e) == C.Accepted(record.result, true)
      && record.fingerprint == C.OfCompletion(e.conversation, e.message)
  {
  }

  // ---------------------------------------------------------------- retries

  lemma RetryRecords(w: World, e: ChatEvent)
    requires Inv(w) && e.Retry? && RetryReply(w, e).Accepted?
    ensures var after, id := Step(w, OnChat(e)).chat, C.RetryRecord(e.owner, e.original, e.key);
      && id in after.records && after.records[id] == C.Record(C.OfRetry(e.original), RetryReply(w, e).id)
      && e.original in w.chat.generations
      && (RetryReply(w, e).replay <==> id in w.chat.records)
      && (RetryReply(w, e).replay ==> after == w.chat)
  {
    hide CI.Inv, C.SlotCheck, C.Refusal, EnvOf;
    var id := C.RetryRecord(e.owner, e.original, e.key);
    if id in w.chat.records {
      OriginalExists(w.chat, EnvOf(w.material), id);
    }
  }

  lemma OriginalExists(db: C.Tables, env: C.Env, id: C.RecordId)
    requires CI.Inv(db, env) && id in db.records && id.operation.RetryGeneration?
    ensures id.scope in db.generations
  {
    hide CI.Rooted, CI.OneSlot, CI.AllDrawn;
    assert CI.RecordHolds(db, id, db.records[id]);
    assert CI.RowLinked(db, db.generations[db.records[id].result]);
  }

  lemma RetryRepliesAgree(w: World, e: ChatEvent)
    requires e.Retry? && RetryReply(w, e).Accepted? && C.RetryRecord(e.owner, e.original, e.key) in w.chat.records
    ensures RetryReply(w, e) == C.Accepted(w.chat.records[C.RetryRecord(e.owner, e.original, e.key)].result, true)
  {
  }

  /** The same for retries of one generation under one key. */
  lemma OneRetryPerKey(ws: seq<World>, es: seq<Event>, i: nat, k: nat, a: ChatEvent, b: ChatEvent)
    requires IsRun(ws, es) && i < k < |es| && es[i] == OnChat(a) && es[k] == OnChat(b) && a.Retry? && b.Retry?
    requires a.owner == b.owner && a.original == b.original && a.key == b.key
    requires RetryReply(ws[i], a).Accepted? && RetryReply(ws[k], b).Accepted?
    ensures RetryReply(ws[k], b) == C.Accepted(RetryReply(ws[i], a).id, true)
    ensures ws[k + 1].chat == ws[k].chat
  {
    hide Step, Inv, RetryReply;
    var id := C.RetryRecord(a.owner, a.original, a.key);
    RunsKeepInv(ws, es, i);
    RunsKeepInv(ws, es, k);
    RetryRecords(ws[i], a);
    RetryRecords(ws[k], b);
    OneStep(ws, es, i);
    OneStep(ws, es, k);
    RunsKeepInv(ws, es, i + 1);
    RecordedOriginal(ws[i + 1], id);
    RecordsAreRemembered(ws, es, i + 1, k, id, ws[i + 1].chat.generations[a.original].conversation);
    SameOriginal(ws, es, i + 1, k, a.original);
    HasConversation(ws[k], a.original);
    RetryRepliesAgree(ws[k], b);
  }

  lemma RecordedOriginal(w: World, id: C.RecordId)
    requires Inv(w) && id in w.chat.records && id.operation.RetryGeneration?
    ensures id.scope in w.chat.generations
  {
    OriginalExists(w.chat, EnvOf(w.material), id);
  }

  lemma SameOriginal(ws: seq<World>, es: seq<Event>, i: nat, k: nat, g: Uuid)
    requires IsRun(ws, es) && i <= k <= |es| && g in ws[i].chat.generations && g in ws[k].chat.generations
    ensures ws[k].chat.generations[g].conversation == ws[i].chat.generations[g].conversation
  {
    RowsOnlyMove(ws, es, i, k, g);
  }

  // ---------------------------------------------------------------- whole requests

  /** A question in a conversation, or another attempt at an answer. */
  datatype Target = Question(conversation: Uuid, message: string) | Retried(original: Uuid)

  /** One request in a run: it looks for a replay in the state `first`, and if there is none its reclaim and its main
      transaction are the events `reclaim` and `main`. */
  datatype Request = Request(owner: Subject, key: Uuid, target: Target, first: nat, reclaim: nat, main: nat)

  function IdOf(q: Request): C.RecordId {
    match q.target
    case Question(conversation, _) => C.CompletionRecord(q.owner, conversation, q.key)
    case Retried(original) => C.RetryRecord(q.owner, original, q.key)
  }

  function FingerprintOf(q: Request): C.Fingerprint {
    match q.target
    case Question(conversation, message) => C.OfCompletion(conversation, message)
    case Retried(original) => C.OfRetry(original)
  }

  /** The answer of the first transaction, if it has one. */
  function FirstAnswer(w: World, q: Request): Option<C.Reply> {
    C.ReplayBeforeReclaim(w.chat, EnvOf(w.material), IdOf(q), FingerprintOf(q))
  }

  predicate IsMainOf(e: Event, q: Request) {
    e.OnChat? && match q.target
      case Question(conversation, message) =>
        && e.chat.Accept? && e.chat.owner == q.owner && e.chat.key == q.key
        && e.chat.conversation == conversation && e.chat.message == message
      case Retried(original) =>
        e.chat.Retry? && e.chat.owner == q.owner && e.chat.key == q.key && e.chat.original == original
  }

  predicate IsReclaimOf(e: Event, q: Request) {
    e.OnChat? && e.chat.Reclaim? && e.chat.whose == Some(q.owner)
  }

  /** The request was answered in this run, by its first transaction or after its main one. */
  predicate IsMade(ws: seq<World>, es: seq<Event>, q: Request) {
    && q.first < |ws| && |ws| == |es| + 1
    && (FirstAnswer(ws[q.first], q).None? ==>
          q.first <= q.reclaim < q.main < |es| && IsReclaimOf(es[q.reclaim], q) && IsMainOf(es[q.main], q))
  }

  ghost function Answer(ws: seq<World>, es: seq<Event>, q: Request): C.Reply
    requires IsMade(ws, es, q)
  {
    match FirstAnswer(ws[q.first], q)
    case Some(reply) => reply
    case None => MainReply(ws[q.main], es[q.main].chat)
  }

  ghost predicate Succeeds(ws: seq<World>, es: seq<Event>, q: Request) {
    IsMade(ws, es, q) && Answer(ws, es, q).Accepted?
  }

  /** The state n holds the record that says so. */
  predicate RecordedAt(ws: seq<World>, n: nat, id: C.RecordId, record: C.Record) {
    n < |ws| && id in ws[n].chat.records && ws[n].chat.records[id] == record
  }

  /** A request that succeeds has found its record or written it. */
  lemma SuccessIsRecorded(ws: seq<World>, es: seq<Event>, q: Request)
    requires IsRun(ws, es) && Succeeds(ws, es, q)
    ensures exists n: nat :: RecordedAt(ws, n, IdOf(q), C.Record(FingerprintOf(q), Answer(ws, es, q).id))
  {
    hide Step, Inv, AcceptReply, RetryReply, EnvOf, StepsAt;
    var id, record := IdOf(q), C.Record(FingerprintOf(q), Answer(ws, es, q).id);
    if FirstAnswer(ws[q.first], q).Some? {
      assert RecordedAt(ws, q.first, id, record);
    } else {
      var e := es[q.main].chat;
      RunsKeepInv(ws, es, q.main);
      OneStep(ws, es, q.main);
      if e.Accept? {
        AcceptRecords(ws[q.main], e);
      } else {
        RetryRecords(ws[q.main], e);
      }
      assert RecordedAt(ws, q.main + 1, id, record);
    }
  }

  /** The conversation that a recorded key is about. */
  lemma AboutSomething(w: World, id: C.RecordId) returns (c: Uuid)
    requires Inv(w) && id in w.chat.records && !id.operation.CreateConversation?
    ensures About(w.chat, id, c) && c in w.chat.conversations
    ensures id.operation.RetryGeneration? ==> id.scope in w.chat.generations && w.chat.generations[id.scope].conversation == c
    ensures id.operation.ChatCompletion? ==> id.scope == c
  {
    hide Inv;
    if id.operation.RetryGeneration? {
      RecordedOriginal(w, id);
      c := w.chat.generations[id.scope].conversation;
    } else {
      c := id.scope;
    }
    InConversations(w, id, c);
  }

  /** A key never changes its record: wherever in a run it is recorded, it is recorded the same. */
  lemma OneRecordPerKey(ws: seq<World>, es: seq<Event>, i: nat, k: nat, id: C.RecordId)
    requires IsRun(ws, es) && i <= k <= |es| && !id.operation.CreateConversation?
    requires id in ws[i].chat.records && id in ws[k].chat.records
    ensures ws[k].chat.records[id] == ws[i].chat.records[id]
  {
    hide Inv, About, StepsAt;
    RunsKeepInv(ws, es, i);
    RunsKeepInv(ws, es, k);
    var c := AboutSomething(ws[i], id);
    RecordsAreRemembered(ws, es, i, k, id, c);
    var d := AboutSomething(ws[k], id);
    if id.operation.RetryGeneration? {
      SameOriginal(ws, es, i, k, id.scope);
    }
  }

  /** However the transactions of two requests with one key interleave with each other and with everything else, whichever
      comes first, and whether they are answered by their first transaction or their main one: if both succeed they asked
      for the same and get the same generation. */
  lemma SameKeySameGeneration(ws: seq<World>, es: seq<Event>, a: Request, b: Request)
    requires IsRun(ws, es) && IdOf(a) == IdOf(b) && Succeeds(ws, es, a) && Succeeds(ws, es, b)
    ensures Answer(ws, es, a).id == Answer(ws, es, b).id && FingerprintOf(a) == FingerprintOf(b)
  {
    hide Answer, IsMade, FingerprintOf, StepsAt;
    SuccessIsRecorded(ws, es, a);
    SuccessIsRecorded(ws, es, b);
    var id := IdOf(a);
    var n: nat :| RecordedAt(ws, n, id, C.Record(FingerprintOf(a), Answer(ws, es, a).id));
    var m: nat :| RecordedAt(ws, m, id, C.Record(FingerprintOf(b), Answer(ws, es, b).id));
    if n <= m {
      OneRecordPerKey(ws, es, n, m, id);
    } else {
      OneRecordPerKey(ws, es, m, n, id);
    }
  }

  /** The event is a main transaction under this key. */
  predicate CarriesKey(e: Event, id: C.RecordId) {
    match e
    case OnChat(Accept(_, _, _, owner, conversation, _, key, _, _)) => id == C.CompletionRecord(owner, conversation, key)
    case OnChat(Retry(_, _, _, owner, original, key, _)) => id == C.RetryRecord(owner, original, key)
    case _ => false
  }

  /** And it inserts. */
  ghost predicate InsertsFor(w: World, e: Event, id: C.RecordId) {
    CarriesKey(e, id) && MainReply(w, e.chat).Accepted? && !MainReply(w, e.chat).replay
  }

  /** In a whole run at most one event inserts for a key, however many requests there are. */
  lemma InsertsOnce(ws: seq<World>, es: seq<Event>, i: nat, k: nat, id: C.RecordId)
    requires IsRun(ws, es) && i < |es| && k < |es| && InsertsFor(ws[i], es[i], id) && InsertsFor(ws[k], es[k], id)
    ensures i == k
  {
    hide AcceptReply, RetryReply, StepsAt;
    var a, b := if i < k then i else k, if i < k then k else i;
    if a < b {
      if es[a].chat.Accept? {
        OneGenerationPerKey(ws, es, a, b, es[a].chat, es[b].chat);
      } else {
        OneRetryPerKey(ws, es, a, b, es[a].chat, es[b].chat);
      }
    }
  }

  /** The messages and generations that come into being at an event. */
  ghost function NewMessages(w: World, e: Event): set<Uuid> {
    Step(w, e).chat.messages.Keys - w.chat.messages.Keys
  }

  ghost function NewGenerations(w: World, e: Event): set<Uuid> {
    Step(w, e).chat.generations.Keys - w.chat.generations.Keys
  }

  /** And that event inserts one generation, with one user message if it is a question; no other accept or retry with the
      key inserts any. */
  lemma InsertsOneRow(w: World, e: Event, id: C.RecordId)
    requires Inv(w) && CarriesKey(e, id)
    ensures if InsertsFor(w, e, id) then
        && NewGenerations(w, e) == {e.chat.newGeneration}
        && NewMessages(w, e) == (if e.chat.Accept? then {e.chat.newMessage} else {})
      else NewGenerations(w, e) == {} && NewMessages(w, e) == {}
  {
    hide CI.Inv, C.SlotCheck, C.Refusal, EnvOf, MaterialStep;
    ChatDrawn(w);
    if C.SlotCheck(w.chat, e.chat.owner, e.chat.now, e.chat.wall).Some? {
      SlotCheckKeepsKeys(w.chat, e.chat.owner, e.chat.now, e.chat.wall);
    }
  }

  lemma SlotCheckKeepsKeys(db: C.Tables, owner: Subject, now: Time, wall: Time)
    requires C.SlotCheck(db, owner, now, wall).Some?
    ensures C.SlotCheck(db, owner, now, wall).value.Keys == db.generations.Keys
  {
  }

  /** Event k inserts for the key, and this is its generation. */
  ghost predicate InsertsAs(ws: seq<World>, es: seq<Event>, k: nat, id: C.RecordId, g: Uuid) {
    k < |es| && k < |ws| && InsertsFor(ws[k], es[k], id) && es[k].chat.newGeneration == g
  }

  /** Event k is an accept that inserts for the key, and this is its message. */
  ghost predicate AsksAs(ws: seq<World>, es: seq<Event>, k: nat, id: C.RecordId, m: Uuid) {
    k < |es| && k < |ws| && InsertsFor(ws[k], es[k], id) && es[k].chat.Accept? && es[k].chat.newMessage == m
  }

  /** All generations that main transactions with the key have inserted during the first n events. */
  ghost function GenerationsFor(ws: seq<World>, es: seq<Event>, n: nat, id: C.RecordId): set<Uuid>
    requires n <= |es| < |ws|
  {
    if n == 0 then {}
    else GenerationsFor(ws, es, n - 1, id) + if CarriesKey(es[n - 1], id) then NewGenerations(ws[n - 1], es[n - 1]) else {}
  }

  /** And all user messages. */
  ghost function MessagesFor(ws: seq<World>, es: seq<Event>, n: nat, id: C.RecordId): set<Uuid>
    requires n <= |es| < |ws|
  {
    if n == 0 then {}
    else MessagesFor(ws, es, n - 1, id) + if CarriesKey(es[n - 1], id) then NewMessages(ws[n - 1], es[n - 1]) else {}
  }

  lemma {:induction false} CreatedByInsert(ws: seq<World>, es: seq<Event>, n: nat, id: C.RecordId)
    requires IsRun(ws, es) && n <= |es|
    ensures forall g :: g in GenerationsFor(ws, es, n, id) <==> exists k: nat :: k < n && InsertsAs(ws, es, k, id, g)
    ensures forall m :: m in MessagesFor(ws, es, n, id) ==> exists k: nat :: k < n && AsksAs(ws, es, k, id, m)
  {
    hide InsertsFor, CarriesKey, NewGenerations, NewMessages, StepsAt, Inv;
    if n > 0 {
      var w, e := ws[n - 1], es[n - 1];
      CreatedByInsert(ws, es, n - 1, id);
      RunsKeepInv(ws, es, n - 1);
      InsertCarries(w, e, id);
      if CarriesKey(e, id) {
        InsertsOneRow(w, e, id);
      }
      if InsertsFor(w, e, id) {
        assert InsertsAs(ws, es, n - 1, id, e.chat.newGeneration);
        assert e.chat.Accept? ==> AsksAs(ws, es, n - 1, id, e.chat.newMessage);
      }
    }
  }

  lemma InsertCarries(w: World, e: Event, id: C.RecordId)
    ensures InsertsFor(w, e, id) ==> CarriesKey(e, id)
    ensures CarriesKey(e, id) ==> e.OnChat? && (e.chat.Accept? || e.chat.Retry?)
  {
  }

  /** What a step may do to a record of a completion or retry, apart from deleting it. */
  ghost predicate RecordKeptOrInserted(w: World, e: Event, after: C.Tables, id: C.RecordId) {
    id in after.records ==>
      || (id in w.chat.records && w.chat.records[id] == after.records[id])
      || (InsertsFor(w, e, id) && after.records[id].result == e.chat.newGeneration)
  }

  lemma InsertsRecord(w: World, e: ChatEvent, id: C.RecordId)
    requires e.Accept? || e.Retry?
    ensures RecordKeptOrInserted(w, OnChat(e), ChatStep(w.chat, EnvOf(w.material), e), id)
  {
    hide C.SlotCheck, C.Refusal, EnvOf;
  }

  lemma OthersInsertNoRecord(w: World, e: ChatEvent, id: C.RecordId)
    requires !e.Accept? && !e.Retry? && !id.operation.CreateConversation?
    ensures RecordKeptOrInserted(w, OnChat(e), ChatStep(w.chat, EnvOf(w.material), e), id)
  {
    hide C.Accept, C.Retry, EnvOf, InsertsFor;
  }

  lemma DeleteInsertsNoRecord(db: C.Tables, owner: Subject, p: Uuid, id: C.RecordId)
    ensures var after := C.DeleteChat(db, owner, p);
      id in after.records ==> id in db.records && after.records[id] == db.records[id]
  {
  }

  /** A record comes into being only with an insert. */
  lemma RecordStep(w: World, e: Event, id: C.RecordId)
    requires !id.operation.CreateConversation?
    ensures RecordKeptOrInserted(w, e, Step(w, e).chat, id)
  {
    hide MaterialStep, ChatStep, C.DeleteChat, EnvOf, InsertsFor;
    match e
    case OnMaterial(_) =>
    case OnChat(chat) =>
      if chat.Accept? || chat.Retry? {
        InsertsRecord(w, chat, id);
      } else {
        OthersInsertNoRecord(w, chat, id);
      }
    case DeletePersona(owner, p, _) => DeleteInsertsNoRecord(w.chat, owner, p, id);
  }

  lemma {:induction false} RecordedWasInserted(ws: seq<World>, es: seq<Event>, n: nat, id: C.RecordId)
    requires IsRun(ws, es) && n <= |es| && id in ws[n].chat.records && !id.operation.CreateConversation?
    ensures exists k: nat :: k < n && InsertsAs(ws, es, k, id, ws[n].chat.records[id].result)
  {
    hide InsertsFor, StepsAt, Step;
    if n > 0 {
      OneStep(ws, es, n - 1);
      RecordStep(ws[n - 1], es[n - 1], id);
      if id in ws[n - 1].chat.records && ws[n - 1].chat.records[id] == ws[n].chat.records[id] {
        RecordedWasInserted(ws, es, n - 1, id);
      } else {
        assert InsertsAs(ws, es, n - 1, id, ws[n].chat.records[id].result);
      }
    }
  }

  /** In a whole run all main transactions with one key together insert at most one generation and one user message. */
  lemma AtMostOneRow(ws: seq<World>, es: seq<Event>, n: nat, id: C.RecordId)
    requires IsRun(ws, es) && n <= |es|
    ensures |GenerationsFor(ws, es, n, id)| <= 1 && |MessagesFor(ws, es, n, id)| <= 1
  {
    hide InsertsFor, StepsAt, GenerationsFor, MessagesFor;
    CreatedByInsert(ws, es, n, id);
    var generations, messages := GenerationsFor(ws, es, n, id), MessagesFor(ws, es, n, id);
    forall g, h | g in generations && h in generations
      ensures g == h
    {
      var i: nat :| i < n && InsertsAs(ws, es, i, id, g);
      var k: nat :| k < n && InsertsAs(ws, es, k, id, h);
      InsertsOnce(ws, es, i, k, id);
    }
    forall a, b | a in messages && b in messages
      ensures a == b
    {
      var i: nat :| i < n && AsksAs(ws, es, i, id, a);
      var k: nat :| k < n && AsksAs(ws, es, k, id, b);
      InsertsOnce(ws, es, i, k, id);
    }
    AllSame(generations);
    AllSame(messages);
  }

  lemma AllSame(ids: set<Uuid>)
    requires forall a, b :: a in ids && b in ids ==> a == b
    ensures |ids| <= 1
  {
    if ids != {} {
      var a :| a in ids;
      assert ids == {a};
    }
  }

  /** And what a request that succeeds returns is that generation. */
  lemma SuccessReturnsTheInserted(ws: seq<World>, es: seq<Event>, q: Request)
    requires IsRun(ws, es) && Succeeds(ws, es, q)
    ensures GenerationsFor(ws, es, |es|, IdOf(q)) == {Answer(ws, es, q).id}
  {
    hide InsertsFor, StepsAt, GenerationsFor, Answer, IsMade, FingerprintOf;
    var id := IdOf(q);
    SuccessIsRecorded(ws, es, q);
    var n: nat :| RecordedAt(ws, n, id, C.Record(FingerprintOf(q), Answer(ws, es, q).id));
    RecordedWasInserted(ws, es, n, id);
    var g := Answer(ws, es, q).id;
    var k: nat :| k < n && InsertsAs(ws, es, k, id, g);
    CreatedByInsert(ws, es, |es|, id);
    assert g in GenerationsFor(ws, es, |es|, id);
    AtMostOneRow(ws, es, |es|, id);
    OnlyOne(GenerationsFor(ws, es, |es|, id), g);
  }

  lemma OnlyOne(ids: set<Uuid>, g: Uuid)
    requires g in ids && |ids| <= 1
    ensures ids == {g}
  {
    assert |ids - {g}| == 0;
  }
}
