/** The ChatStore of chat/repository.py: the tables are its fields, each method is one call of the store, and every method
    is proved to do exactly what the transaction functions of ChatTables say. */
module ChatStores {
  import opened Basics
  import opened Prompt
  import opened Generations
  import opened ChatTables
  import CI = ChatInvariant
  import R = Runs

  /** One row of the history query. */
  datatype HistoryRow = HistoryRow(message: Uuid, question: string, answer: string)

  const HISTORY_LOOKBACK_TURNS: nat := 20

  /** An answer that counts: the newest completed attempt at a message of the conversation before the given one. */
  predicate Answered(db: Tables, conversation: Uuid, before: Uuid, row: HistoryRow) {
    && row.message in db.messages && db.messages[row.message].conversation == conversation
    && before in db.messages && row.message != before
    && NotAfter(db.messages[row.message].createdAt, row.message, db.messages[before].createdAt, before)
    && db.messages[row.message].content == row.question
    && exists g :: g in db.generations && CompletedAttempt(db, g, row.message) && db.generations[g].content == row.answer
         && forall h :: h in db.generations && CompletedAttempt(db, h, row.message) ==>
              db.generations[h].createdAt <= db.generations[g].createdAt
  }

  predicate CompletedAttempt(db: Tables, g: Uuid, message: Uuid) {
    g in db.generations && db.generations[g].message == message && db.generations[g].status.Completed?
  }

  /** The rows of the history query: newest first, each message once, at most the lookback, and none left out that is
      newer than the last one. */
  ghost predicate SelectsHistory(db: Tables, conversation: Uuid, before: Uuid, rows: seq<HistoryRow>) {
    && |rows| <= HISTORY_LOOKBACK_TURNS
    && (forall i :: 0 <= i < |rows| ==> Answered(db, conversation, before, rows[i]))
    && (forall i, j :: 0 <= i < j < |rows| ==>
          rows[i].message != rows[j].message && db.messages[rows[j].message].createdAt <= db.messages[rows[i].message].createdAt)
    && (forall other :: Answered(db, conversation, before, other) ==>
          (exists i :: 0 <= i < |rows| && rows[i].message == other.message)
          || (|rows| == HISTORY_LOOKBACK_TURNS
              && db.messages[other.message].createdAt <= db.messages[rows[|rows| - 1].message].createdAt))
  }

  /** Rows that come newest first, as a dialogue that starts with the oldest. */
  function Dialogue(rows: seq<HistoryRow>): seq<Message> {
    if rows == [] then []
    else Dialogue(rows[1..]) + [Message(User, rows[0].question), Message(Assistant, rows[0].answer)]
  }

  /** Whole exchanges only, which is what the prompt builder counts on. */
  lemma {:induction false} DialogueIsExchanges(rows: seq<HistoryRow>)
    ensures |Dialogue(rows)| == 2 * |rows| && Exchanges(Dialogue(rows))
  {
    if rows != [] {
      DialogueIsExchanges(rows[1..]);
      OneMoreExchange(Dialogue(rows[1..]), rows[0]);
    }
  }

  lemma OneMoreExchange(history: seq<Message>, row: HistoryRow)
    requires Exchanges(history)
    ensures Exchanges(history + [Message(User, row.question), Message(Assistant, row.answer)])
  {
  }

  /** Turn i of a history is this message with the newest completed answer to it. */
  predicate TurnIs(db: Tables, conversation: Uuid, before: Uuid, message: Uuid, history: seq<Message>, i: nat) {
    && 2 * i + 1 < |history| && history[2 * i].role.User? && history[2 * i + 1].role.Assistant?
    && Answered(db, conversation, before, HistoryRow(message, history[2 * i].content, history[2 * i + 1].content))
  }

  predicate NotLater(db: Tables, m: Uuid, n: Uuid) {
    m in db.messages && n in db.messages && db.messages[m].createdAt <= db.messages[n].createdAt
  }

  predicate TurnsAreAnswers(db: Tables, conversation: Uuid, before: Uuid, ids: seq<Uuid>, history: seq<Message>) {
    forall i :: 0 <= i < |ids| ==> TurnIs(db, conversation, before, ids[i], history, i)
  }

  predicate OldestFirst(db: Tables, ids: seq<Uuid>) {
    forall i, j :: 0 <= i < j < |ids| ==> ids[i] != ids[j] && NotLater(db, ids[i], ids[j])
  }

  /** An answered message is taken up, unless the history is full and the message is not newer than its first. */
  predicate Covers(db: Tables, ids: seq<Uuid>, m: Uuid) {
    m in ids || (|ids| == HISTORY_LOOKBACK_TURNS && NotLater(db, m, ids[0]))
  }

  ghost predicate NoneMissing(db: Tables, conversation: Uuid, before: Uuid, ids: seq<Uuid>) {
    forall other :: Answered(db, conversation, before, other) ==> Covers(db, ids, other.message)
  }

  /** What a history says of the tables: it takes up these messages, oldest first, each with the newest completed answer to
      it, and leaves out no answered message before the given one for which there was room. */
  ghost predicate IsHistory(db: Tables, conversation: Uuid, before: Uuid, ids: seq<Uuid>, history: seq<Message>) {
    && |ids| <= HISTORY_LOOKBACK_TURNS && |history| == 2 * |ids|
    && TurnsAreAnswers(db, conversation, before, ids, history)
    && OldestFirst(db, ids) && NoneMissing(db, conversation, before, ids)
  }

  lemma {:induction false} DialogueAt(rows: seq<HistoryRow>, i: nat)
    requires i < |rows|
    ensures |Dialogue(rows)| == 2 * |rows|
    ensures var row, k := rows[|rows| - 1 - i], 2 * i;
      Dialogue(rows)[k] == Message(User, row.question) && Dialogue(rows)[k + 1] == Message(Assistant, row.answer)
  {
    DialogueIsExchanges(rows);
    if i < |rows| - 1 {
      DialogueAt(rows[1..], i);
    } else {
      DialogueIsExchanges(rows[1..]);
    }
  }

  function MessagesOf(rows: seq<HistoryRow>): (ids: seq<Uuid>)
    ensures |ids| == |rows| && forall i :: 0 <= i < |rows| ==> ids[i] == rows[|rows| - 1 - i].message
  {
    seq(|rows|, i requires 0 <= i < |rows| => rows[|rows| - 1 - i].message)
  }

  lemma RowIsAnswered(db: Tables, conversation: Uuid, before: Uuid, rows: seq<HistoryRow>, i: nat)
    requires SelectsHistory(db, conversation, before, rows) && i < |rows|
    ensures Answered(db, conversation, before, rows[i]) && rows[i].message in db.messages && |rows| <= HISTORY_LOOKBACK_TURNS
  {
  }

  lemma TurnIsAnswer(db: Tables, conversation: Uuid, before: Uuid, rows: seq<HistoryRow>, i: nat)
    requires SelectsHistory(db, conversation, before, rows) && i < |rows|
    ensures TurnIs(db, conversation, before, MessagesOf(rows)[i], Dialogue(rows), i)
  {
    hide Dialogue, Answered, SelectsHistory;
    DialogueAt(rows, i);
    RowIsAnswered(db, conversation, before, rows, |rows| - 1 - i);
  }

  lemma PairInOrder(db: Tables, conversation: Uuid, before: Uuid, rows: seq<HistoryRow>, i: nat, j: nat)
    requires SelectsHistory(db, conversation, before, rows) && i < j < |rows|
    ensures rows[i].message != rows[j].message && NotLater(db, rows[j].message, rows[i].message)
  {
    RowIsAnswered(db, conversation, before, rows, i);
    RowIsAnswered(db, conversation, before, rows, j);
    hide Answered;
  }

  lemma RowsInOrder(db: Tables, conversation: Uuid, before: Uuid, rows: seq<HistoryRow>)
    requires SelectsHistory(db, conversation, before, rows)
    ensures OldestFirst(db, MessagesOf(rows))
  {
    hide SelectsHistory, NotLater;
    forall i, j | 0 <= i < j < |rows|
      ensures MessagesOf(rows)[i] != MessagesOf(rows)[j] && NotLater(db, MessagesOf(rows)[i], MessagesOf(rows)[j])
    {
      PairInOrder(db, conversation, before, rows, |rows| - 1 - j, |rows| - 1 - i);
    }
  }

  lemma RowCovers(db: Tables, conversation: Uuid, before: Uuid, rows: seq<HistoryRow>, other: HistoryRow)
    requires SelectsHistory(db, conversation, before, rows) && Answered(db, conversation, before, other)
    ensures Covers(db, MessagesOf(rows), other.message)
  {
    if i :| 0 <= i < |rows| && rows[i].message == other.message {
      assert MessagesOf(rows)[|rows| - 1 - i] == other.message;
    } else {
      assert Answered(db, conversation, before, rows[|rows| - 1]);
    }
  }

  /** The dialogue of the query's rows is the history of the newest answered messages. */
  lemma DialogueIsHistory(db: Tables, conversation: Uuid, before: Uuid, rows: seq<HistoryRow>)
    requires SelectsHistory(db, conversation, before, rows)
    ensures IsHistory(db, conversation, before, MessagesOf(rows), Dialogue(rows))
  {
    hide Answered, Exchanges, Dialogue, SelectsHistory, TurnIs, Covers, OldestFirst;
    DialogueIsExchanges(rows);
    if rows != [] {
      RowIsAnswered(db, conversation, before, rows, 0);
    }
    RowsInOrder(db, conversation, before, rows);
    forall i | 0 <= i < |rows|
      ensures TurnIs(db, conversation, before, MessagesOf(rows)[i], Dialogue(rows), i)
    {
      TurnIsAnswer(db, conversation, before, rows, i);
    }
    forall other | Answered(db, conversation, before, other)
      ensures Covers(db, MessagesOf(rows), other.message)
    {
      RowCovers(db, conversation, before, rows, other);
    }
  }

  /** The state right after the reclaim of a request that began in w. */
  ghost function AfterReclaim(w: R.World, others: seq<seq<R.Event>>, owner: Subject, reclaimTime: Time): R.World
    requires |others| == 2
  {
    R.Step(R.Played(w, others[0]), R.OnChat(R.Reclaim(Some(owner), reclaimTime)))
  }

  /** The state its main transaction finds. */
  ghost function BeforeMain(w: R.World, others: seq<seq<R.Event>>, owner: Subject, reclaimTime: Time): R.World
    requires |others| == 2
  {
    R.Played(AfterReclaim(w, others, owner, reclaimTime), others[1])
  }

  lemma ReclaimStep(w: R.World, others: seq<seq<R.Event>>, owner: Subject, reclaimTime: Time)
    requires R.Inv(w) && |others| == 2
    ensures AfterReclaim(w, others, owner, reclaimTime).chat
      == ChatTables.Reclaim(R.Played(w, others[0]).chat, Some(owner), reclaimTime)
    ensures var main := BeforeMain(w, others, owner, reclaimTime); CI.Inv(main.chat, R.EnvOf(main.material))
  {
    hide CI.Inv, R.MI.Inv, R.MaterialStep, R.EnvOf, ChatTables.Reclaim;
    R.PlayedKeepsInv(w, others[0]);
    R.StepKeepsInv(R.Played(w, others[0]), R.OnChat(R.Reclaim(Some(owner), reclaimTime)));
    R.PlayedKeepsInv(AfterReclaim(w, others, owner, reclaimTime), others[1]);
  }

  class ChatStore {
    var conversations: map<Uuid, Conversation>
    var messages: map<Uuid, UserMessage>
    var generations: map<Uuid, Generation>
    var records: map<RecordId, Record>
    var drawn: set<Uuid>
    var disconnects: nat
    var reclaimed: nat
    const me: Instance

    constructor (me: Instance)
      ensures View() == EMPTY && this.me == me
    {
      conversations, messages, generations, records := map[], map[], map[], map[];
      drawn, disconnects, reclaimed := {}, 0, 0;
      this.me := me;
    }

    /** The tables as a value. */
    function View(): Tables
      reads this
    {
      Tables(conversations, messages, generations, records, drawn, disconnects, reclaimed)
    }

    /** The transactions that others have committed since this process last looked. */
    method SeeOthers(tables: Tables, ghost w: R.World, ghost others: seq<R.Event>)
      requires w.chat == View() && tables == R.Played(w, others).chat
      modifies this
      ensures View() == R.Played(w, others).chat
    {
      conversations, messages, generations := tables.conversations, tables.messages, tables.generations;
      records, drawn := tables.records, tables.drawn;
      disconnects, reclaimed := tables.disconnects, tables.reclaimed;
    }

    method CreateConversation(env: Env, owner: Subject, persona: Uuid, key: Uuid, newConversation: Uuid)
      returns (reply: Reply)
      modifies this`conversations, this`records, this`drawn
      ensures (View(), reply) == OpenNewConversation(old(View()), env, owner, persona, key, newConversation)
    {
      var id, fingerprint := RecordId(owner, ChatTables.CreateConversation, persona, key), OfConversation(persona);
      if id in records {
        if records[id].fingerprint != fingerprint {
          return IdempotencyConflict;
        }
        return Accepted(records[id].result, true);
      }
      if persona !in env.personas || env.personas[persona].owner != owner || env.personas[persona].deleted {
        return PersonaNotFound;
      }
      var view := env.personas[persona];
      if view.active.None? {
        return NoActiveVersion;
      }
      if newConversation in drawn {
        return UuidRepeated;
      }
      conversations := conversations[newConversation := Conversation(persona, owner, view.active.value, view.name)];
      records := records[id := Record(fingerprint, newConversation)];
      drawn := drawn + {newConversation};
      return Accepted(newConversation, false);
    }

    // -------------------------------------------------------------- accepting

    method ReplayBeforeReclaim(env: Env, id: RecordId, fingerprint: Fingerprint) returns (r: Option<Reply>)
      ensures r == ChatTables.ReplayBeforeReclaim(View(), env, id, fingerprint)
    {
      if id.owner !in env.users {
        return None;
      }
      if id !in records {
        return None;
      }
      var record := records[id];
      if record.fingerprint != fingerprint {
        return Some(IdempotencyConflict);
      }
      return Some(Accepted(record.result, true));
    }

    method ReclaimUserExpired(owner: Subject, now: Time) returns (count: nat)
      modifies this`generations, this`reclaimed
      ensures View() == Reclaim(old(View()), Some(owner), now)
      ensures count == |ReclaimedRows(old(View()), Some(owner), now)|
    {
      var rows := ReclaimedRows(View(), Some(owner), now);
      generations := map g | g in generations :: if g in rows then Reclaimed(generations[g], now) else generations[g];
      count := |rows|;
      reclaimed := reclaimed + count;
    }

    method ReclaimExpired(now: Time) returns (count: nat)
      modifies this`generations, this`reclaimed
      ensures View() == Reclaim(old(View()), None, now)
      ensures count == |ReclaimedRows(old(View()), None, now)|
    {
      var rows := ReclaimedRows(View(), None, now);
      generations := map g | g in generations :: if g in rows then Reclaimed(generations[g], now) else generations[g];
      count := |rows|;
      reclaimed := reclaimed + count;
    }

    /** False stands for GenerationInProgress. The query reads one row; that it is the only one is the invariant. */
    method RejectOrResolveActive(owner: Subject, now: Time, wall: Time, ghost env: Env) returns (ok: bool)
      requires CI.Inv(View(), env)
      modifies this`generations
      ensures ok <==> SlotCheck(old(View()), owner, now, wall).Some?
      ensures ok ==> Some(generations) == SlotCheck(old(View()), owner, now, wall)
      ensures !ok ==> View() == old(View())
    {
      if !exists g :: g in generations && IsNewestActive(View(), owner, g) {
        return true;
      }
      var g :| g in generations && IsNewestActive(View(), owner, g);
      OnlyOneActive(View(), env, owner, g);
      var row := generations[g];
      if row.status.Reconciling? || row.status.CancelRequested? {
        if wall - row.heartbeatAt > RECONCILIATION_TIMEOUT_SECONDS {
          generations := generations[g := GivenUp(row, now)];
          return true;
        }
      }
      return false;
    }

    /** The main transaction of create_generation_queued: an exception rolls everything back. */
    method AcceptInTransaction(
      env: Env, now: Time, wall: Time, owner: Subject, conversation: Uuid, message: string, key: Uuid,
      newMessage: Uuid, newGeneration: Uuid) returns (reply: Reply)
      requires CI.Inv(View(), env)
      modifies this
      ensures (View(), reply)
        == Accept(old(View()), env, now, wall, me, owner, conversation, message, key, newMessage, newGeneration)
    {
      var id, fingerprint := CompletionRecord(owner, conversation, key), OfCompletion(conversation, message);
      if owner !in env.users {
        return ConversationNotFound;
      }
      if id in records {
        if records[id].fingerprint != fingerprint {
          return IdempotencyConflict;
        }
        return Accepted(records[id].result, true);
      }
      if !OpenConversation(View(), env, conversation, owner) {
        return ConversationNotFound;
      }
      var persona := conversations[conversation].persona;
      var rollback := generations;
      var free := RejectOrResolveActive(owner, now, wall, env);
      if !free {
        return GenerationInProgress;
      }
      var version := env.personas[persona].active;
      if version.None? {
        generations := rollback;
        return NoActiveVersion;
      }
      if newMessage in drawn || newGeneration in drawn || newMessage == newGeneration {
        generations := rollback;
        return UuidRepeated;
      }
      messages := messages[newMessage := UserMessage(conversation, message, now)];
      var row := Generation(conversation, newMessage, version.value, me.mode, Queued, "", [], None, None, None, None,
        now, now, None);
      generations := generations[newGeneration := row];
      StampOwner(newGeneration, now);
      assert generations == SlotCheck(old(View()), owner, now, wall).value[
        newGeneration := QueuedRow(conversation, newMessage, version.value, me, now)];
      records := records[id := Record(fingerprint, newGeneration)];
      drawn := drawn + {newMessage, newGeneration};
      return Accepted(newGeneration, false);
    }

    method StampOwner(g: Uuid, now: Time)
      requires g in generations
      modifies this`generations
      ensures generations == old(generations)[g := Stamped(old(generations[g]), me, now)]
    {
      generations := generations[g := generations[g].(lease := Some(Lease(me.id, now + me.leaseSeconds)))];
    }

    /** create_generation_queued: three transactions. Whatever the others commit between them is in `others`: after the
        first transaction, and after the reclaim; the tables and the persona tables' view are then as given. */
    method CreateGenerationQueued(
      env0: Env, afterReplay: Tables, reclaimTime: Time, afterReclaim: Tables, env: Env, now: Time, wall: Time,
      owner: Subject, conversation: Uuid, message: string, key: Uuid, newMessage: Uuid, newGeneration: Uuid,
      ghost w: R.World, ghost others: seq<seq<R.Event>>) returns (reply: Reply)
      requires R.Inv(w) && w.chat == View() && env0 == R.EnvOf(w.material) && |others| == 2
      requires afterReplay == R.Played(w, others[0]).chat
      requires var main := BeforeMain(w, others, owner, reclaimTime);
        afterReclaim == main.chat && env == R.EnvOf(main.material)
      modifies this
      ensures var first := ChatTables.ReplayBeforeReclaim(
          old(View()), env0, CompletionRecord(owner, conversation, key), OfCompletion(conversation, message));
        if first.Some? then
          // a replay or a conflict is answered before anything is written
          reply == first.value && View() == old(View())
        else
          var main := BeforeMain(w, others, owner, reclaimTime);
          (View(), reply) == Accept(
            main.chat, R.EnvOf(main.material), now, wall, me, owner, conversation, message, key, newMessage, newGeneration)
    {
      hide R.Inv, R.EnvOf, Accept;
      var replayed := ReplayBeforeReclaim(
        env0, CompletionRecord(owner, conversation, key), OfCompletion(conversation, message));
      if replayed.Some? {
        return replayed.value;
      }
      ReclaimStep(w, others, owner, reclaimTime);
      SeeOthers(afterReplay, w, others[0]);
      var _ := ReclaimUserExpired(owner, reclaimTime);
      SeeOthers(afterReclaim, AfterReclaim(w, others, owner, reclaimTime), others[1]);
      reply := AcceptInTransaction(
        env, now, wall, owner, conversation, message, key, newMessage, newGeneration);
    }

    /** The main transaction of create_retry_generation. */
    method RetryInTransaction(
      env: Env, now: Time, wall: Time, owner: Subject, original: Uuid, key: Uuid, newGeneration: Uuid)
      returns (reply: Reply)
      requires CI.Inv(View(), env)
      modifies this
      ensures (View(), reply) == Retry(old(View()), env, now, wall, me, owner, original, key, newGeneration)
    {
      var id, fingerprint := RetryRecord(owner, original, key), OfRetry(original);
      if owner !in env.users {
        return GenerationNotFound;
      }
      if id in records {
        if records[id].fingerprint != fingerprint {
          return IdempotencyConflict;
        }
        return Accepted(records[id].result, true);
      }
      if original !in generations || !OpenConversation(View(), env, generations[original].conversation, owner) {
        return GenerationNotFound;
      }
      var row := generations[original];
      if !Terminal(row.status) {
        return RetryNotAllowed(GenerationActive);
      }
      if row.snapshot.None? {
        return RetryNotAllowed(InputUnavailable);
      }
      if !LatestMessage(View(), row.message) {
        return RetryNotAllowed(NotLatest);
      }
      if !LatestAttempt(View(), original) {
        return RetryNotAllowed(NotLatest);
      }
      var rollback := generations;
      var free := RejectOrResolveActive(owner, now, wall, env);
      if !free {
        return GenerationInProgress;
      }
      if newGeneration in drawn {
        generations := rollback;
        return UuidRepeated;
      }
      var attempt := Generation(row.conversation, row.message, row.version, me.mode, Running, "",
        row.snapshot.value.citations, None, Some(original), row.snapshot, None, now, now, None);
      generations := generations[newGeneration := attempt];
      StampOwner(newGeneration, now);
      assert generations == SlotCheck(old(View()), owner, now, wall).value[
        newGeneration := RetryRow(original, row, row.snapshot.value, me, now)];
      records := records[id := Record(fingerprint, newGeneration)];
      drawn := drawn + {newGeneration};
      return Accepted(newGeneration, false);
    }

    /** create_retry_generation: the same three steps. */
    method CreateRetryGeneration(
      env0: Env, afterReplay: Tables, reclaimTime: Time, afterReclaim: Tables, env: Env, now: Time, wall: Time,
      owner: Subject, original: Uuid, key: Uuid, newGeneration: Uuid,
      ghost w: R.World, ghost others: seq<seq<R.Event>>) returns (reply: Reply)
      requires R.Inv(w) && w.chat == View() && env0 == R.EnvOf(w.material) && |others| == 2
      requires afterReplay == R.Played(w, others[0]).chat
      requires var main := BeforeMain(w, others, owner, reclaimTime);
        afterReclaim == main.chat && env == R.EnvOf(main.material)
      modifies this
      ensures var first := ChatTables.ReplayBeforeReclaim(
          old(View()), env0, RetryRecord(owner, original, key), OfRetry(original));
        if first.Some? then reply == first.value && View() == old(View())
        else
          var main := BeforeMain(w, others, owner, reclaimTime);
          (View(), reply)
          == Retry(main.chat, R.EnvOf(main.material), now, wall, me, owner, original, key, newGeneration)
    {
      hide R.Inv, R.EnvOf, Retry;
      var replayed := ReplayBeforeReclaim(env0, RetryRecord(owner, original, key), OfRetry(original));
      if replayed.Some? {
        return replayed.value;
      }
      ReclaimStep(w, others, owner, reclaimTime);
      SeeOthers(afterReplay, w, others[0]);
      var _ := ReclaimUserExpired(owner, reclaimTime);
      SeeOthers(afterReclaim, AfterReclaim(w, others, owner, reclaimTime), others[1]);
      reply := RetryInTransaction(env, now, wall, owner, original, key, newGeneration);
    }

    // -------------------------------------------------------------- one row

    method MarkGenerationRunning(g: Uuid, snapshot: Snapshot, now: Time)
      modifies this`generations
      ensures View() == MarkRunning(old(View()), g, snapshot, me, now)
    {
      if g in generations && generations[g].status.Queued? {
        generations := generations[g := generations[g].(
          status := Running, citations := snapshot.citations, snapshot := Some(snapshot), heartbeatAt := now)];
        StampOwner(g, now);
      } else if g in generations {
        assert generations == generations[g := generations[g]];
      }
    }

    /** None stands for the exception about a row that is gone. */
    method FinishGeneration(g: Uuid, verdict: Verdict, content: string, now: Time) returns (stored: Option<Generation>)
      modifies this`generations
      ensures View() == Finish(old(View()), g, verdict, content, now)
      ensures stored == if g in generations then Some(generations[g]) else None
    {
      if g !in generations {
        return None;
      }
      var row := generations[g];
      if Live(row.status) {
        var cancelled := row.status.CancelRequested?;
        generations := generations[g := row.(
          status := if cancelled then Cancelled else if verdict.Success? then Completed else Failed,
          content := content,
          failureCode := if cancelled || verdict.Success? then None else Some(verdict.code),
          finishedAt := Some(now))];
      } else {
        assert generations == generations[g := row];
      }
      return Some(generations[g]);
    }

    method MarkGenerationReconciling(g: Uuid, now: Time) returns (changed: bool)
      modifies this`generations, this`disconnects
      ensures View() == Disconnect(old(View()), g, now)
      ensures changed <==> g in old(generations) && Live(old(generations[g].status))
    {
      changed := g in generations && Live(generations[g].status);
      if changed {
        generations := generations[g := generations[g].(status := Reconciling, heartbeatAt := now)];
        disconnects := disconnects + 1;
      }
    }

    method RequestCancel(owner: Subject, g: Uuid, now: Time) returns (found: bool)
      modifies this`generations
      ensures View() == ChatTables.RequestCancel(old(View()), owner, g, now)
      ensures found <==> g in generations && OwnerOf(View(), generations[g]) == Some(owner)
    {
      if g !in generations || OwnerOf(View(), generations[g]) != Some(owner) {
        return false;
      }
      var row := generations[g];
      if row.status.Queued? || row.status.Running? {
        generations := generations[g := row.(status := CancelRequested, heartbeatAt := now)];
      } else {
        assert generations == generations[g := row];
      }
      return true;
    }

    // -------------------------------------------------------------- the instance's rows

    /** The rows with their status, which the heartbeat looks through for cancel requests. */
    method ExtendOwnLeases(now: Time) returns (owned: map<Uuid, Status>)
      modifies this`generations
      ensures View() == ExtendLeases(old(View()), me, now)
      ensures owned.Keys == OwnedRows(old(View()), me.id)
      ensures forall g :: g in owned ==> g in generations && owned[g] == generations[g].status
    {
      owned := map g | g in generations && Owns(generations[g], me.id) :: generations[g].status;
      generations := map g | g in generations :: Extended(generations[g], me, now);
    }

    method ReleaseOwnGenerations(now: Time) returns (count: nat)
      modifies this`generations, this`reclaimed
      ensures View() == Release(old(View()), me.id, now)
      ensures count == |OwnedRows(old(View()), me.id)|
    {
      count := |OwnedRows(View(), me.id)|;
      generations := map g | g in generations :: Released(generations[g], me.id, now);
      reclaimed := reclaimed + count;
    }

    // -------------------------------------------------------------- deleting a persona

    method ChatIsBusy(persona: Uuid) returns (busy: bool)
      ensures busy <==> ChatBusy(View(), persona)
    {
      busy := exists g :: g in generations
                && Active(generations[g].status) && OfPersona(View(), generations[g].conversation, persona);
    }

    /** _delete_chat_records: what refers to a row goes before the row. */
    method DeleteChatRecords(owner: Subject, persona: Uuid)
      modifies this`conversations, this`messages, this`generations, this`records
      ensures View() == DeleteChat(old(View()), owner, persona)
    {
      var conversationIds := set c | c in conversations && conversations[c].persona == persona;
      if conversationIds == {} {
        forall c | c in conversations
          ensures conversations[c].persona != persona
        {
          assert c !in conversationIds;
        }
        NoConversations(View(), owner, persona);
        return;
      }
      var generationIds := set g | g in generations && generations[g].conversation in conversationIds;
      records := map id | id in records
        && !(id.owner == owner && records[id].result in conversationIds + generationIds) :: records[id];
      generations := map g | g in generations && g !in generationIds :: generations[g];
      messages := map m | m in messages && messages[m].conversation !in conversationIds :: messages[m];
      conversations := map c | c in conversations && c !in conversationIds :: conversations[c];
    }

    // -------------------------------------------------------------- history

    /** `rows` is the result of the query. The history that comes out is whole exchanges, oldest first, each the question
        and the newest completed answer to it. */
    method LoadHistory(conversation: Uuid, before: Uuid, rows: seq<HistoryRow>) returns (history: seq<Message>)
      requires SelectsHistory(View(), conversation, before, rows)
      ensures Exchanges(history) && IsHistory(View(), conversation, before, MessagesOf(rows), history)
    {
      hide SelectsHistory, Exchanges, IsHistory;
      history := [];
      assert rows[|rows|..] == [];
      for n := 0 to |rows|
        invariant history == Dialogue(rows[|rows| - n..])
      {
        var row := rows[|rows| - 1 - n];
        history := history + [Message(User, row.question)];
        history := history + [Message(Assistant, row.answer)];
        assert rows[|rows| - (n + 1)..][1..] == rows[|rows| - n..];
      }
      assert rows[0..] == rows;
      DialogueIsExchanges(rows);
      DialogueIsHistory(View(), conversation, before, rows);
    }
  }

  lemma NoConversations(db: Tables, owner: Subject, persona: Uuid)
    requires forall c :: c in db.conversations ==> db.conversations[c].persona != persona
    ensures DeleteChat(db, owner, persona) == db
  {
    var after := DeleteChat(db, owner, persona);
    assert after.conversations == db.conversations;
    assert after.messages == db.messages;
    assert after.generations == db.generations;
    assert after.records == db.records;
  }

  lemma OnlyOneActive(db: Tables, env: Env, owner: Subject, g: Uuid)
    requires CI.Inv(db, env) && IsNewestActive(db, owner, g)
    ensures forall h :: IsNewestActive(db, owner, h) ==> h == g
  {
    hide CI.Linked, CI.Rooted, CI.RecordsHold, CI.AllDrawn;
  }
}
