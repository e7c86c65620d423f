/** The invariant of the chat tables, kept by every transaction whoever runs it and in whatever order. */
module ChatInvariant {
  import opened Basics
  import opened Generations
  import opened ChatTables

  // ---------------------------------------------------------------- the invariant

  /** Foreign keys between the chat tables. */
  ghost predicate Linked(db: Tables) {
    && (forall m :: m in db.messages ==> db.messages[m].conversation in db.conversations)
    && (forall g :: g in db.generations ==> RowLinked(db, db.generations[g]))
  }

  predicate RowLinked(db: Tables, r: Generation) {
    && r.conversation in db.conversations && r.message in db.messages
    && db.messages[r.message].conversation == r.conversation
    && (r.retryOf.Some? ==> IsAttempt(db, r.retryOf.value, r.message))
  }

  predicate IsAttempt(db: Tables, g: Uuid, message: Uuid) {
    g in db.generations && db.generations[g].message == message
  }

  /** A conversation belongs to a living persona of the same user. */
  ghost predicate Rooted(db: Tables, env: Env) {
    forall c :: c in db.conversations ==> ConversationRooted(db.conversations[c], env)
  }

  predicate ConversationRooted(c: Conversation, env: Env) {
    && c.owner in env.users
    && c.persona in env.personas && env.personas[c.persona].owner == c.owner && !env.personas[c.persona].deleted
  }

  /** What an idempotency record points to. */
  predicate RecordHolds(db: Tables, id: RecordId, record: Record) {
    match id.operation
    case CreateConversation =>
      record.fingerprint == OfConversation(id.scope)
      && record.result in db.conversations
      && db.conversations[record.result].owner == id.owner && db.conversations[record.result].persona == id.scope
    case ChatCompletion =>
      && record.result in db.generations
      && OwnerOf(db, db.generations[record.result]) == Some(id.owner)
      && db.generations[record.result].retryOf == None
      && db.generations[record.result].conversation == id.scope
      && db.generations[record.result].message in db.messages
      && record.fingerprint == OfCompletion(id.scope, db.messages[db.generations[record.result].message].content)
    case RetryGeneration =>
      && record.result in db.generations
      && OwnerOf(db, db.generations[record.result]) == Some(id.owner)
      && db.generations[record.result].retryOf == Some(id.scope)
      && record.fingerprint == OfRetry(id.scope)
  }

  ghost predicate RecordsHold(db: Tables) {
    forall id :: id in db.records ==> RecordHolds(db, id, db.records[id])
  }

  /** At most one active generation for each user. */
  ghost predicate OneSlot(db: Tables) {
    forall g, h, owner :: Holds(db, g, owner) && Holds(db, h, owner) ==> g == h
  }

  /** Every identifier was drawn, and none of them twice. */
  ghost predicate AllDrawn(db: Tables) {
    && db.conversations.Keys <= db.drawn && db.messages.Keys <= db.drawn && db.generations.Keys <= db.drawn
    && db.conversations.Keys !! db.generations.Keys
  }

  ghost predicate Inv(db: Tables, env: Env) {
    Linked(db) && Rooted(db, env) && RecordsHold(db) && OneSlot(db) && AllDrawn(db)
  }

  // ---------------------------------------------------------------- transactions that only change rows

  /** Same rows, each of them moved. */
  ghost predicate RowsMove(before: map<Uuid, Generation>, after: map<Uuid, Generation>) {
    after.Keys == before.Keys && forall g :: g in before ==> Moves(before[g], after[g])
  }

  /** Only the row g is updated. */
  lemma OneRowMoves(db: Tables, after: Tables, g: Uuid)
    requires g in db.generations && g in after.generations && Moves(db.generations[g], after.generations[g])
    requires after.generations == db.generations[g := after.generations[g]]
    ensures RowsMove(db.generations, after.generations)
  {
  }

  lemma RowsMoveKeepInv(db: Tables, after: Tables, env: Env)
    requires Inv(db, env) && RowsMove(db.generations, after.generations)
    requires after == db.(
      generations := after.generations, disconnects := after.disconnects, reclaimed := after.reclaimed)
    ensures Inv(after, env)
  {
    forall g, h, owner | Holds(after, g, owner) && Holds(after, h, owner)
      ensures g == h
    {
      assert Holds(db, g, owner) && Holds(db, h, owner);
    }
    forall id | id in after.records
      ensures RecordHolds(after, id, after.records[id])
    {
      assert RecordHolds(db, id, db.records[id]);
    }
    forall g | g in after.generations
      ensures RowLinked(after, after.generations[g])
    {
      assert RowLinked(db, db.generations[g]);
    }
  }

  lemma NothingMoves(db: Tables, env: Env)
    requires Inv(db, env)
    ensures RowsMove(db.generations, db.generations)
  {
  }

  lemma MarkRunningKeepsInv(db: Tables, env: Env, g: Uuid, snapshot: Snapshot, me: Instance, now: Time)
    requires Inv(db, env)
    ensures var after := MarkRunning(db, g, snapshot, me, now); RowsMove(db.generations, after.generations) && Inv(after, env)
  {
    hide Inv, RowsMove, MarkedRunning, Moves;
    var after := MarkRunning(db, g, snapshot, me, now);
    if g in db.generations {
      MarkedRunningMoves(db.generations[g], snapshot, me, now);
      OneRowMoves(db, after, g);
    } else {
      NothingMoves(db, env);
    }
    RowsMoveKeepInv(db, after, env);
  }

  lemma FinishKeepsInv(db: Tables, env: Env, g: Uuid, verdict: Verdict, content: string, now: Time)
    requires Inv(db, env)
    ensures var after := Finish(db, g, verdict, content, now); RowsMove(db.generations, after.generations) && Inv(after, env)
  {
    hide Inv, RowsMove, Finished, Moves;
    var after := Finish(db, g, verdict, content, now);
    if g in db.generations {
      FinishedMoves(db.generations[g], verdict, content, now);
      OneRowMoves(db, after, g);
    } else {
      NothingMoves(db, env);
    }
    RowsMoveKeepInv(db, after, env);
  }

  lemma DisconnectKeepsInv(db: Tables, env: Env, g: Uuid, now: Time)
    requires Inv(db, env)
    ensures var after := Disconnect(db, g, now); RowsMove(db.generations, after.generations) && Inv(after, env)
  {
    hide Inv, RowsMove, Parked, Moves;
    var after := Disconnect(db, g, now);
    if g in db.generations && Live(db.generations[g].status) {
      StoppedMoves(db.generations[g], 0, now);
      OneRowMoves(db, after, g);
    } else {
      NothingMoves(db, env);
    }
    RowsMoveKeepInv(db, after, env);
  }

  lemma RequestCancelKeepsInv(db: Tables, env: Env, owner: Subject, g: Uuid, now: Time)
    requires Inv(db, env)
    ensures var after := RequestCancel(db, owner, g, now); RowsMove(db.generations, after.generations) && Inv(after, env)
  {
    hide Inv, RowsMove, CancelAsked, Moves, OwnerOf;
    var after := RequestCancel(db, owner, g, now);
    if g in db.generations && OwnerOf(db, db.generations[g]) == Some(owner) {
      StoppedMoves(db.generations[g], 0, now);
      OneRowMoves(db, after, g);
    } else {
      NothingMoves(db, env);
    }
    RowsMoveKeepInv(db, after, env);
  }

  lemma ReclaimKeepsInv(db: Tables, env: Env, owner: Option<Subject>, now: Time)
    requires Inv(db, env)
    ensures var after := Reclaim(db, owner, now); RowsMove(db.generations, after.generations) && Inv(after, env)
  {
    hide Inv, Reclaimed, Moves;
    forall g | g in db.generations
      ensures Moves(db.generations[g], db.generations[g]) && Moves(db.generations[g], Reclaimed(db.generations[g], now))
    {
      StoppedMoves(db.generations[g], 0, now);
      SameMoves(db.generations[g]);
    }
    RowsMoveKeepInv(db, Reclaim(db, owner, now), env);
  }

  lemma SameMoves(r: Generation)
    ensures Moves(r, r)
  {
  }

  lemma ExtendLeasesKeepsInv(db: Tables, env: Env, me: Instance, now: Time)
    requires Inv(db, env)
    ensures var after := ExtendLeases(db, me, now); RowsMove(db.generations, after.generations) && Inv(after, env)
  {
    hide Inv, Extended, Moves;
    forall g | g in db.generations
      ensures Moves(db.generations[g], Extended(db.generations[g], me, now))
    {
      ExtendedMoves(db.generations[g], me, now);
    }
    RowsMoveKeepInv(db, ExtendLeases(db, me, now), env);
  }

  lemma ReleaseKeepsInv(db: Tables, env: Env, instance: Uuid, now: Time)
    requires Inv(db, env)
    ensures var after := Release(db, instance, now); RowsMove(db.generations, after.generations) && Inv(after, env)
  {
    hide Inv, Released, Moves;
    forall g | g in db.generations
      ensures Moves(db.generations[g], Released(db.generations[g], instance, now))
    {
      StoppedMoves(db.generations[g], instance, now);
    }
    RowsMoveKeepInv(db, Release(db, instance, now), env);
  }

  // ---------------------------------------------------------------- transactions that insert

  /** When the slot check lets a request pass, nothing holds the user's slot any more. */
  lemma SlotCheckFrees(db: Tables, env: Env, owner: Subject, now: Time, wall: Time)
    requires Inv(db, env) && SlotCheck(db, owner, now, wall).Some?
    ensures var after := db.(generations := SlotCheck(db, owner, now, wall).value);
      RowsMove(db.generations, after.generations) && Inv(after, env) && forall g :: !Holds(after, g, owner)
  {
    var after := db.(generations := SlotCheck(db, owner, now, wall).value);
    if g :| Holds(db, g, owner) {
      assert IsNewestActive(db, owner, g);
      forall h | Holds(after, h, owner)
        ensures false
      {
        assert Holds(db, h, owner);
      }
    }
    RowsMoveKeepInv(db, after, env);
  }

  /** A fresh row, its message with it, in a free slot. */
  lemma InsertKeepsInv(
    db: Tables, env: Env, after: Tables, owner: Subject, g: Uuid, row: Generation, m: Uuid, message: UserMessage,
    id: RecordId, record: Record)
    requires Inv(db, env) && (forall h :: !Holds(db, h, owner))
    requires g !in db.drawn && (m in db.messages ==> db.messages[m] == message) && g != m
    requires row.message == m && row.conversation == message.conversation
    requires row.retryOf.Some? ==> IsAttempt(db, row.retryOf.value, m)
    requires row.conversation in db.conversations && db.conversations[row.conversation].owner == owner
    requires after == db.(
      messages := db.messages[m := message], generations := db.generations[g := row],
      records := db.records[id := record], drawn := db.drawn + {m, g})
    requires id.owner == owner && record.result == g && RecordHolds(after, id, record)
    ensures Inv(after, env)
  {
    forall h, k, other | Holds(after, h, other) && Holds(after, k, other)
      ensures h == k
    {
      assert h == g || Holds(db, h, other);
      assert k == g || Holds(db, k, other);
    }
    forall other | other in after.records
      ensures RecordHolds(after, other, after.records[other])
    {
      if other != id {
        assert RecordHolds(db, other, db.records[other]);
      }
    }
    forall h | h in after.generations
      ensures RowLinked(after, after.generations[h])
    {
      if h != g {
        assert RowLinked(db, db.generations[h]);
      }
    }
  }

  lemma AcceptKeepsInv(
    db: Tables, env: Env, now: Time, wall: Time, me: Instance,
    owner: Subject, conversation: Uuid, message: string, key: Uuid, newMessage: Uuid, newGeneration: Uuid)
    requires Inv(db, env)
    ensures Inv(Accept(db, env, now, wall, me, owner, conversation, message, key, newMessage, newGeneration).0, env)
  {
    var step := Accept(db, env, now, wall, me, owner, conversation, message, key, newMessage, newGeneration);
    if step.1 == Accepted(newGeneration, false) {
      SlotCheckFrees(db, env, owner, now, wall);
      var freed := db.(generations := SlotCheck(db, owner, now, wall).value);
      var id := CompletionRecord(owner, conversation, key);
      assert newMessage !in db.messages;
      InsertKeepsInv(freed, env, step.0, owner, newGeneration, step.0.generations[newGeneration], newMessage,
        UserMessage(conversation, message, now), id, step.0.records[id]);
    }
  }

  lemma RetryKeepsInv(
    db: Tables, env: Env, now: Time, wall: Time, me: Instance,
    owner: Subject, original: Uuid, key: Uuid, newGeneration: Uuid)
    requires Inv(db, env)
    ensures Inv(Retry(db, env, now, wall, me, owner, original, key, newGeneration).0, env)
  {
    var step := Retry(db, env, now, wall, me, owner, original, key, newGeneration);
    if step.1 == Accepted(newGeneration, false) {
      SlotCheckFrees(db, env, owner, now, wall);
      var freed := db.(generations := SlotCheck(db, owner, now, wall).value);
      var id := RetryRecord(owner, original, key);
      var m := db.generations[original].message;
      assert RowLinked(db, db.generations[original]);
      assert db.messages[m := db.messages[m]] == db.messages;
      assert db.drawn + {m, newGeneration} == db.drawn + {newGeneration};
      InsertKeepsInv(freed, env, step.0, owner, newGeneration, step.0.generations[newGeneration], m,
        db.messages[m], id, step.0.records[id]);
    }
  }

  lemma OpenNewConversationKeepsInv(
    db: Tables, env: Env, owner: Subject, persona: Uuid, key: Uuid, newConversation: Uuid)
    requires Inv(db, env) && (persona in env.personas ==> env.personas[persona].owner in env.users)
    ensures Inv(OpenNewConversation(db, env, owner, persona, key, newConversation).0, env)
  {
    var step := OpenNewConversation(db, env, owner, persona, key, newConversation);
    var after := step.0;
    if step.1 == Accepted(newConversation, false) {
      forall g, h, other | Holds(after, g, other) && Holds(after, h, other)
        ensures g == h
      {
        assert RowLinked(db, db.generations[g]) && RowLinked(db, db.generations[h]);
        assert Holds(db, g, other) && Holds(db, h, other);
      }
      forall id | id in after.records
        ensures RecordHolds(after, id, after.records[id])
      {
        if id in db.records && after.records[id] == db.records[id] {
          assert RecordHolds(db, id, db.records[id]);
        }
      }
      forall g | g in after.generations
        ensures RowLinked(after, after.generations[g])
      {
        assert RowLinked(db, db.generations[g]);
      }
    }
  }

  /** Deleting one persona's chats, when none of them is active. Its personas row is marked afterwards. */
  lemma DeleteChatKeepsInv(db: Tables, env: Env, persona: Uuid)
    requires Inv(db, env) && persona in env.personas
    ensures var after := DeleteChat(db, env.personas[persona].owner, persona);
      && Inv(after, env)
      && (forall c :: c in after.conversations ==> after.conversations[c].persona != persona)
  {
    var owner := env.personas[persona].owner;
    var after := DeleteChat(db, owner, persona);
    forall g | g in after.generations
      ensures RowLinked(after, after.generations[g])
    {
      assert RowLinked(db, db.generations[g]);
    }
    forall g, h, other | Holds(after, g, other) && Holds(after, h, other)
      ensures g == h
    {
      assert Holds(db, g, other) && Holds(db, h, other);
    }
    forall id | id in after.records
      ensures RecordHolds(after, id, after.records[id])
    {
      assert RecordHolds(db, id, db.records[id]);
      var result := db.records[id].result;
      if id.operation == CreateConversation {
        assert ConversationRooted(db.conversations[result], env);
      } else {
        assert RowLinked(db, db.generations[result]);
        assert ConversationRooted(db.conversations[db.generations[result].conversation], env);
      }
    }
  }
}
