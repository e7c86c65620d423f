/** The objects of a stream as the program has them: the generator with its loop over the queue, the response that owns it,
    and the heartbeat that forwards cancel requests. Each method is proved to be a step of Streams. */
module StreamObjects {
  import opened Basics
  import opened Generations
  import opened ChatTables
  import opened ChatStores
  import opened Upstream
  import opened Streams
  import opened StreamProofs

  // ---------------------------------------------------------------- the generator

  /** The loop as long as the queue has something and the consumer keeps asking. */
  function PolledAll(s: Stream): Stream
    decreases |s.queue|
  {
    if s.queue == [] then s
    else
      var next := Polled(s);
      if next.pc.AtDelta? then PolledAll(Resumed(next)) else next
  }

  /** _run_generation with its local variables: the parts, the index of the next delta and whether a chunk came. */
  class AnswerStream {
    var pc: Pc
    var events: seq<Frame>
    var contentParts: seq<string>
    var index: nat
    var firstChunkSeen: bool
    var chunkQueue: seq<Item>
    var worker: Worker

    ghost predicate Valid()
      reads this
    {
      index == |contentParts| && (firstChunkSeen <==> contentParts != [])
    }

    function View(): Stream
      reads this
    {
      Stream(pc, events, contentParts, chunkQueue, worker)
    }

    constructor ()
      ensures Valid() && View() == FRESH
    {
      pc, events, contentParts, index, firstChunkSeen, chunkQueue := Created, [], [], 0, false, [];
      worker := FRESH.worker;
    }

    /** next(), up to the first thing that is not a local assignment. */
    method Next()
      requires Valid() && (pc.Created? || Suspended(pc))
      modifies this
      ensures Valid() && View() == Resumed(old(View()))
    {
      match pc
      case Created =>
        events, pc := events + [MetaEvent], AtMeta;
      case AtMeta => pc := Preparing;
      case AtCitations =>
        worker := worker.(spawned := true);
        pc := Polling;
      case AtDelta => pc := Polling;
      case AtTerminal(_) => pc := Over;
    }

    /** close() */
    method Close()
      requires Valid() && (pc.Created? || Suspended(pc) || HasEnded(pc))
      modifies this
      ensures Valid() && View() == Exited(old(View()))
    {
      if pc.Created? || (pc.AtTerminal? && !pc.guarded) {
        pc := Over;
      } else if Suspended(pc) {
        pc := Disconnecting;
      }
    }

    /** One turn of the while loop, when queue.get returns an item. */
    method Turn()
      requires Valid() && chunkQueue != []
      modifies this
      ensures Valid() && View() == Polled(old(View()))
    {
      var item := chunkQueue[0];
      chunkQueue := chunkQueue[1..];
      match item
      case End => pc := Finishing(Success, Flat(contentParts));
      case UpstreamFailure(code) => pc := Finishing(Failure(code), Flat(contentParts));
      case OtherFailure => pc := SafetyNet;
      case Chunk(text) =>
        if !firstChunkSeen {
          firstChunkSeen := true;
        }
        contentParts := contentParts + [text];
        events := events + [DeltaEvent(index, text)];
        index := index + 1;
        pc := AtDelta;
    }

    /** One turn when queue.get raises Empty; `gone` is client_gone, `expired` whether the deadline has passed. */
    method EmptyTurn(gone: bool, expired: bool)
      requires Valid() && pc.Polling? && chunkQueue == []
      modifies this
      ensures Valid()
      ensures View() == if gone then old(View()).(pc := Disconnecting)
                        else if expired then DeadlinePassed(old(View())) else old(View())
    {
      if gone {
        pc := Disconnecting;
        return;
      }
      if !expired {
        return;
      }
      worker := UpstreamCancelled(worker);
      var failureCode := if firstChunkSeen then "generation_timeout" else "first_token_timeout";
      pc := Finishing(Failure(failureCode), Flat(contentParts));
    }

    /** The while loop, for a consumer that takes every delta at once. */
    method DrainQueue()
      requires Valid() && pc.Polling?
      modifies this
      ensures Valid() && View() == PolledAll(old(View()))
    {
      while chunkQueue != []
        invariant Valid() && pc.Polling? && PolledAll(View()) == PolledAll(old(View()))
        decreases |chunkQueue|
      {
        hide Polled;
        label before:
        PolledShrinks(View());
        Turn();
        if !pc.AtDelta? {
          assert View() == PolledAll(old@before(View()));
          return;
        }
        Next();
      }
    }

    /** The worker's thread: one turn of the adapter, its result put on the queue. */
    method WorkerTurn(turn: Upstream.Turn, parse: Parser)
      requires Valid() && worker.started && !worker.ended
      modifies this
      ensures Valid() && View() == Worked(old(View()), turn, parse)
    {
      hide TurnOutcome;
      var outcome := TurnOutcome(worker.sawToken, turn, parse);
      worker := worker.(lines := worker.lines + LineRead(turn, parse));
      match outcome
      case Yields(text) =>
        worker := worker.(sawToken := true, tokens := worker.tokens + [text]);
        chunkQueue := chunkQueue + [Chunk(text)];
      case Skips =>
      case Quiet(done) =>
        worker := worker.(ended := true, done := done);
        chunkQueue := chunkQueue + [End];
      case Fails(code) =>
        worker := worker.(ended := true);
        chunkQueue := chunkQueue + [UpstreamFailure(code)];
      case Crashes =>
        worker := worker.(ended := true);
        chunkQueue := chunkQueue + [OtherFailure];
    }
  }

  lemma PolledShrinks(s: Stream)
    requires s.queue != []
    ensures Polled(s).queue == s.queue[1..]
    ensures Polled(s).pc.AtDelta? <==> s.queue[0].Chunk?
    ensures PolledAll(s) == if Polled(s).pc.AtDelta? then PolledAll(Resumed(Polled(s))) else Polled(s)
  {
  }

  /** A whole answer through the loop: every chunk becomes one delta, in order, and the end stores their concatenation. */
  lemma {:induction false} LoopDeliversAll(s: Stream, texts: seq<string>)
    requires s.queue == ChunksAndEnd(texts)
    ensures var after := PolledAll(s);
      && after.parts == s.parts + texts && after.queue == []
      && after.pc == Finishing(Success, Flat(s.parts + texts))
    decreases |texts|
  {
    hide Flat;
    if texts == [] {
      assert s.queue == [End] && s.parts + [] == s.parts;
    } else {
      var next := Polled(s);
      assert s.queue[1..] == ChunksAndEnd(texts[1..]);
      LoopDeliversAll(Resumed(next), texts[1..]);
      assert s.parts + [texts[0]] + texts[1..] == s.parts + texts;
    }
  }

  function ChunksAndEnd(texts: seq<string>): seq<Item> {
    if texts == [] then [End] else [Chunk(texts[0])] + ChunksAndEnd(texts[1..])
  }

  // ---------------------------------------------------------------- the owner of the response

  /** GenerationStreamResponse, with the jobs it has handed to the thread pools. */
  class StreamOwner {
    var owner: Owner
    var pool: seq<Job>
    var pendingNext: Option<nat>
    var clientGone: bool
    var clashed: bool
    const generator: AnswerStream

    function View(): StreamResponse
      reads this
    {
      StreamResponse(owner, pool, pendingNext, clientGone, clashed)
    }

    /** At most one job has not ended, the field names it when it is a next(), and the generator runs only inside it. */
    ghost predicate Valid()
      reads this, generator
    {
      generator.Valid() && ResponseOk(View()) && PcFits(View(), generator.pc)
    }

    constructor (generator: AnswerStream)
      requires generator.Valid() && generator.pc.Created?
      ensures Valid() && View() == UNSENT && this.generator == generator
    {
      owner, pool, pendingNext, clientGone, clashed := Sending, [], None, false, false;
      this.generator := generator;
    }

    /** One turn of _iterate: next() is handed to the thread pool and its future kept, then awaited. */
    method CallNext()
      requires Valid() && owner.Sending?
      modifies this
      ensures Valid() && View() == CalledNext(old(View()))
      ensures AllEnded(old(pool))
    {
      CoroutineOk(View(), Move.CallNext, CalledNext(View()));
      pool := pool + [Job(Next, Waiting)];
      pendingNext := Some(|pool| - 1);
      owner := AwaitsNext(|pool| - 1);
    }

    /** The shielded future has a result. */
    method NextArrives()
      requires Valid() && owner.AwaitsNext? && HasResult(View(), owner.job)
      modifies this
      ensures Valid() && View() == NextArrived(old(View()), old(pool[owner.job]).state.how)
      ensures AllEnded(pool) && (pendingNext.None? <==> !old(pool[owner.job]).state.how.Raised?)
    {
      var how := pool[owner.job].state.how;
      CoroutineOk(View(), Move.NextArrives, NextArrived(View(), how));
      if how.Raised? {
        owner := Unwinding;
        return;
      }
      pendingNext := None;
      owner := if how.Exhausted? then Unwinding else Sending;
    }

    /** The task is cancelled at its await. The shield keeps the future, and the field is not touched. */
    method Cancel()
      requires Valid() && (owner.Sending? || owner.AwaitsNext?)
      modifies this
      ensures Valid() && View() == old(View()).(owner := Unwinding)
    {
      CoroutineOk(View(), CancelResponse, View().(owner := Unwinding));
      owner := Unwinding;
    }

    /** The start of _close_owned_generator. */
    method CleanUp()
      requires Valid() && owner.Unwinding?
      modifies this
      ensures Valid() && View() == CleanedUp(old(View()))
      ensures if owner.AwaitsClose? then AllEnded(old(pool)) else pool == old(pool) && LastIs(pool, Next)
    {
      CoroutineOk(View(), Move.CleanUp, CleanedUp(View()));
      clientGone := true;
      var pending := pendingNext;
      if pending.Some? {
        owner := AwaitsPending(pending.value);
      } else {
        pool := pool + [Job(Close, Waiting)];
        owner := AwaitsClose(|pool| - 1);
      }
    }

    /** Whatever the pending next() ended with, close() is called. */
    method PendingArrives()
      requires Valid() && owner.AwaitsPending? && HasResult(View(), owner.job)
      modifies this
      ensures Valid() && View() == CalledClose(old(View()))
      ensures AllEnded(old(pool))
    {
      CoroutineOk(View(), Move.PendingArrives, CalledClose(View()));
      pool := pool + [Job(Close, Waiting)];
      owner := AwaitsClose(|pool| - 1);
    }

    method CloseArrives()
      requires Valid() && owner.AwaitsClose? && HasResult(View(), owner.job)
      modifies this
      ensures Valid() && View() == old(View()).(owner := Owner.Closed)
      ensures AllEnded(pool) && HasEnded(generator.pc)
    {
      CoroutineOk(View(), Move.CloseArrives, View().(owner := Owner.Closed));
      owner := Owner.Closed;
    }

    /** A thread takes a job up and runs the generator to the first thing that is not a local assignment. */
    method TakeJob(f: nat)
      requires Valid() && f < |pool| && pool[f].state.Waiting?
      modifies this, generator
      ensures Valid() && (View(), generator.View()) == Taken(old(View()), f, old(generator.View()))
      ensures !clashed && forall g :: 0 <= g < |pool| && g != f ==> pool[g].state.Ended?
    {
      WaitingIsLast(View(), f);
      JobMoved(View(), f, Working);
      JobMoved(View(), f, Ended(Exhausted));
      if HasEnded(generator.pc) {
        pool := pool[f := pool[f].(state := Ended(Exhausted))];
        return;
      }
      TakenFits(View(), f, generator.View());
      var call := pool[f].call;
      pool := pool[f := Job(call, Working)];
      if call.Next? {
        generator.Next();
      } else {
        generator.Close();
      }
    }

    /** The generator has come to rest, and the thread reports how. */
    method EndJob(f: nat)
      requires Valid() && f < |pool| && pool[f].state.Working? && (Suspended(generator.pc) || HasEnded(generator.pc))
      modifies this
      ensures Valid() && View() == WithJob(old(View()), f, Ended(EndingOf(generator.pc)))
    {
      JobMoved(View(), f, Ended(EndingOf(generator.pc)));
      pool := pool[f := pool[f].(state := Ended(EndingOf(generator.pc)))];
    }
  }

  // ---------------------------------------------------------------- the heartbeat

  class GenerationLeaseKeeper {
    const store: ChatStore
    const client: VllmClient

    constructor (store: ChatStore, client: VllmClient)
      ensures this.store == store && this.client == client
    {
      this.store, this.client := store, client;
    }

    /** beat_once: the leases of all own rows are extended, and a cancel request that reached another process is passed on
        to the local upstream; when the database fails, nothing happens until the next beat. */
    method BeatOnce(now: Time, databaseFails: bool)
      modifies store, client
      ensures databaseFails ==> store.View() == old(store.View()) && client.attempts == old(client.attempts)
      ensures !databaseFails ==>
        && store.View() == ExtendLeases(old(store.View()), store.me, now)
        && client.attempts.Keys == old(client.attempts).Keys
        && forall g :: g in client.attempts ==>
             client.attempts[g] == (if IsCancelForwarded(old(store.View()), store.me.id, g)
                                    then CancelledAttempt(old(client.attempts[g])) else old(client.attempts[g]))
    {
      hide ExtendLeases;
      if databaseFails {
        return;
      }
      ghost var before := store.View();
      var owned := store.ExtendOwnLeases(now);
      ghost var attempts := client.attempts;
      var left := owned.Keys;
      while left != {}
        invariant left <= owned.Keys && store.View() == ExtendLeases(before, store.me, now)
        invariant client.attempts.Keys == attempts.Keys
        invariant forall g :: g in attempts ==>
          client.attempts[g] == (if g in owned && g !in left && owned[g].CancelRequested?
                                 then CancelledAttempt(attempts[g]) else attempts[g])
        decreases |left|
      {
        var g :| g in left;
        left := left - {g};
        if owned[g].CancelRequested? {
          client.Cancel(g);
        }
      }
      forall g | g in attempts
        ensures (g in owned && owned[g].CancelRequested?) <==> IsCancelForwarded(before, store.me.id, g)
      {
        StatusStays(before, store.me, now, g);
      }
    }
  }

  lemma StatusStays(db: Tables, me: Instance, now: Time, g: Uuid)
    ensures g in ExtendLeases(db, me, now).generations <==> g in db.generations
    ensures g in db.generations ==> ExtendLeases(db, me, now).generations[g].status == db.generations[g].status
    ensures g in OwnedRows(db, me.id) <==> g in db.generations && Owns(db.generations[g], me.id)
  {
  }

  /** The rows whose cancel request the heartbeat of this process passes on. */
  predicate IsCancelForwarded(db: Tables, instance: Uuid, g: Uuid) {
    g in db.generations && Owns(db.generations[g], instance) && db.generations[g].status.CancelRequested?
  }
}
