/** What a streamed answer promises: the order of its events, that a completed row holds the whole answer, that a
    cancelled stream never completes, that next() and close() never overlap, and that the response does not end with the row
    still open. */
module StreamProofs {
  import opened Basics
  import opened Generations
  import C = ChatTables
  import CI = ChatInvariant
  import opened Runs
  import opened RowHistory
  import opened Upstream
  import opened Streams

  // ---------------------------------------------------------------- the queue

  /** The texts of the chunks. */
  function Chunks(queue: seq<Item>): seq<string> {
    if queue == [] then [] else (if queue[0].Chunk? then [queue[0].text] else []) + Chunks(queue[1..])
  }

  lemma {:induction false} ChunksPush(queue: seq<Item>, item: Item)
    ensures Chunks(queue + [item]) == Chunks(queue) + if item.Chunk? then [item.text] else []
  {
    if queue == [] {
      assert [] + [item] == [item] && [item][1..] == [];
    } else {
      ChunksPush(queue[1..], item);
      ChunksFirst(queue, item);
    }
  }

  lemma ChunksFirst(queue: seq<Item>, item: Item)
    requires queue != [] && Chunks(queue[1..] + [item]) == Chunks(queue[1..]) + if item.Chunk? then [item.text] else []
    ensures Chunks(queue + [item]) == Chunks(queue) + if item.Chunk? then [item.text] else []
  {
    assert (queue + [item])[0] == queue[0] && (queue + [item])[1..] == queue[1..] + [item];
  }

  /** Only the last item can be an end, and then the worker has ended. */
  predicate QueueOk(queue: seq<Item>, w: Worker) {
    && (forall i :: 0 <= i < |queue| - 1 ==> queue[i].Chunk?)
    && (queue != [] && !queue[|queue| - 1].Chunk? ==> w.ended)
    && (queue != [] && queue[|queue| - 1].End? ==> w.done || w.cancelled)
  }

  /** The worker has put on the queue exactly the content tokens of the lines it read, none of which is the sentinel. */
  predicate WorkerOk(w: Worker, parse: Parser) {
    && w.tokens == TokensOf(w.lines, parse) && NoneIsDone(w.lines, parse)
    && (w.started ==> w.spawned)
    && (!w.started ==> !w.ended && !w.cancelled && w.lines == [])
    && (w.done ==> w.ended)
  }

  /** The generator has received what the worker put on the queue, in order, but for what is still on it. */
  predicate PartsOk(s: Stream) {
    s.worker.tokens == s.parts + Chunks(s.queue)
  }

  // ---------------------------------------------------------------- the generator

  /** Before the queue is read. */
  predicate Early(pc: Pc) {
    pc.Created? || pc.AtMeta? || pc.Preparing? || pc.AtCitations?
  }

  /** From here on nothing but a failure or a disconnect is stored. */
  predicate NoMoreSuccess(pc: Pc) {
    || (pc.Finishing? && pc.verdict.Failure?) || pc.AtTerminal? || pc.Disconnecting? || pc.SafetyNet? || HasEnded(pc)
  }

  predicate PcOk(s: Stream) {
    && (Early(s.pc) ==> !s.worker.spawned && s.parts == [])
    && (s.pc.Finishing? && s.pc.verdict.Success? ==>
          s.queue == [] && s.pc.content == Flat(s.parts) && s.worker.ended && (s.worker.done || s.worker.cancelled))
  }

  function Deltas(parts: seq<string>): seq<Frame> {
    if parts == [] then [] else Deltas(parts[..|parts| - 1]) + [DeltaEvent(|parts| - 1, parts[|parts| - 1])]
  }

  /** What may have been sent: nothing, or meta, then perhaps citations, then deltas numbered from zero with these texts,
      then at most one final event. */
  predicate InOrder(events: seq<Frame>, citations: seq<Frame>, parts: seq<string>, final: seq<Frame>) {
    && events == [MetaEvent] + citations + Deltas(parts) + final
    && |citations| <= 1 && (citations != [] ==> citations[0].CitationsEvent?) && (citations == [] ==> parts == [])
    && |final| <= 1 && (final != [] ==> final[0].DoneEvent? || final[0].ErrorEvent?)
  }

  /** The final event is out exactly where the generator has sent it. */
  predicate FinalAt(pc: Pc, final: seq<Frame>) {
    && (pc.AtTerminal? ==> final != [])
    && (final != [] ==> pc.AtTerminal? || pc.Disconnecting? || HasEnded(pc))
  }

  predicate CitationsAt(pc: Pc, citations: seq<Frame>) {
    && (pc.AtMeta? || pc.Preparing? ==> citations == [])
    && (pc.AtCitations? || pc.Polling? || pc.AtDelta? ==> citations != [])
  }

  ghost predicate EventsOk(s: Stream) {
    if s.events == [] then (s.pc.Created? || s.pc.Over?) && s.parts == []
    else !s.pc.Created? && exists citations, final ::
      InOrder(s.events, citations, s.parts, final) && FinalAt(s.pc, final) && CitationsAt(s.pc, citations)
  }

  ghost predicate StreamOk(s: Stream, parse: Parser) {
    QueueOk(s.queue, s.worker) && WorkerOk(s.worker, parse) && PartsOk(s) && PcOk(s) && EventsOk(s)
  }

  // ---------------------------------------------------------------- moves of the stream alone

  lemma MetaInOrder()
    ensures InOrder([] + [MetaEvent], [], [], [])
  {
    assert Deltas([]) == [] && [MetaEvent] + [] + [] + [] == [MetaEvent];
  }

  /** The generator moves on and sends nothing. */
  lemma EventsMoved(s: Stream, after: Stream)
    requires EventsOk(s) && s.events != [] && after.events == s.events && after.parts == s.parts && !after.pc.Created?
    requires forall final :: FinalAt(s.pc, final) ==> FinalAt(after.pc, final)
    requires forall citations :: CitationsAt(s.pc, citations) ==> CitationsAt(after.pc, citations)
    ensures EventsOk(after)
  {
    hide InOrder, FinalAt, CitationsAt;
    var citations, final :|
      InOrder(s.events, citations, s.parts, final) && FinalAt(s.pc, final) && CitationsAt(s.pc, citations);
    assert InOrder(after.events, citations, after.parts, final);
  }

  lemma SameEvents(s: Stream, after: Stream)
    requires EventsOk(s) && after.events == s.events && after.parts == s.parts && after.pc == s.pc
    ensures EventsOk(after)
  {
    hide InOrder, FinalAt, CitationsAt;
  }

  lemma QueueStays(queue: seq<Item>, w: Worker, after: Worker)
    requires QueueOk(queue, w) && after.ended == w.ended && after.done == w.done && after.cancelled == w.cancelled
    ensures QueueOk(queue, after)
  {
  }

  lemma ResumedOk(s: Stream, parse: Parser)
    requires StreamOk(s, parse) && (s.pc.Created? || Suspended(s.pc))
    ensures StreamOk(Resumed(s), parse)
  {
    hide QueueOk, InOrder, NoneIsDone, TokensOf, EventsOk;
    if s.pc.Created? {
      StartedOk(s);
    } else {
      HasEvents(s);
      EventsMoved(s, Resumed(s));
    }
    QueueStays(s.queue, s.worker, Resumed(s).worker);
  }

  lemma StartedOk(s: Stream)
    requires EventsOk(s) && s.pc.Created?
    ensures EventsOk(Resumed(s))
  {
    hide InOrder;
    MetaInOrder();
    assert InOrder(Resumed(s).events, [], s.parts, []);
  }

  lemma HasEvents(s: Stream)
    requires EventsOk(s) && !s.pc.Created? && !s.pc.Over?
    ensures s.events != []
  {
  }

  lemma ExitedOk(s: Stream, parse: Parser)
    requires StreamOk(s, parse) && (s.pc.Created? || Suspended(s.pc) || HasEnded(s.pc))
    ensures StreamOk(Exited(s), parse)
  {
    hide QueueOk, InOrder, WorkerOk, EventsOk;
    if s.pc.Created? {
      NothingSent(s);
    } else if Suspended(s.pc) {
      HasEvents(s);
      EventsMoved(s, Exited(s));
    }
  }

  lemma NothingSent(s: Stream)
    requires EventsOk(s) && s.pc.Created?
    ensures EventsOk(Exited(s))
  {
  }

  lemma CitationsSent(events: seq<Frame>, citations: seq<Frame>, items: seq<Citation>)
    requires InOrder(events, [], [], []) && citations == [CitationsEvent(items)]
    ensures InOrder(events + citations, citations, [], [])
  {
  }

  lemma DeltaSent(events: seq<Frame>, citations: seq<Frame>, parts: seq<string>, text: string)
    requires InOrder(events, citations, parts, []) && citations != []
    ensures InOrder(events + [DeltaEvent(|parts|, text)], citations, parts + [text], [])
  {
    var longer := parts + [text];
    assert longer[..|longer| - 1] == parts;
    assert Deltas(longer) == Deltas(parts) + [DeltaEvent(|parts|, text)];
    Assoc([MetaEvent] + citations, Deltas(parts), [DeltaEvent(|parts|, text)]);
  }

  lemma FinalSent(events: seq<Frame>, citations: seq<Frame>, parts: seq<string>, event: Frame)
    requires InOrder(events, citations, parts, []) && (event.DoneEvent? || event.ErrorEvent?)
    ensures InOrder(events + [event], citations, parts, [event])
  {
    assert [MetaEvent] + citations + Deltas(parts) + [] == [MetaEvent] + citations + Deltas(parts);
  }

  lemma PolledOk(s: Stream, parse: Parser)
    requires StreamOk(s, parse) && s.pc.Polling? && s.queue != []
    ensures StreamOk(Polled(s), parse)
  {
    hide InOrder, WorkerOk;
    var citations, final :|
      InOrder(s.events, citations, s.parts, final) && FinalAt(s.pc, final) && CitationsAt(s.pc, citations);
    PoppedQueueOk(s.queue, s.worker);
    if s.queue[0].Chunk? {
      DeltaSent(s.events, citations, s.parts, s.queue[0].text);
      assert InOrder(Polled(s).events, citations, Polled(s).parts, []);
      Assoc(s.parts, [s.queue[0].text], Chunks(s.queue[1..]));
    } else {
      assert s.queue[1..] == [];
      assert s.parts + ([] + Chunks([])) == s.parts + Chunks([]);
    }
  }

  lemma PoppedQueueOk(queue: seq<Item>, w: Worker)
    requires queue != [] && QueueOk(queue, w)
    ensures QueueOk(queue[1..], w)
    ensures !queue[0].Chunk? ==> |queue| == 1
  {
  }

  lemma CancelledOk(s: Stream, parse: Parser)
    requires StreamOk(s, parse)
    ensures StreamOk(s.(worker := UpstreamCancelled(s.worker)), parse)
  {
    hide InOrder, EventsOk, NoneIsDone, TokensOf;
    SameEvents(s, s.(worker := UpstreamCancelled(s.worker)));
  }

  lemma DeadlineOk(s: Stream, parse: Parser)
    requires StreamOk(s, parse) && s.pc.Polling?
    ensures StreamOk(DeadlinePassed(s), parse)
  {
    hide StreamOk;
    CancelledOk(s, parse);
    var cancelled := s.(worker := UpstreamCancelled(s.worker));
    PollingHasEvents(cancelled, parse);
    MovedOk(cancelled, DeadlinePassed(s).pc, parse);
    assert cancelled.(pc := DeadlinePassed(s).pc) == DeadlinePassed(s);
  }

  lemma PollingHasEvents(s: Stream, parse: Parser)
    requires StreamOk(s, parse) && !s.pc.Created? && !s.pc.Over?
    ensures s.events != []
  {
    HasEvents(s);
  }

  lemma RegisteredOk(s: Stream, parse: Parser)
    requires StreamOk(s, parse) && s.worker.spawned && !s.worker.started
    ensures StreamOk(s.(worker := s.worker.(started := true)), parse)
  {
    hide InOrder, EventsOk, NoneIsDone, TokensOf;
    SameEvents(s, s.(worker := s.worker.(started := true)));
  }

  /** A move to another place in the generator that sends nothing. */
  lemma MovedOk(s: Stream, pc: Pc, parse: Parser)
    requires StreamOk(s, parse) && s.events != [] && !s.pc.AtTerminal? && !HasEnded(s.pc)
    requires pc.SafetyNet? || pc.Broken? || pc.Over? || pc.Disconnecting? || (pc.Finishing? && pc.verdict.Failure?)
    requires s.pc.Disconnecting? ==> HasEnded(pc)
    ensures StreamOk(s.(pc := pc), parse)
  {
    hide InOrder, QueueOk, WorkerOk, EventsOk;
    EventsMoved(s, s.(pc := pc));
  }

  // ---------------------------------------------------------------- moves of the worker

  lemma QueuePushed(queue: seq<Item>, w: Worker, item: Item, after: Worker)
    requires QueueOk(queue, w) && !w.ended
    requires !item.Chunk? ==> after.ended
    requires item.End? ==> after.done || after.cancelled
    ensures QueueOk(queue + [item], after)
  {
    var longer := queue + [item];
    assert longer[|longer| - 1] == item;
    assert queue != [] ==> queue[|queue| - 1].Chunk?;
  }

  lemma PartsPushed(s: Stream, text: string)
    requires PartsOk(s)
    ensures s.worker.tokens + [text] == s.parts + Chunks(s.queue + [Chunk(text)])
  {
    ChunksPush(s.queue, Chunk(text));
    Assoc(s.parts, Chunks(s.queue), [text]);
  }

  lemma PartsKept(s: Stream, item: Item)
    requires PartsOk(s) && !item.Chunk?
    ensures s.worker.tokens == s.parts + Chunks(s.queue + [item])
  {
    ChunksPush(s.queue, item);
    assert Chunks(s.queue) + [] == Chunks(s.queue);
  }

  /** The worker's end, or nothing, reaches the queue. */
  lemma EndDelivered(s: Stream, outcome: Outcome, parse: Parser)
    requires StreamOk(s, parse) && s.worker.started && !s.worker.ended && !outcome.Yields?
    requires outcome.Quiet? ==> outcome.done || s.worker.cancelled
    ensures StreamOk(Delivered(s, outcome), parse)
  {
    hide QueueOk, EventsOk, NoneIsDone, TokensOf, Chunks;
    var after := Delivered(s, outcome);
    if after.queue != s.queue {
      var item := match outcome
        case Quiet(_) => End
        case Fails(code) => UpstreamFailure(code)
        case _ => OtherFailure;
      QueuePushed(s.queue, s.worker, item, after.worker);
      PartsKept(s, item);
    }
    SameEvents(s, after);
  }

  lemma LineAdded(w: Worker, line: string, parse: Parser)
    requires WorkerOk(w, parse) && w.started && !KindOf(line, parse).IsDone?
    ensures NoneIsDone(w.lines + [line], parse)
    ensures TokensOf(w.lines + [line], parse)
      == w.tokens + (match KindOf(line, parse) case IsToken(text) => [text] case _ => [])
  {
    hide KindOf;
    TokensOfPush(w.lines, line, parse);
  }

  lemma WorkedOk(s: Stream, turn: Turn, parse: Parser)
    requires StreamOk(s, parse) && s.worker.started && !s.worker.ended
    requires SawCancel(turn) ==> s.worker.cancelled
    ensures StreamOk(Worked(s, turn, parse), parse)
  {
    hide KindOf, EventsOk, QueueOk, Chunks;
    var outcome := TurnOutcome(s.worker.sawToken, turn, parse);
    var read := LineRead(turn, parse);
    var during := s.(worker := s.worker.(lines := s.worker.lines + read));
    if read != [] {
      LineAdded(s.worker, read[0], parse);
    } else {
      assert s.worker.lines + [] == s.worker.lines;
    }
    if outcome.Yields? {
      TokenDelivered(s, turn, outcome.text, parse);
    } else {
      assert s.worker.tokens + [] == s.worker.tokens;
      SameEvents(s, during);
      QuietIsExplained(s.worker.sawToken, turn, parse);
      QueueStays(s.queue, s.worker, during.worker);
      EndDelivered(during, outcome, parse);
    }
  }

  lemma QuietIsExplained(sawToken: bool, turn: Turn, parse: Parser)
    ensures TurnOutcome(sawToken, turn, parse) == Quiet(false) ==> SawCancel(turn)
  {
    hide KindOf;
  }

  lemma TokenDelivered(s: Stream, turn: Turn, text: string, parse: Parser)
    requires StreamOk(s, parse) && s.worker.started && !s.worker.ended
    requires TurnOutcome(s.worker.sawToken, turn, parse) == Yields(text)
    ensures StreamOk(Worked(s, turn, parse), parse)
  {
    hide KindOf, EventsOk, QueueOk, Chunks;
    var after := Worked(s, turn, parse);
    LineAdded(s.worker, turn.read.line, parse);
    PartsPushed(s, text);
    QueuePushed(s.queue, s.worker, Chunk(text), after.worker);
    SameEvents(s, after);
  }

  // ---------------------------------------------------------------- the row

  /** What a completed row says about the stream that wrote it. */
  predicate CompletedOk(row: Generation, s: Stream) {
    && row.content == Flat(s.parts) && s.worker.done && s.queue == []
    && (s.pc.AtTerminal? || s.pc.Disconnecting? || HasEnded(s.pc))
  }

  predicate RowOk(sys: System) {
    && sys.generation in sys.world.chat.drawn
    && (Exists(sys) ==>
          && Row(sys).version == sys.version
          && (sys.cancelObserved ==> Forsaken(Row(sys).status))
          && (Row(sys).status.Completed? ==> CompletedOk(Row(sys), sys.stream))
          && (DoneEvent in sys.stream.events ==> Row(sys).status.Completed?)
          && (IsResolved(sys) ==> !Live(Row(sys).status)))
  }

  /** The generator has stored an outcome or recorded the disconnect. */
  predicate IsResolved(sys: System) {
    (sys.stream.pc.AtTerminal? || HasEnded(sys.stream.pc)) && sys.stream.events != [] && !sys.dbFailed
  }

  /** The upstream is only cancelled after somebody read cancel_requested, or by the deadline. */
  predicate CancelOk(sys: System) {
    sys.stream.worker.cancelled ==> sys.cancelObserved || NoMoreSuccess(sys.stream.pc)
  }

  predicate AllEnded(pool: seq<Job>) {
    forall f :: 0 <= f < |pool| ==> pool[f].state.Ended?
  }

  /** Every job but the last has ended, and no close() came before the last. */
  predicate OneAtATime(pool: seq<Job>) {
    forall f :: 0 <= f < |pool| - 1 ==> pool[f].state.Ended? && pool[f].call.Next?
  }

  predicate LastIs(pool: seq<Job>, call: Call) {
    pool != [] && pool[|pool| - 1].call == call
  }

  /** The field holds the future of the last next(), and nothing else says so. */
  predicate Pends(r: StreamResponse) {
    r.pendingNext.Some? && LastIs(r.pool, Next) && r.pendingNext.value == |r.pool| - 1
  }

  /** What the coroutine may rely on at each await, given only the field. */
  predicate AwaitOk(r: StreamResponse) {
    match r.owner
    case Sending => r.pendingNext.None? && AllEnded(r.pool) && !LastIs(r.pool, Close)
    case AwaitsNext(f) => r.pendingNext == Some(f) && Pends(r)
    case Unwinding => !LastIs(r.pool, Close) && if r.pendingNext.None? then AllEnded(r.pool) else Pends(r)
    case AwaitsPending(f) => r.pendingNext == Some(f) && Pends(r)
    case AwaitsClose(f) => LastIs(r.pool, Close) && f == |r.pool| - 1
    case Closed => LastIs(r.pool, Close) && AllEnded(r.pool)
  }

  predicate ResponseOk(r: StreamResponse) {
    && OneAtATime(r.pool) && AwaitOk(r) && !r.clashed
    && (r.clientGone <==> r.owner.AwaitsPending? || r.owner.AwaitsClose? || r.owner.Closed?)
  }

  predicate AtRest(pc: Pc) {
    pc.Created? || Suspended(pc) || HasEnded(pc)
  }

  /** The generator runs only inside a job, and close() only handles the disconnect. */
  predicate PcFits(r: StreamResponse, pc: Pc) {
    && (!AtRest(pc) ==> IsExecuting(r))
    && forall f :: 0 <= f < |r.pool| && r.pool[f].call.Close? ==>
         && (r.pool[f].state.Working? ==> pc.Disconnecting? || HasEnded(pc))
         && (r.pool[f].state.Ended? ==> HasEnded(pc))
  }

  predicate OwnerOk(sys: System) {
    ResponseOk(sys.response) && PcFits(sys.response, sys.stream.pc)
  }

  ghost predicate SystemOk(sys: System, parse: Parser) {
    Inv(sys.world) && RowOk(sys) && CancelOk(sys) && OwnerOk(sys) && StreamOk(sys.stream, parse)
  }

  // ---------------------------------------------------------------- moves of the others

  lemma InsertsCompleteNothing(db: C.Tables, env: C.Env, e: ChatEvent, g: Uuid)
    requires CI.Inv(db, env) && (e.Accept? || e.Retry?) && g in db.generations
    ensures g in ChatStep(db, env, e).generations
    ensures ChatStep(db, env, e).generations[g].status.Completed? ==> db.generations[g].status.Completed?
  {
    hide CI.Inv, C.SlotCheck, C.Refusal;
    Undrawn(db, env);
    if C.SlotCheck(db, e.owner, e.now, e.wall).Some? {
      SlotCheckCompletesNothing(db, e.owner, e.now, e.wall, g);
    }
  }

  lemma SlotCheckCompletesNothing(db: C.Tables, owner: Subject, now: Time, wall: Time, g: Uuid)
    requires C.SlotCheck(db, owner, now, wall).Some? && g in db.generations
    ensures var freed := C.SlotCheck(db, owner, now, wall).value;
      g in freed && (freed[g].status.Completed? ==> db.generations[g].status.Completed?)
  {
  }

  lemma OthersCompleteNothing(w: World, e: Event, g: Uuid)
    requires Inv(w) && !StreamActs(e, g) && g in w.chat.generations && g in Step(w, e).chat.generations
    ensures Step(w, e).chat.generations[g].status.Completed? ==> w.chat.generations[g].status.Completed?
  {
    hide CI.Inv, MaterialStep, EnvOf, ChatStep;
    if e.OnChat? {
      if e.chat.Accept? || e.chat.Retry? {
        InsertsCompleteNothing(w.chat, EnvOf(w.material), e.chat, g);
      } else {
        UpdatesCompleteNothing(w.chat, EnvOf(w.material), e.chat, g);
      }
    }
  }

  lemma UpdatesCompleteNothing(db: C.Tables, env: C.Env, e: ChatEvent, g: Uuid)
    requires !e.Accept? && !e.Retry? && !StreamActs(OnChat(e), g) && g in db.generations
    ensures g in ChatStep(db, env, e).generations
    ensures ChatStep(db, env, e).generations[g].status.Completed? ==> db.generations[g].status.Completed?
  {
    hide C.Accept, C.Retry;
  }

  /** Whatever others do, what the stream knows about its row stays true. */
  lemma OthersKeepSystem(sys: System, e: Event, parse: Parser)
    requires SystemOk(sys, parse) && !StreamActs(e, sys.generation)
    ensures SystemOk(sys.(world := Step(sys.world, e)), parse)
  {
    hide Inv, StreamOk, Step, ChatMoves, CompletedOk;
    var after := sys.(world := Step(sys.world, e));
    StepKeepsInv(sys.world, e);
    StepMoves(sys.world, e);
    RowStays(sys.world.chat, after.world.chat, sys.generation);
    if Exists(after) {
      OthersCompleteNothing(sys.world, e, sys.generation);
    }
  }

  lemma RowStays(db: C.Tables, after: C.Tables, g: Uuid)
    requires ChatMoves(db, after) && g in db.drawn
    ensures g in after.drawn
    ensures g in after.generations ==> g in db.generations && Moves(db.generations[g], after.generations[g])
  {
  }

  // ---------------------------------------------------------------- moves of the stream on its row

  lemma WithChatIsStep(sys: System, e: ChatEvent)
    requires e.MarkRunning? || e.Finish? || e.Disconnect?
    ensures WithChat(sys, e) == Step(sys.world, OnChat(e))
  {
    hide C.Accept, C.Retry, MaterialStep;
  }

  lemma WorldMoves(sys: System, e: ChatEvent)
    requires Inv(sys.world) && (e.MarkRunning? || e.Finish? || e.Disconnect?) && sys.generation in sys.world.chat.drawn
    ensures Inv(WithChat(sys, e)) && sys.generation in WithChat(sys, e).chat.drawn
    ensures sys.generation in WithChat(sys, e).chat.generations ==>
      Exists(sys) && Moves(Row(sys), WithChat(sys, e).chat.generations[sys.generation])
  {
    hide Inv, Step, ChatMoves, WithChat;
    WithChatIsStep(sys, e);
    StepKeepsInv(sys.world, OnChat(e));
    StepMoves(sys.world, OnChat(e));
    RowStays(sys.world.chat, WithChat(sys, e).chat, sys.generation);
  }

  lemma PreparedStreamOk(s: Stream, items: seq<Citation>, parse: Parser)
    requires StreamOk(s, parse) && s.pc.Preparing?
    ensures StreamOk(s.(pc := AtCitations, events := s.events + [CitationsEvent(items)]), parse)
  {
    hide InOrder, QueueOk, WorkerOk;
    var citations, final :|
      InOrder(s.events, citations, s.parts, final) && FinalAt(s.pc, final) && CitationsAt(s.pc, citations);
    CitationsSent(s.events, [CitationsEvent(items)], items);
    assert InOrder(s.events + [CitationsEvent(items)], [CitationsEvent(items)], [], []);
  }

  lemma PreparedKeepsSystem(sys: System, snapshot: Snapshot, now: Time, parse: Parser)
    requires SystemOk(sys, parse) && Enabled(sys, PrepareOk(snapshot, now))
    ensures SystemOk(Prepared(sys, snapshot, now), parse)
  {
    hide Inv, StreamOk, WithChat, Moves;
    PreparedStreamOk(sys.stream, if sys.input.Some? then sys.input.value.citations else snapshot.citations, parse);
    if sys.input.None? {
      WorldMoves(sys, MarkRunning(sys.generation, snapshot, sys.me, now));
      if Exists(sys) {
        MarkRunningRow(sys, snapshot, now);
      }
    }
  }

  lemma MarkRunningRow(sys: System, snapshot: Snapshot, now: Time)
    requires Exists(sys)
    ensures var world := WithChat(sys, MarkRunning(sys.generation, snapshot, sys.me, now));
      && sys.generation in world.chat.generations
      && var row := world.chat.generations[sys.generation];
         && row.version == Row(sys).version && (row.status.Completed? ==> row == Row(sys))
         && (Forsaken(Row(sys).status) ==> Forsaken(row.status)) && (Live(row.status) ==> Live(Row(sys).status))
         && (Row(sys).status.Completed? ==> row == Row(sys))
  {
  }

  /** What finish_generation leaves. */
  lemma FinishedRow(r: Generation, verdict: Verdict, content: string, now: Time)
    ensures var row := Generations.Finished(r, verdict, content, now);
      && !Live(row.status) && row.version == r.version
      && (Forsaken(r.status) ==> Forsaken(row.status))
      && (row.status.Completed? ==>
            r == row || (verdict.Success? && row.content == content && !Forsaken(r.status)))
  {
  }

  lemma StoredStreamOk(s: Stream, event: Frame, next: Pc, parse: Parser)
    requires StreamOk(s, parse) && (s.pc.Finishing? || s.pc.SafetyNet?) && next.AtTerminal?
    requires event.DoneEvent? || event.ErrorEvent?
    ensures StreamOk(s.(pc := next, events := s.events + [event]), parse)
  {
    hide InOrder, QueueOk, WorkerOk;
    var citations, final :|
      InOrder(s.events, citations, s.parts, final) && FinalAt(s.pc, final) && CitationsAt(s.pc, citations);
    FinalSent(s.events, citations, s.parts, event);
    assert InOrder(s.events + [event], citations, s.parts, [event]);
  }

  /** Storing an outcome, if it is not a success that the stream did not earn. */
  lemma StoredKeepsSystem(sys: System, verdict: Verdict, content: string, now: Time, next: Pc, raised: Pc, parse: Parser)
    requires SystemOk(sys, parse) && Executing(sys)
    requires (sys.stream.pc.Finishing? && raised.SafetyNet?) || (sys.stream.pc.SafetyNet? && raised.Broken?)
    requires next.AtTerminal?
    requires verdict.Success? ==> sys.stream.pc == Finishing(Success, content)
    ensures SystemOk(Stored(sys, verdict, content, now, next, raised), parse)
  {
    hide Inv, StreamOk, WithChat, Moves, TerminalEvent, Generations.Finished;
    var after := Stored(sys, verdict, content, now, next, raised);
    PcFacts(sys.stream, parse);
    if Exists(sys) {
      var e := Finish(sys.generation, verdict, content, now);
      WorldMoves(sys, e);
      FinishesRow(sys, verdict, content, now);
      FinishedRow(Row(sys), verdict, content, now);
      EventSays(Row(after));
      StoredStreamOk(sys.stream, TerminalEvent(Row(after)), next, parse);
    } else {
      MovedOk(sys.stream, raised, parse);
    }
  }

  lemma FinishesRow(sys: System, verdict: Verdict, content: string, now: Time)
    requires Exists(sys)
    ensures var world := WithChat(sys, Finish(sys.generation, verdict, content, now));
      && sys.generation in world.chat.generations
      && world.chat.generations[sys.generation] == Generations.Finished(Row(sys), verdict, content, now)
  {
  }

  lemma EventSays(row: Generation)
    ensures TerminalEvent(row).DoneEvent? || TerminalEvent(row).ErrorEvent?
    ensures TerminalEvent(row).DoneEvent? <==> row.status.Completed?
  {
  }

  lemma PcFacts(s: Stream, parse: Parser)
    requires StreamOk(s, parse) && (s.pc.Finishing? || s.pc.SafetyNet? || s.pc.Disconnecting?)
    ensures s.events != []
    ensures s.pc.Finishing? && s.pc.verdict.Success? ==>
      s.queue == [] && s.pc.content == Flat(s.parts) && (s.worker.done || s.worker.cancelled)
  {
  }

  lemma DisconnectKeepsSystem(sys: System, now: Time, parse: Parser)
    requires SystemOk(sys, parse) && sys.stream.pc.Disconnecting?
    ensures SystemOk(At(sys, Over).(world := WithChat(sys, Disconnect(sys.generation, now))), parse)
  {
    hide Inv, StreamOk, WithChat, Moves;
    PcFacts(sys.stream, parse);
    WorldMoves(sys, Disconnect(sys.generation, now));
    MovedOk(sys.stream, Over, parse);
    if Exists(sys) {
      ParkedRow(sys, now);
    }
  }

  lemma ParkedRow(sys: System, now: Time)
    requires Exists(sys)
    ensures var world := WithChat(sys, Disconnect(sys.generation, now));
      && sys.generation in world.chat.generations
      && var row := world.chat.generations[sys.generation];
         && row.version == Row(sys).version && !Live(row.status) && (Forsaken(Row(sys).status) ==> Forsaken(row.status))
         && (row.status.Completed? <==> Row(sys).status.Completed?)
         && row.content == Row(sys).content
  {
  }

  // ---------------------------------------------------------------- all moves

  /** A move that touches neither the row nor a running close. */
  lemma LocalKeepsSystem(sys: System, after: System, parse: Parser)
    requires SystemOk(sys, parse) && after == sys.(
      stream := after.stream, response := after.response, dbFailed := after.dbFailed)
    requires StreamOk(after.stream, parse) && OwnerOk(after) && CancelOk(after)
    requires after.stream.events == sys.stream.events
      || exists event: Frame :: after.stream.events == sys.stream.events + [event] && !event.DoneEvent?
    requires Exists(sys) && Row(sys).status.Completed? ==> CompletedOk(Row(sys), after.stream)
    requires IsResolved(after) ==> IsResolved(sys)
    ensures SystemOk(after, parse)
  {
    hide Inv, StreamOk, CompletedOk;
  }

  // ---------------------------------------------------------------- moves of the response

  /** A coroutine move keeps what each await relies on. It reads the field, never the pool beyond the result it awaited. */
  lemma CoroutineOk(r: StreamResponse, m: Move, after: StreamResponse)
    requires ResponseOk(r)
    requires match m
      case CallNext => r.owner.Sending? && after == CalledNext(r)
      case NextArrives =>
        r.owner.AwaitsNext? && HasResult(r, r.owner.job) && after == NextArrived(r, r.pool[r.owner.job].state.how)
      case CancelResponse => (r.owner.Sending? || r.owner.AwaitsNext?) && after == r.(owner := Unwinding)
      case CleanUp => r.owner.Unwinding? && after == CleanedUp(r)
      case PendingArrives => r.owner.AwaitsPending? && HasResult(r, r.owner.job) && after == CalledClose(r)
      case CloseArrives => r.owner.AwaitsClose? && HasResult(r, r.owner.job) && after == r.(owner := Closed)
      case _ => false
    ensures ResponseOk(after)
    ensures forall pc :: PcFits(r, pc) ==> PcFits(after, pc)
  {
    forall pc | PcFits(r, pc)
      ensures PcFits(after, pc)
    {
      if IsExecuting(r) {
        var f :| 0 <= f < |r.pool| && r.pool[f].state.Working?;
        assert after.pool[f] == r.pool[f];
      }
    }
  }

  lemma CoroutineKeepsSystem(sys: System, m: Move, parse: Parser)
    requires SystemOk(sys, parse) && Enabled(sys, m)
    requires m.CallNext? || m.NextArrives? || m.CancelResponse? || m.CleanUp? || m.PendingArrives? || m.CloseArrives?
    ensures SystemOk(Own(sys, m, parse), parse)
  {
    hide Inv, StreamOk, RowOk, CancelOk, PcFits, ResponseOk;
    CoroutineOk(sys.response, m, Own(sys, m, parse).response);
    SameStream(sys, Own(sys, m, parse), parse);
  }

  /** The row and the stream do not depend on the response. */
  lemma SameStream(sys: System, after: System, parse: Parser)
    requires SystemOk(sys, parse) && after == sys.(response := after.response) && OwnerOk(after)
    ensures SystemOk(after, parse)
  {
    hide Inv, StreamOk, OwnerOk;
  }

  /** A job that waits can only be the last, and then no other runs. */
  lemma WaitingIsLast(r: StreamResponse, f: nat)
    requires ResponseOk(r) && f < |r.pool| && !r.pool[f].state.Ended?
    ensures f == |r.pool| - 1
    ensures r.pool[f].state.Waiting? ==> !IsExecuting(r)
    ensures r.owner.AwaitsNext? || r.owner.Unwinding? || r.owner.AwaitsPending? || r.owner.AwaitsClose?
  {
  }

  lemma JobMoved(r: StreamResponse, f: nat, state: JobState)
    requires ResponseOk(r) && f < |r.pool| && !r.pool[f].state.Ended?
    ensures ResponseOk(WithJob(r, f, state))
  {
    WaitingIsLast(r, f);
  }

  lemma TakeKeepsSystem(sys: System, f: nat, parse: Parser)
    requires SystemOk(sys, parse) && Enabled(sys, TakeJob(f))
    ensures SystemOk(Own(sys, TakeJob(f), parse), parse)
  {
    hide Inv, StreamOk, RowOk, CancelOk;
    var r := sys.response;
    WaitingIsLast(r, f);
    JobMoved(r, f, Ended(Exhausted));
    JobMoved(r, f, Working);
    hide ResponseOk;
    if HasEnded(sys.stream.pc) {
      SameStream(sys, Own(sys, TakeJob(f), parse), parse);
    } else {
      TakenFits(r, f, sys.stream);
      if r.pool[f].call.Next? {
        NextRuns(sys, f, parse);
      } else {
        CloseRuns(sys, f, parse);
      }
    }
  }

  lemma TakenFits(r: StreamResponse, f: nat, s: Stream)
    requires PcFits(r, s.pc) && f < |r.pool| && r.pool[f].state.Waiting? && AtRest(s.pc) && !HasEnded(s.pc)
    ensures var after := WithJob(r, f, Working);
      PcFits(after, if r.pool[f].call.Next? then Resumed(s).pc else Exited(s).pc)
  {
    assert WithJob(r, f, Working).pool[f].state.Working?;
  }

  lemma NextRuns(sys: System, f: nat, parse: Parser)
    requires SystemOk(sys, parse) && Enabled(sys, TakeJob(f)) && !Executing(sys) && !HasEnded(sys.stream.pc)
    requires sys.response.pool[f].call.Next?
    requires OwnerOk(Own(sys, TakeJob(f), parse))
    ensures SystemOk(Own(sys, TakeJob(f), parse), parse)
  {
    hide Inv, StreamOk;
    var after := Own(sys, TakeJob(f), parse);
    ResumedOk(sys.stream, parse);
    if sys.stream.pc.Created? {
      assert after.stream.events == sys.stream.events + [MetaEvent];
    }
    hide OwnerOk;
    LocalKeepsSystem(sys, after, parse);
  }

  lemma CloseRuns(sys: System, f: nat, parse: Parser)
    requires SystemOk(sys, parse) && Enabled(sys, TakeJob(f)) && !Executing(sys) && !HasEnded(sys.stream.pc)
    requires sys.response.pool[f].call.Close?
    requires OwnerOk(Own(sys, TakeJob(f), parse))
    ensures SystemOk(Own(sys, TakeJob(f), parse), parse)
  {
    hide Inv, StreamOk;
    ExitedOk(sys.stream, parse);
    if sys.stream.pc.Created? {
      CreatedSentNothing(sys.stream, parse);
    }
    hide OwnerOk;
    LocalKeepsSystem(sys, Own(sys, TakeJob(f), parse), parse);
  }

  lemma EndKeepsSystem(sys: System, f: nat, parse: Parser)
    requires SystemOk(sys, parse) && Enabled(sys, EndJob(f))
    ensures SystemOk(Own(sys, EndJob(f), parse), parse)
  {
    hide Inv, StreamOk, RowOk, CancelOk;
    JobMoved(sys.response, f, Ended(EndingOf(sys.stream.pc)));
    hide ResponseOk;
    SameStream(sys, Own(sys, EndJob(f), parse), parse);
  }

  lemma CreatedSentNothing(s: Stream, parse: Parser)
    requires StreamOk(s, parse) && s.pc.Created?
    ensures s.events == []
  {
  }

  lemma PollKeepsSystem(sys: System, m: Move, parse: Parser)
    requires SystemOk(sys, parse) && (m.Poll? || m.PollDeadline?) && Enabled(sys, m)
    ensures SystemOk(Own(sys, m, parse), parse)
  {
    hide Inv, StreamOk;
    var after := Own(sys, m, parse);
    if m.Poll? {
      PolledOk(sys.stream, parse);
      if sys.stream.queue[0].Chunk? {
        assert after.stream.events == sys.stream.events + [DeltaEvent(|sys.stream.parts|, sys.stream.queue[0].text)];
      }
    } else {
      DeadlineOk(sys.stream, parse);
    }
    LocalKeepsSystem(sys, after, parse);
  }

  /** The worker only adds to the queue and to what it knows. */
  lemma WorkerKeepsSystem(sys: System, after: Stream, parse: Parser)
    requires SystemOk(sys, parse) && StreamOk(after, parse) && !sys.stream.worker.ended
    requires after == sys.stream.(queue := after.queue, worker := after.worker)
    requires after.worker.cancelled == sys.stream.worker.cancelled
    ensures SystemOk(sys.(stream := after), parse)
  {
    hide Inv;
    assert sys.stream.worker.done ==> sys.stream.worker.ended;
    hide StreamOk;
    LocalKeepsSystem(sys, sys.(stream := after), parse);
  }

  lemma OpenKeepsSystem(sys: System, before: bool, response: Response, now: bool, parse: Parser)
    requires SystemOk(sys, parse) && Enabled(sys, Open(before, response, now))
    ensures SystemOk(Own(sys, Open(before, response, now), parse), parse)
  {
    hide Inv, StreamOk, RowOk, OwnerOk, CancelOk;
    var outcome := OpenOutcome(before, response, now);
    EndDelivered(sys.stream, outcome, parse);
    hide OpenOutcome;
    WorkerKeepsSystem(sys, Delivered(sys.stream, outcome), parse);
  }

  lemma WorkKeepsSystem(sys: System, turn: Turn, parse: Parser)
    requires SystemOk(sys, parse) && Enabled(sys, Work(turn))
    ensures SystemOk(Own(sys, Work(turn), parse), parse)
  {
    hide Inv, StreamOk, RowOk, OwnerOk, CancelOk, TurnOutcome, LineRead;
    WorkedOk(sys.stream, turn, parse);
    WorkerKeepsSystem(sys, Worked(sys.stream, turn, parse), parse);
  }

  lemma RegisterKeepsSystem(sys: System, parse: Parser)
    requires SystemOk(sys, parse) && Enabled(sys, Register)
    ensures SystemOk(Own(sys, Register, parse), parse)
  {
    hide Inv, StreamOk, RowOk, OwnerOk, CancelOk;
    RegisteredOk(sys.stream, parse);
    NotStartedNotEnded(sys.stream, parse);
    WorkerKeepsSystem(sys, sys.stream.(worker := sys.stream.worker.(started := true)), parse);
  }

  lemma NotStartedNotEnded(s: Stream, parse: Parser)
    requires StreamOk(s, parse) && !s.worker.started
    ensures !s.worker.ended
  {
  }

  lemma JumpKeepsSystem(sys: System, m: Move, parse: Parser)
    requires SystemOk(sys, parse) && Enabled(sys, m)
    requires m.PrepareFails? || m.PrepareCrashes? || m.PollGone? || m.StoreFails? || m.SafetyStoreFails? || m.RecordFails?
    ensures SystemOk(Own(sys, m, parse), parse)
  {
    hide Inv, StreamOk;
    var after := Own(sys, m, parse);
    PollingHasEvents(sys.stream, parse);
    MovedOk(sys.stream, after.stream.pc, parse);
    LocalKeepsSystem(sys, after, parse);
  }

  lemma FlagKeepsSystem(sys: System, m: Move, parse: Parser)
    requires SystemOk(sys, parse) && (m.ObserveCancel? || m.CancelUpstream?) && Enabled(sys, m)
    ensures SystemOk(Own(sys, m, parse), parse)
  {
    hide Inv, StreamOk;
    if m.CancelUpstream? {
      CancelledOk(sys.stream, parse);
    }
  }

  lemma OwnKeepsSystem(sys: System, m: Move, parse: Parser)
    requires SystemOk(sys, parse) && !m.Others? && Enabled(sys, m)
    ensures SystemOk(Own(sys, m, parse), parse)
  {
    hide SystemOk, Own, Enabled;
    match m
    case CallNext => CoroutineKeepsSystem(sys, m, parse);
    case NextArrives => CoroutineKeepsSystem(sys, m, parse);
    case CancelResponse => CoroutineKeepsSystem(sys, m, parse);
    case CleanUp => CoroutineKeepsSystem(sys, m, parse);
    case PendingArrives => CoroutineKeepsSystem(sys, m, parse);
    case CloseArrives => CoroutineKeepsSystem(sys, m, parse);
    case TakeJob(f) => TakeKeepsSystem(sys, f, parse);
    case EndJob(f) => EndKeepsSystem(sys, f, parse);
    case PrepareOk(snapshot, now) => StoresKeepSystem(sys, m, parse);
    case Store(now) => StoresKeepSystem(sys, m, parse);
    case SafetyStore(now) => StoresKeepSystem(sys, m, parse);
    case RecordDisconnect(now) => StoresKeepSystem(sys, m, parse);
    case Poll => PollKeepsSystem(sys, m, parse);
    case PollDeadline => PollKeepsSystem(sys, m, parse);
    case Register => RegisterKeepsSystem(sys, parse);
    case Open(before, response, now) => OpenKeepsSystem(sys, before, response, now, parse);
    case Work(turn) => WorkKeepsSystem(sys, turn, parse);
    case ObserveCancel => FlagKeepsSystem(sys, m, parse);
    case CancelUpstream => FlagKeepsSystem(sys, m, parse);
    case _ => JumpKeepsSystem(sys, m, parse);
  }

  lemma StoresKeepSystem(sys: System, m: Move, parse: Parser)
    requires SystemOk(sys, parse) && Enabled(sys, m)
    requires m.PrepareOk? || m.Store? || m.SafetyStore? || m.RecordDisconnect?
    ensures SystemOk(Own(sys, m, parse), parse)
  {
    hide SystemOk;
    match m
    case PrepareOk(snapshot, now) => PreparedKeepsSystem(sys, snapshot, now, parse);
    case Store(now) =>
      StoredKeepsSystem(sys, sys.stream.pc.verdict, sys.stream.pc.content, now, AtTerminal(true), SafetyNet, parse);
    case SafetyStore(now) =>
      StoredKeepsSystem(sys, Failure("internal_error"), "", now, AtTerminal(false), Broken, parse);
    case RecordDisconnect(now) => DisconnectKeepsSystem(sys, now, parse);
  }

  lemma StartsOk(sys: System, parse: Parser)
    requires Starts(sys)
    ensures SystemOk(sys, parse)
  {
    hide CI.Rooted, CI.Linked, CI.RecordsHold, CI.OneSlot, IsReachable;
    ReachableIsGood(sys.world);
    ChatDrawn(sys.world);
  }

  /** Every state of every interleaving satisfies the invariant. */
  lemma {:induction false} MovesKeepSystem(states: seq<System>, ms: seq<Move>, n: nat, parse: Parser)
    requires IsExecution(states, ms, parse) && n <= |ms|
    ensures SystemOk(states[n], parse)
  {
    hide SystemOk, Starts, Own, Enabled, Step;
    if n == 0 {
      StartsOk(states[0], parse);
    } else {
      MovesKeepSystem(states, ms, n - 1, parse);
      var sys, m := states[n - 1], ms[n - 1];
      OneMove(states, ms, n - 1, parse);
      if Enabled(sys, m) {
        if m.Others? {
          OthersMayMove(sys, m);
          OthersKeepSystem(sys, m.event, parse);
        } else {
          OwnKeepsSystem(sys, m, parse);
        }
      }
    }
  }

  lemma OthersMayMove(sys: System, m: Move)
    requires m.Others? && Enabled(sys, m)
    ensures !StreamActs(m.event, sys.generation)
  {
  }
}
