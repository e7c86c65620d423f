/** One streamed answer from the first event to the end of the response: the generator of chat/service.py, the worker thread
    that drains the upstream into a queue, and the response of chat/sse_stream.py that owns the generator, interleaved in
    any order with each other and with every other process on the database. */
module Streams {
  import opened Basics
  import opened Generations
  import C = ChatTables
  import opened Runs
  import opened Upstream

  // ---------------------------------------------------------------- the generator

  datatype Frame =
    | MetaEvent
    | CitationsEvent(items: seq<Citation>)
    | DeltaEvent(index: nat, text: string)
    | DoneEvent
    | ErrorEvent(code: string, cancelled: bool)

  /** What the worker thread puts on the queue. */
  datatype Item = Chunk(text: string) | End | UpstreamFailure(code: string) | OtherFailure

  /** Where the generator is: suspended at a yield (`At...`), running, or finished. `Finishing` is about to store what it
      computed, `Disconnecting` is handling GeneratorExit or ClientGone, `SafetyNet` the last except clause. */
  datatype Pc =
    | Created
    | AtMeta
    | Preparing
    | AtCitations
    | Polling
    | AtDelta
    | Finishing(verdict: Verdict, content: string)
    | AtTerminal(guarded: bool)
    | Disconnecting
    | SafetyNet
    | Over
    | Broken

  /** The thread is spawned before the attempt is registered. `lines` are the lines read so far, the sentinel not among
      them; `tokens` what was put on the queue. */
  datatype Worker = Worker(
    spawned: bool, started: bool, ended: bool, cancelled: bool, sawToken: bool, done: bool,
    lines: seq<string>, tokens: seq<string>)

  datatype Stream = Stream(pc: Pc, events: seq<Frame>, parts: seq<string>, queue: seq<Item>, worker: Worker)

  const FRESH: Stream := Stream(Created, [], [], [], Worker(false, false, false, false, false, false, [], []))

  predicate Suspended(pc: Pc) {
    pc.AtMeta? || pc.AtCitations? || pc.AtDelta? || pc.AtTerminal?
  }

  predicate HasEnded(pc: Pc) {
    pc.Over? || pc.Broken?
  }

  /** next() on a generator that waits at a yield or was not started. */
  function Resumed(s: Stream): Stream {
    match s.pc
    case Created => s.(pc := AtMeta, events := s.events + [MetaEvent])
    case AtMeta => s.(pc := Preparing)
    case AtCitations => s.(pc := Polling, worker := s.worker.(spawned := true))
    case AtDelta => s.(pc := Polling)
    case AtTerminal(_) => s.(pc := Over)
    case _ => s
  }

  /** close(): GeneratorExit at the yield. A generator that never ran has no handler, nor has the yield of the safety net. */
  function Exited(s: Stream): Stream {
    match s.pc
    case Created => s.(pc := Over)
    case AtTerminal(guarded) => s.(pc := if guarded then Disconnecting else Over)
    case AtMeta => s.(pc := Disconnecting)
    case AtCitations => s.(pc := Disconnecting)
    case AtDelta => s.(pc := Disconnecting)
    case _ => s
  }

  /** One item from the queue. */
  function Polled(s: Stream): Stream
    requires s.queue != []
  {
    var rest := s.(queue := s.queue[1..]);
    match s.queue[0]
    case Chunk(text) =>
      rest.(pc := AtDelta, parts := s.parts + [text], events := s.events + [DeltaEvent(|s.parts|, text)])
    case End => rest.(pc := Finishing(Success, Flat(s.parts)))
    case UpstreamFailure(code) => rest.(pc := Finishing(Failure(code), Flat(s.parts)))
    case OtherFailure => rest.(pc := SafetyNet)
  }

  /** The attempt is cancelled; nothing happens when the client does not know it. */
  function UpstreamCancelled(w: Worker): Worker {
    if w.started && !w.ended then w.(cancelled := true) else w
  }

  /** The wait ended with an empty queue at a deadline. */
  function DeadlinePassed(s: Stream): Stream {
    var code := if s.parts == [] then "first_token_timeout" else "generation_timeout";
    s.(pc := Finishing(Failure(code), Flat(s.parts)), worker := UpstreamCancelled(s.worker))
  }

  /** _terminal_event, from the row as it is stored. */
  function TerminalEvent(row: Generation): Frame {
    if row.status.Completed? then DoneEvent
    else
      ErrorEvent(if row.failureCode.Some? && row.failureCode.value != "" then row.failureCode.value else "cancelled",
        row.status.Cancelled?)
  }

  // ---------------------------------------------------------------- the worker

  function Delivered(s: Stream, outcome: Outcome): Stream {
    match outcome
    case Yields(text) =>
      s.(queue := s.queue + [Chunk(text)], worker := s.worker.(sawToken := true, tokens := s.worker.tokens + [text]))
    case Skips => s
    case Quiet(done) => s.(queue := s.queue + [End], worker := s.worker.(ended := true, done := done))
    case Fails(code) => s.(queue := s.queue + [UpstreamFailure(code)], worker := s.worker.(ended := true))
    case Crashes => s.(queue := s.queue + [OtherFailure], worker := s.worker.(ended := true))
  }

  /** The line a turn reads, unless it is the sentinel. */
  function LineRead(turn: Turn, parse: Parser): seq<string> {
    if !turn.cancelled && turn.read.Line? && !KindOf(turn.read.line, parse).IsDone? then [turn.read.line] else []
  }

  /** One turn of the reading loop, its result put on the queue. */
  function Worked(s: Stream, turn: Turn, parse: Parser): Stream {
    Delivered(s.(worker := s.worker.(lines := s.worker.lines + LineRead(turn, parse))),
      TurnOutcome(s.worker.sawToken, turn, parse))
  }

  // ---------------------------------------------------------------- the response that owns the generator

  /** A call handed to a thread pool: waiting for a thread, running the generator, or ended, with something yielded, with the end of
      the generator, or with an exception. */
  datatype Call = Next | Close
  datatype Ending = Yielded | Exhausted | Raised
  datatype JobState = Waiting | Working | Ended(how: Ending)
  datatype Job = Job(call: Call, state: JobState)

  /** Where the coroutines of the response are: sending something, awaiting the shielded future of a next(), on their way
      out to the finally, in the cleanup awaiting the future that _pending_next held, awaiting close(), or through. */
  datatype Owner =
    | Sending
    | AwaitsNext(job: nat)
    | Unwinding
    | AwaitsPending(job: nat)
    | AwaitsClose(job: nat)
    | Closed

  /** GenerationStreamResponse. `pendingNext` is the field _pending_next, which holds a future, that is, names a job; what
      the threads do with the jobs is not visible in it. `clashed`: a thread has found the generator already executing. */
  datatype StreamResponse = StreamResponse(
    owner: Owner, pool: seq<Job>, pendingNext: Option<nat>, clientGone: bool, clashed: bool)

  const UNSENT: StreamResponse := StreamResponse(Sending, [], None, false, false)

  predicate IsExecuting(r: StreamResponse) {
    exists f :: 0 <= f < |r.pool| && r.pool[f].state.Working?
  }

  predicate HasResult(r: StreamResponse, f: nat) {
    f < |r.pool| && r.pool[f].state.Ended?
  }

  function WithJob(r: StreamResponse, f: nat, state: JobState): StreamResponse
    requires f < |r.pool|
  {
    r.(pool := r.pool[f := r.pool[f].(state := state)])
  }

  /** One turn of _iterate, up to the await. */
  function CalledNext(r: StreamResponse): StreamResponse {
    r.(owner := AwaitsNext(|r.pool|), pool := r.pool + [Job(Next, Waiting)], pendingNext := Some(|r.pool|))
  }

  /** The await returns, and only then is the field cleared; when next() raised it is not. */
  function NextArrived(r: StreamResponse, how: Ending): StreamResponse {
    match how
    case Yielded => r.(owner := Sending, pendingNext := None)
    case Exhausted => r.(owner := Unwinding, pendingNext := None)
    case Raised => r.(owner := Unwinding)
  }

  function CalledClose(r: StreamResponse): StreamResponse {
    r.(owner := AwaitsClose(|r.pool|), pool := r.pool + [Job(Close, Waiting)])
  }

  /** The start of _close_owned_generator, which looks at nothing but the field. */
  function CleanedUp(r: StreamResponse): StreamResponse {
    match r.pendingNext
    case Some(f) => r.(clientGone := true, owner := AwaitsPending(f))
    case None => CalledClose(r.(clientGone := true))
  }

  /** How a call ends when the generator has come to rest. */
  function EndingOf(pc: Pc): Ending {
    if Suspended(pc) then Yielded else if pc.Over? then Exhausted else Raised
  }

  /** A thread takes a job up. Python refuses a generator that is executing; one that has ended has nothing to run. */
  function Taken(r: StreamResponse, f: nat, s: Stream): (StreamResponse, Stream)
    requires f < |r.pool|
  {
    if IsExecuting(r) then (WithJob(r, f, Ended(Raised)).(clashed := true), s)
    else if HasEnded(s.pc) then (WithJob(r, f, Ended(Exhausted)), s)
    else (WithJob(r, f, Working), if r.pool[f].call.Next? then Resumed(s) else Exited(s))
  }

  // ---------------------------------------------------------------- the whole system

  /** `input` is the frozen input of a retry. `cancelObserved`: some process has read cancel_requested from the row. */
  datatype System = System(
    world: World, generation: Uuid, version: Uuid, input: Option<Snapshot>, me: Instance, stream: Stream,
    response: StreamResponse, cancelObserved: bool, dbFailed: bool)

  datatype Move =
    // other processes, and other requests of this one
    | Others(event: Event)
    // the coroutines of the response
    | CallNext
    | NextArrives
    | CancelResponse
    | CleanUp
    | PendingArrives
    | CloseArrives
    // the threads
    | TakeJob(job: nat)
    | EndJob(job: nat)
    // the generator
    | PrepareOk(snapshot: Snapshot, now: Time)
    | PrepareFails(code: string)
    | PrepareCrashes
    | Poll
    | PollGone
    | PollDeadline
    | Store(now: Time)
    | StoreFails
    | SafetyStore(now: Time)
    | SafetyStoreFails
    | RecordDisconnect(now: Time)
    | RecordFails
    // the worker and who cancels it
    | Register
    | Open(cancelledBefore: bool, response: Response, cancelledNow: bool)
    | Work(turn: Turn)
    | ObserveCancel
    | CancelUpstream

  /** Only this stream marks its generation running, finishes it or parks it. */
  predicate StreamActs(e: Event, g: Uuid) {
    match e
    case OnChat(MarkRunning(h, _, _, _)) => h == g
    case OnChat(Finish(h, _, _, _)) => h == g
    case OnChat(Disconnect(h, _)) => h == g
    case _ => false
  }

  predicate Exists(sys: System) {
    sys.generation in sys.world.chat.generations
  }

  function Row(sys: System): Generation
    requires Exists(sys)
  {
    sys.world.chat.generations[sys.generation]
  }

  predicate Executing(sys: System) {
    IsExecuting(sys.response)
  }

  /** A cancel flag is only read after it was set. */
  predicate FlagIsSet(seen: bool, sys: System) {
    seen ==> sys.stream.worker.cancelled
  }

  predicate Enabled(sys: System, m: Move) {
    var pc, w, r := sys.stream.pc, sys.stream.worker, sys.response;
    match m
    case Others(e) => !StreamActs(e, sys.generation)
    case CallNext => r.owner.Sending?
    case NextArrives => r.owner.AwaitsNext? && HasResult(r, r.owner.job)
    case CancelResponse => r.owner.Sending? || r.owner.AwaitsNext?
    case CleanUp => r.owner.Unwinding?
    case PendingArrives => r.owner.AwaitsPending? && HasResult(r, r.owner.job)
    case CloseArrives => r.owner.AwaitsClose? && HasResult(r, r.owner.job)
    case TakeJob(f) => f < |r.pool| && r.pool[f].state.Waiting?
    case EndJob(f) => f < |r.pool| && r.pool[f].state.Working? && (Suspended(pc) || HasEnded(pc))
    case PrepareOk(snapshot, _) =>
      Executing(sys) && pc.Preparing? && (sys.input.None? ==> snapshot.version == sys.version)
    case PrepareFails(_) => Executing(sys) && pc.Preparing?
    case PrepareCrashes => Executing(sys) && pc.Preparing?
    case Poll => Executing(sys) && pc.Polling? && sys.stream.queue != []
    case PollGone => Executing(sys) && pc.Polling? && sys.stream.queue == [] && r.clientGone
    case PollDeadline => Executing(sys) && pc.Polling? && sys.stream.queue == [] && !r.clientGone
    case Store(_) => Executing(sys) && pc.Finishing?
    case StoreFails => Executing(sys) && pc.Finishing?
    case SafetyStore(_) => Executing(sys) && pc.SafetyNet?
    case SafetyStoreFails => Executing(sys) && pc.SafetyNet?
    case RecordDisconnect(_) => Executing(sys) && pc.Disconnecting?
    case RecordFails => Executing(sys) && pc.Disconnecting?
    case Register => w.spawned && !w.started
    case Open(before, _, now) => w.started && !w.ended && w.lines == [] && FlagIsSet(before || now, sys)
    case Work(turn) => w.started && !w.ended && FlagIsSet(SawCancel(turn), sys)
    case ObserveCancel => Exists(sys) && Row(sys).status.CancelRequested?
    case CancelUpstream => sys.cancelObserved
  }

  function WithChat(sys: System, e: ChatEvent): World
    requires e.MarkRunning? || e.Finish? || e.Disconnect?
  {
    sys.world.(chat := match e
      case MarkRunning(g, snapshot, me, now) => C.MarkRunning(sys.world.chat, g, snapshot, me, now)
      case Finish(g, verdict, content, now) => C.Finish(sys.world.chat, g, verdict, content, now)
      case Disconnect(g, now) => C.Disconnect(sys.world.chat, g, now))
  }

  /** finish_generation and then the event about what is stored; on a row that is gone it raises instead. */
  function Stored(sys: System, verdict: Verdict, content: string, now: Time, next: Pc, raised: Pc): System {
    if Exists(sys) then
      var world := WithChat(sys, Finish(sys.generation, verdict, content, now));
      var event := TerminalEvent(world.chat.generations[sys.generation]);
      sys.(world := world, stream := sys.stream.(pc := next, events := sys.stream.events + [event]))
    else sys.(stream := sys.stream.(pc := raised))
  }

  function Prepared(sys: System, snapshot: Snapshot, now: Time): System {
    match sys.input
    case Some(frozen) =>
      sys.(stream := sys.stream.(
        pc := AtCitations, events := sys.stream.events + [CitationsEvent(frozen.citations)]))
    case None =>
      sys.(
        world := WithChat(sys, MarkRunning(sys.generation, snapshot, sys.me, now)),
        stream := sys.stream.(
          pc := AtCitations, events := sys.stream.events + [CitationsEvent(snapshot.citations)]))
  }

  function At(sys: System, pc: Pc): System {
    sys.(stream := sys.stream.(pc := pc))
  }

  /** The moves of the stream's own process. */
  function Own(sys: System, m: Move, parse: Parser): System
    requires !m.Others? && Enabled(sys, m)
  {
    match m
    case CallNext => sys.(response := CalledNext(sys.response))
    case NextArrives => sys.(response := NextArrived(sys.response, sys.response.pool[sys.response.owner.job].state.how))
    case CancelResponse => sys.(response := sys.response.(owner := Unwinding))
    case CleanUp => sys.(response := CleanedUp(sys.response))
    case PendingArrives => sys.(response := CalledClose(sys.response))
    case CloseArrives => sys.(response := sys.response.(owner := Closed))
    case TakeJob(f) =>
      var taken := Taken(sys.response, f, sys.stream);
      sys.(response := taken.0, stream := taken.1)
    case EndJob(f) => sys.(response := WithJob(sys.response, f, Ended(EndingOf(sys.stream.pc))))
    case PrepareOk(snapshot, now) => Prepared(sys, snapshot, now)
    case PrepareFails(code) => At(sys, Finishing(Failure(code), ""))
    case PrepareCrashes => At(sys, SafetyNet)
    case Poll => sys.(stream := Polled(sys.stream))
    case PollGone => At(sys, Disconnecting)
    case PollDeadline => sys.(stream := DeadlinePassed(sys.stream))
    case Store(now) =>
      Stored(sys, sys.stream.pc.verdict, sys.stream.pc.content, now, AtTerminal(true), SafetyNet)
    case StoreFails => At(sys, SafetyNet)
    case SafetyStore(now) => Stored(sys, Failure("internal_error"), "", now, AtTerminal(false), Broken)
    case SafetyStoreFails => At(sys, Broken).(dbFailed := true)
    case RecordDisconnect(now) => At(sys, Over).(world := WithChat(sys, Disconnect(sys.generation, now)))
    case RecordFails => At(sys, Broken).(dbFailed := true)
    case Register => sys.(stream := sys.stream.(worker := sys.stream.worker.(started := true)))
    case Open(before, response, now) => sys.(stream := Delivered(sys.stream, OpenOutcome(before, response, now)))
    case Work(turn) => sys.(stream := Worked(sys.stream, turn, parse))
    case ObserveCancel => sys.(cancelObserved := true)
    case CancelUpstream => sys.(stream := sys.stream.(worker := UpstreamCancelled(sys.stream.worker)))
  }

  /** A move that is not enabled changes nothing. */
  ghost function Do(sys: System, m: Move, parse: Parser): System {
    if !Enabled(sys, m) then sys
    else if m.Others? then sys.(world := Step(sys.world, m.event))
    else Own(sys, m, parse)
  }

  /** A stream begins right after its request was accepted: its row is there, written by this process. */
  ghost predicate Starts(sys: System) {
    && IsReachable(sys.world) && Exists(sys) && !Row(sys).status.Completed? && Row(sys).version == sys.version
    && sys.stream == FRESH && sys.response == UNSENT && !sys.cancelObserved && !sys.dbFailed
  }

  /** The i-th move leads from the i-th state to the next. */
  ghost predicate MovesAt(states: seq<System>, ms: seq<Move>, i: nat, parse: Parser)
    requires i < |ms| < |states|
  {
    states[i + 1] == Do(states[i], ms[i], parse)
  }

  /** Any interleaving of moves from the start of a stream. */
  ghost predicate IsExecution(states: seq<System>, ms: seq<Move>, parse: Parser) {
    |states| == |ms| + 1 && Starts(states[0]) && forall i :: 0 <= i < |ms| ==> MovesAt(states, ms, i, parse)
  }

  lemma OneMove(states: seq<System>, ms: seq<Move>, n: nat, parse: Parser)
    requires IsExecution(states, ms, parse) && n < |ms|
    ensures states[n + 1] == Do(states[n], ms[n], parse)
  {
    hide Do, Starts;
    assert MovesAt(states, ms, n, parse);
  }
}
