/** The promises of a streamed answer, read off its invariant for every interleaving. */
module StreamTheorems {
  import opened Basics
  import opened Generations
  import C = ChatTables
  import opened Runs
  import opened Upstream
  import opened Streams
  import opened StreamProofs
  import RetryChain

  /** The texts of the delta events, in the order they were sent. */
  function DeltaTexts(events: seq<Frame>): seq<string> {
    if events == [] then []
    else (if events[0].DeltaEvent? then [events[0].text] else []) + DeltaTexts(events[1..])
  }

  lemma {:induction false} DeltaTextsAppend(xs: seq<Frame>, ys: seq<Frame>)
    ensures DeltaTexts(xs + ys) == DeltaTexts(xs) + DeltaTexts(ys)
  {
    if xs == [] {
      assert xs + ys == ys && [] + DeltaTexts(ys) == DeltaTexts(ys);
    } else {
      DeltaTextsAppend(xs[1..], ys);
      DeltaTextsFirst(xs, ys);
    }
  }

  lemma DeltaTextsFirst(xs: seq<Frame>, ys: seq<Frame>)
    requires xs != [] && DeltaTexts(xs[1..] + ys) == DeltaTexts(xs[1..]) + DeltaTexts(ys)
    ensures DeltaTexts(xs + ys) == DeltaTexts(xs) + DeltaTexts(ys)
  {
    var first := if xs[0].DeltaEvent? then [xs[0].text] else [];
    assert (xs + ys)[0] == xs[0] && (xs + ys)[1..] == xs[1..] + ys;
    assert DeltaTexts(xs + ys) == first + DeltaTexts(xs[1..] + ys) && DeltaTexts(xs) == first + DeltaTexts(xs[1..]);
    hide DeltaTexts;
    Assoc(first, DeltaTexts(xs[1..]), DeltaTexts(ys));
  }

  lemma OneText(event: Frame)
    ensures DeltaTexts([event]) == if event.DeltaEvent? then [event.text] else []
  {
    assert [event][1..] == [];
  }

  lemma {:induction false} TextsOfDeltas(parts: seq<string>)
    ensures DeltaTexts(Deltas(parts)) == parts
  {
    if parts != [] {
      var front, last := parts[..|parts| - 1], parts[|parts| - 1];
      TextsOfDeltas(front);
      DeltaTextsAppend(Deltas(front), [DeltaEvent(|parts| - 1, last)]);
      OneText(DeltaEvent(|parts| - 1, last));
      assert front + [last] == parts;
    }
  }

  lemma TextsInOrder(events: seq<Frame>, citations: seq<Frame>, parts: seq<string>, final: seq<Frame>)
    requires InOrder(events, citations, parts, final)
    ensures DeltaTexts(events) == parts
  {
    hide DeltaTexts, Deltas;
    NoTexts([MetaEvent]);
    NoTexts(citations);
    NoTexts(final);
    TextsOfDeltas(parts);
    DeltaTextsAppend([MetaEvent], citations);
    DeltaTextsAppend([MetaEvent] + citations, Deltas(parts));
    DeltaTextsAppend([MetaEvent] + citations + Deltas(parts), final);
    var none: seq<string> := [];
    assert none + none == none && none + parts == parts && parts + none == parts;
  }

  lemma NoTexts(events: seq<Frame>)
    requires |events| <= 1 && (events != [] ==> !events[0].DeltaEvent?)
    ensures DeltaTexts(events) == []
  {
    if events != [] {
      assert events == [events[0]];
      OneText(events[0]);
    }
  }

  /** Nothing was sent, or what was sent is meta, then at most one citations event, then deltas numbered 0, 1, 2, ... that
      only follow citations, then at most one done or error event. */
  ghost predicate InProtocolOrder(events: seq<Frame>) {
    events == [] || exists citations, parts, final :: InOrder(events, citations, parts, final)
  }

  /** What was sent is always in the order of the protocol. */
  lemma EventsFollowProtocol(states: seq<System>, ms: seq<Move>, n: nat, parse: Parser)
    requires IsExecution(states, ms, parse) && n <= |ms|
    ensures InProtocolOrder(states[n].stream.events)
  {
    hide InOrder, Starts;
    MovesKeepSystem(states, ms, n, parse);
    OrderOf(states[n].stream, parse);
  }

  lemma OrderOf(s: Stream, parse: Parser)
    requires StreamOk(s, parse)
    ensures InProtocolOrder(s.events)
    ensures DeltaTexts(s.events) == s.parts
  {
    hide InOrder, QueueOk, WorkerOk;
    if s.events != [] {
      var citations, final :|
        InOrder(s.events, citations, s.parts, final) && FinalAt(s.pc, final) && CitationsAt(s.pc, citations);
      TextsInOrder(s.events, citations, s.parts, final);
    }
  }

  /** A row stored as completed holds the concatenation of every delta that was sent, and those are every content token of
      the upstream's lines before its sentinel, which was read. */
  lemma CompletedIsTheWholeAnswer(states: seq<System>, ms: seq<Move>, n: nat, parse: Parser)
    requires IsExecution(states, ms, parse) && n <= |ms|
    requires var sys := states[n]; Exists(sys) && Row(sys).status.Completed?
    ensures var sys := states[n];
      && Row(sys).content == Flat(DeltaTexts(sys.stream.events))
      && DeltaTexts(sys.stream.events) == TokensOf(sys.stream.worker.lines, parse)
      && NoneIsDone(sys.stream.worker.lines, parse) && sys.stream.worker.done
  {
    hide Starts, DeltaTexts, TokensOf;
    MovesKeepSystem(states, ms, n, parse);
    var s := states[n].stream;
    OrderOf(s, parse);
    assert s.parts + Chunks([]) == s.parts;
  }

  /** Done is sent only when the row is stored as completed, and stays true as long as the row exists. */
  lemma DoneMeansStored(states: seq<System>, ms: seq<Move>, n: nat, parse: Parser)
    requires IsExecution(states, ms, parse) && n <= |ms|
    requires var sys := states[n]; DoneEvent in sys.stream.events && Exists(sys)
    ensures Row(states[n]).status.Completed?
  {
    hide Starts, Inv, StreamOk;
    MovesKeepSystem(states, ms, n, parse);
  }

  /** An answer that the worker broke off, because of a cancel of this process or one forwarded by a heartbeat or because
      of a failure, is not stored as completed. */
  lemma BrokenOffIsNotCompleted(states: seq<System>, ms: seq<Move>, n: nat, parse: Parser)
    requires IsExecution(states, ms, parse) && n <= |ms|
    requires var sys := states[n]; sys.stream.worker.ended && !sys.stream.worker.done && Exists(sys)
    ensures !Row(states[n]).status.Completed?
  {
    hide Starts, Inv, StreamOk;
    MovesKeepSystem(states, ms, n, parse);
  }

  /** The job is a next() that a thread runs or will run. */
  predicate IsOpenNext(r: StreamResponse, f: nat) {
    f < |r.pool| && r.pool[f].call.Next? && !r.pool[f].state.Ended?
  }

  /** The field tells the truth about the pool, wherever the response was cancelled and however each next() ended: when
      _pending_next is None no next() waits or runs there, and when it holds a future that is the only one that can. */
  lemma FieldTracksNext(states: seq<System>, ms: seq<Move>, n: nat, parse: Parser)
    requires IsExecution(states, ms, parse) && n <= |ms|
    ensures var r := states[n].response;
      && (r.pendingNext.None? ==> forall f: nat :: !IsOpenNext(r, f))
      && (r.pendingNext.Some? ==> forall f: nat :: IsOpenNext(r, f) ==> f == r.pendingNext.value)
  {
    hide Starts, Inv, StreamOk, RowOk;
    MovesKeepSystem(states, ms, n, parse);
  }

  /** The generator is only run inside a next() or close(), two of them never run at the same time, none is begun or waits
      while a close() waits or runs, and no thread ever finds the generator executing. */
  lemma NextAndCloseNeverOverlap(states: seq<System>, ms: seq<Move>, n: nat, parse: Parser)
    requires IsExecution(states, ms, parse) && n <= |ms|
    ensures var sys, r := states[n], states[n].response;
      && !r.clashed
      && (Executing(sys) || sys.stream.pc.Created? || Suspended(sys.stream.pc) || HasEnded(sys.stream.pc))
      && (forall f, g :: 0 <= f < |r.pool| && 0 <= g < |r.pool| && r.pool[f].state.Working? && r.pool[g].state.Working? ==>
            f == g)
      && (forall f :: 0 <= f < |r.pool| && r.pool[f].call.Close? ==> forall g: nat :: !IsOpenNext(r, g))
  {
    hide Starts, Inv, StreamOk, RowOk;
    MovesKeepSystem(states, ms, n, parse);
  }

  /** When the response is over, the first event was sent and no database call failed, the row is reconciling or terminal,
      or deleted. */
  lemma ResponseEndsResolved(states: seq<System>, ms: seq<Move>, n: nat, parse: Parser)
    requires IsExecution(states, ms, parse) && n <= |ms|
    requires var sys := states[n];
      sys.response.owner.Closed? && sys.stream.events != [] && !sys.dbFailed && Exists(sys)
    ensures var row := Row(states[n]); row.status.Reconciling? || Terminal(row.status)
  {
    hide Starts, Inv, StreamOk;
    MovesKeepSystem(states, ms, n, parse);
  }

  /** The events of a stream's own process are orderly: it freezes its input for the version its request was accepted
      with. */
  lemma StreamIsOrderly(states: seq<System>, ms: seq<Move>, n: nat, parse: Parser)
    requires IsExecution(states, ms, parse) && n < |ms| && ms[n].PrepareOk? && states[n].input.None?
    requires Enabled(states[n], ms[n])
    ensures var sys := states[n];
      RetryChain.Orderly(sys.world.chat, OnChat(MarkRunning(sys.generation, ms[n].snapshot, sys.me, ms[n].now)))
  {
    hide Starts, Inv, StreamOk;
    MovesKeepSystem(states, ms, n, parse);
  }
}
