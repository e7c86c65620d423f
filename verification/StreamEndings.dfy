/** How a response can leave its row: the cleanup resolves it if and only if something was sent, because close() on a
    generator that never ran has no handler to run. */
module StreamEndings {
  import opened Basics
  import opened Generations
  import C = ChatTables
  import opened Runs
  import opened Upstream
  import opened Streams
  import opened StreamProofs
  import opened StreamTheorems
  import FirstQuestion

  // ---------------------------------------------------------------- one move

  lemma OwnSendsMore(sys: System, m: Move, parse: Parser)
    requires !m.Others? && Enabled(sys, m)
    ensures sys.stream.events <= Own(sys, m, parse).stream.events
    ensures Own(sys, m, parse).generation == sys.generation
  {
    hide TurnOutcome, OpenOutcome, LineRead, TerminalEvent, WithChat, IsExecuting, CalledNext, NextArrived, CleanedUp;
    hide CalledClose, WithJob, EndingOf, UpstreamCancelled;
  }

  lemma WithChatKeepsRow(sys: System, e: ChatEvent)
    requires (e.MarkRunning? || e.Finish? || e.Disconnect?) && Exists(sys)
    ensures sys.generation in WithChat(sys, e).chat.generations
  {
  }

  lemma OwnKeepsRow(sys: System, m: Move, parse: Parser)
    requires !m.Others? && Enabled(sys, m) && Exists(sys)
    ensures Exists(Own(sys, m, parse))
  {
    hide TurnOutcome, OpenOutcome, LineRead, TerminalEvent, WithChat, IsExecuting, CalledNext, NextArrived, CleanedUp;
    hide CalledClose, WithJob, EndingOf, UpstreamCancelled, Polled, DeadlinePassed, Delivered, Worked, Taken;
    match m
    case PrepareOk(snapshot, now) => WithChatKeepsRow(sys, MarkRunning(sys.generation, snapshot, sys.me, now));
    case Store(now) =>
      WithChatKeepsRow(sys, Finish(sys.generation, sys.stream.pc.verdict, sys.stream.pc.content, now));
    case SafetyStore(now) => WithChatKeepsRow(sys, Finish(sys.generation, Failure("internal_error"), "", now));
    case RecordDisconnect(now) => WithChatKeepsRow(sys, Disconnect(sys.generation, now));
    case _ =>
  }

  /** As long as nothing was sent, the stream's own moves write nothing to the database. */
  lemma SilentStep(sys: System, m: Move, parse: Parser)
    requires SystemOk(sys, parse) && !m.Others? && Enabled(sys, m) && Own(sys, m, parse).stream.events == []
    ensures Own(sys, m, parse).world == sys.world
  {
    hide Inv, StreamOk, RowOk, CancelOk, OwnerOk, TurnOutcome, OpenOutcome, LineRead, TerminalEvent, WithChat;
    if m.RecordDisconnect? {
      PcFacts(sys.stream, parse);
      assert false;
    }
  }

  lemma DoSendsMore(sys: System, m: Move, parse: Parser)
    ensures sys.stream.events <= Do(sys, m, parse).stream.events
    ensures Do(sys, m, parse).generation == sys.generation
    ensures !m.Others? && Exists(sys) ==> Exists(Do(sys, m, parse))
  {
    hide Own, Step, Enabled;
    if !m.Others? && Enabled(sys, m) {
      OwnSendsMore(sys, m, parse);
      if Exists(sys) {
        OwnKeepsRow(sys, m, parse);
      }
    }
  }

  // ---------------------------------------------------------------- whole executions

  /** The moves of the stream's own process left the database as it was. */
  ghost predicate OwnMovesWriteNothing(states: seq<System>, ms: seq<Move>, n: nat)
    requires n <= |ms| < |states|
  {
    forall k :: 0 <= k < n && !ms[k].Others? ==> states[k + 1].world == states[k].world
  }

  /** As long as nothing was sent, all that happened to the database was done by others. */
  lemma {:induction false} NothingSentNothingWritten(states: seq<System>, ms: seq<Move>, n: nat, parse: Parser)
    requires IsExecution(states, ms, parse) && n <= |ms| && states[n].stream.events == []
    ensures OwnMovesWriteNothing(states, ms, n)
  {
    hide Starts, Do, SystemOk, Own, Step, Enabled;
    if n > 0 {
      var sys, m := states[n - 1], ms[n - 1];
      OneMove(states, ms, n - 1, parse);
      DoSendsMore(sys, m, parse);
      NothingSentNothingWritten(states, ms, n - 1, parse);
      SilentMove(states, ms, n - 1, parse);
    }
  }

  lemma SilentMove(states: seq<System>, ms: seq<Move>, n: nat, parse: Parser)
    requires IsExecution(states, ms, parse) && n < |ms| && states[n + 1].stream.events == []
    ensures !ms[n].Others? ==> states[n + 1].world == states[n].world
  {
    hide Starts, SystemOk, Own, Step, Enabled;
    OneMove(states, ms, n, parse);
    MovesKeepSystem(states, ms, n, parse);
    if !ms[n].Others? && Enabled(states[n], ms[n]) {
      SilentStep(states[n], ms[n], parse);
    }
  }

  predicate SameRow(sys: System, after: System) {
    Exists(sys) ==> Exists(after) && Row(after) == Row(sys)
  }

  /** No other request or process moves the stream's row. */
  predicate LeftAlone(states: seq<System>, ms: seq<Move>, n: nat)
    requires n <= |ms| < |states|
  {
    forall k :: 0 <= k < n && ms[k].Others? ==> SameRow(states[k], states[k + 1])
  }

  lemma {:induction false} RowIsThere(states: seq<System>, ms: seq<Move>, n: nat, parse: Parser)
    requires IsExecution(states, ms, parse) && n <= |ms| && LeftAlone(states, ms, n)
    ensures Exists(states[n])
  {
    hide Do;
    if n > 0 {
      hide Starts;
      RowIsThere(states, ms, n - 1, parse);
      OneMove(states, ms, n - 1, parse);
      DoSendsMore(states[n - 1], ms[n - 1], parse);
      assert ms[n - 1].Others? ==> SameRow(states[n - 1], states[n]);
    }
  }

  lemma {:induction false} RowUntouched(states: seq<System>, ms: seq<Move>, n: nat, parse: Parser)
    requires IsExecution(states, ms, parse) && n <= |ms| && LeftAlone(states, ms, n)
    requires states[n].stream.events == []
    ensures Exists(states[0]) && Exists(states[n]) && Row(states[n]) == Row(states[0])
  {
    hide Do;
    if n > 0 {
      hide Starts;
      OneMove(states, ms, n - 1, parse);
      DoSendsMore(states[n - 1], ms[n - 1], parse);
      RowUntouched(states, ms, n - 1, parse);
      SilentMove(states, ms, n - 1, parse);
      assert ms[n - 1].Others? ==> SameRow(states[n - 1], states[n]);
    }
  }

  /** The promise of the cleanup and exactly where it fails: for a row that was live when the response began, that nobody
      else touched, and a database that did not fail, the row is still live after the end of the response if and only if
      nothing was sent. */
  lemma LiveAfterwardsExactlyWhenNothingSent(states: seq<System>, ms: seq<Move>, n: nat, parse: Parser)
    requires IsExecution(states, ms, parse) && n <= |ms| && LeftAlone(states, ms, n)
    requires Exists(states[0]) && Live(Row(states[0]).status)
    requires states[n].response.owner.Closed? && !states[n].dbFailed
    ensures Exists(states[n])
    ensures Live(Row(states[n]).status) <==> states[n].stream.events == []
  {
    hide Starts, Do;
    RowIsThere(states, ms, n, parse);
    if states[n].stream.events == [] {
      RowUntouched(states, ms, n, parse);
    } else {
      ResponseEndsResolved(states, ms, n, parse);
    }
  }

  // ---------------------------------------------------------------- and it happens

  /** The system right after the question of FirstQuestion was accepted. */
  ghost function Accepted(me: Instance): System {
    System(Played(START, FirstQuestion.Events(me, 0.0)), FirstQuestion.GENERATION, FirstQuestion.VERSION, None, me, FRESH,
      UNSENT, false, false)
  }

  lemma AcceptedStarts(me: Instance)
    ensures Starts(Accepted(me)) && Exists(Accepted(me)) && Live(Row(Accepted(me)).status)
  {
    hide Step, StepsAt, Played;
    FirstQuestion.QuestionIsAccepted(me, 0.0);
    var es := FirstQuestion.Events(me, 0.0);
    EveryOrderIsARun(es);
    assert IsReachable(Accepted(me).world);
  }

  const CUT_SHORT: seq<Move> := [CancelResponse, CleanUp, TakeJob(0), EndJob(0), CloseArrives]

  /** The client disconnects while the response is still sending its head. */
  function CutShort(sys: System): seq<System> {
    var over := FRESH.(pc := Over);
    [sys,
      sys.(response := UNSENT.(owner := Unwinding)),
      sys.(response := StreamResponse(AwaitsClose(0), [Job(Close, Waiting)], None, true, false)),
      sys.(response := StreamResponse(AwaitsClose(0), [Job(Close, Working)], None, true, false), stream := over),
      sys.(response := StreamResponse(AwaitsClose(0), [Job(Close, Ended(Exhausted))], None, true, false), stream := over),
      sys.(response := StreamResponse(Owner.Closed, [Job(Close, Ended(Exhausted))], None, true, false), stream := over)]
  }

  lemma CutShortIsExecution(sys: System, parse: Parser)
    requires Starts(sys)
    ensures IsExecution(CutShort(sys), CUT_SHORT, parse)
  {
    hide Step, IsReachable, WithChat, TurnOutcome, OpenOutcome, Polled, DeadlinePassed, Stored, Prepared;
    var states := CutShort(sys);
    assert !IsExecuting(states[2].response);
    assert MovesAt(states, CUT_SHORT, 0, parse);
    assert MovesAt(states, CUT_SHORT, 1, parse);
    assert MovesAt(states, CUT_SHORT, 2, parse);
    assert MovesAt(states, CUT_SHORT, 3, parse);
    assert MovesAt(states, CUT_SHORT, 4, parse);
  }

  /** The response is over, nothing failed and nobody else touched the row, and yet it is live. */
  ghost predicate EndsLive(states: seq<System>, ms: seq<Move>, parse: Parser) {
    && IsExecution(states, ms, parse) && LeftAlone(states, ms, |ms|)
    && var end := states[|ms|];
       end.response.owner.Closed? && !end.dbFailed && Exists(end) && Live(Row(end).status)
  }

  /** A response can end, without any failure and with nobody else about, and leave its row queued. */
  lemma CanEndWithLiveRow(me: Instance, parse: Parser)
    ensures exists states: seq<System>, ms: seq<Move> :: EndsLive(states, ms, parse)
  {
    hide Starts, MovesAt;
    AcceptedStarts(me);
    CutShortIsExecution(Accepted(me), parse);
    var states := CutShort(Accepted(me));
    hide Accepted;
    assert LeftAlone(states, CUT_SHORT, |CUT_SHORT|);
    assert EndsLive(states, CUT_SHORT, parse);
  }
}
