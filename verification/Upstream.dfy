/** The vLLM adapter of chat/vllm_client.py: reading one answer from the lines of a server-sent event stream. The stream is
    an arbitrary sequence of turns of the reading loop; what JSON text means is a parameter. */
module Upstream {
  import opened Basics
  import opened Text
  import opened PromptEscape

  datatype Json =
    | Null | Bool(b: bool) | Number(n: real) | Str(text: string) | List(items: seq<Json>) | Object(fields: map<string, Json>)

  /** The JSON reader: None when the text is not JSON. */
  type Parser = string -> Option<Json>

  const DATA_PREFIX: string := "data:"
  const DONE_SENTINEL: string := "[DONE]"

  const UNAVAILABLE: string := "upstream_unavailable"
  const FIRST_TOKEN_TIMEOUT: string := "upstream_first_token_timeout"
  const IDLE_TIMEOUT: string := "upstream_idle_timeout"
  const MALFORMED: string := "upstream_malformed_response"
  const DISCONNECTED: string := "upstream_disconnected"

  // ---------------------------------------------------------------- one line

  datatype LineKind = IsToken(text: string) | IsDone | IsIgnored | IsMalformed

  /** What Python's `not value` says. */
  predicate Falsy(value: Json) {
    match value
    case Null => true
    case Bool(b) => !b
    case Number(n) => n == 0.0
    case Str(text) => text == ""
    case List(items) => items == []
    case Object(fields) => |fields| == 0
  }

  function Field(value: Json, name: string): Json {
    if value.Object? && name in value.fields then value.fields[name] else Null
  }

  /** _content_from_chunk: the text of choices[0].delta.content. */
  function ContentOf(chunk: Json): LineKind {
    var choices := Field(chunk, "choices");
    if !chunk.Object? then IsMalformed
    else if Falsy(choices) then IsIgnored
    else if !choices.List? || !choices.items[0].Object? then IsMalformed
    else
      var delta := Field(choices.items[0], "delta");
      var content := Field(delta, "content");
      if delta.Null? then IsIgnored
      else if !delta.Object? then IsMalformed
      else if content.Null? || content == Str("") then IsIgnored
      else if content.Str? then IsToken(content.text)
      else IsMalformed
  }

  /** _token_from_line */
  function KindOf(line: string, parse: Parser): LineKind {
    var text := Strip(line);
    if text == "" || text[0] == ':' then IsIgnored
    else if !(DATA_PREFIX <= text) then IsIgnored
    else
      var data := Strip(text[|DATA_PREFIX|..]);
      if data == DONE_SENTINEL then IsDone
      else
        match parse(data)
        case None => IsMalformed
        case Some(chunk) => ContentOf(chunk)
  }

  // ---------------------------------------------------------------- one turn of the loop

  /** What the queue of the reader thread gave within the deadline. */
  datatype Read = Line(line: string) | LinesEnded | ReadTimedOut | HttpFailed | OtherError | Silence

  /** `cancelled` is the flag at the top of the loop, `cancelledNow` the flag when it is looked at again after the read. */
  datatype Turn = Turn(cancelled: bool, read: Read, cancelledNow: bool)

  datatype Outcome = Yields(text: string) | Skips | Quiet(done: bool) | Fails(code: string) | Crashes

  function TimeoutCode(sawToken: bool): string {
    if sawToken then IDLE_TIMEOUT else FIRST_TOKEN_TIMEOUT
  }

  /** One turn of the loop in _tokens, with the classification of read errors by _stream. */
  function TurnOutcome(sawToken: bool, turn: Turn, parse: Parser): Outcome {
    if turn.cancelled then Quiet(false)
    else
      match turn.read
      case Line(line) =>
        (match KindOf(line, parse)
        case IsToken(text) => Yields(text)
        case IsDone => Quiet(true)
        case IsIgnored => Skips
        case IsMalformed => Fails(MALFORMED))
      case LinesEnded => if turn.cancelledNow then Quiet(false) else Fails(DISCONNECTED)
      case ReadTimedOut => if turn.cancelledNow then Quiet(false) else Fails(TimeoutCode(sawToken))
      case HttpFailed => if turn.cancelledNow then Quiet(false) else Fails(UNAVAILABLE)
      case OtherError => Crashes
      case Silence => if turn.cancelledNow then Quiet(false) else Fails(TimeoutCode(sawToken))
  }

  predicate Goes(outcome: Outcome) {
    outcome.Yields? || outcome.Skips?
  }

  /** Everything the loop yields on these turns, and how it ended if it did. */
  function Drained(sawToken: bool, turns: seq<Turn>, parse: Parser): (seq<string>, Option<Outcome>)
    decreases |turns|
  {
    if turns == [] then ([], None)
    else
      match TurnOutcome(sawToken, turns[0], parse)
      case Yields(text) =>
        var (texts, end) := Drained(true, turns[1..], parse);
        ([text] + texts, end)
      case Skips => Drained(sawToken, turns[1..], parse)
      case outcome => ([], Some(outcome))
  }

  method Tokens(turns: seq<Turn>, parse: Parser) returns (texts: seq<string>, end: Option<Outcome>)
    ensures (texts, end) == Drained(false, turns, parse)
  {
    hide KindOf;
    texts := [];
    var sawToken := false;
    assert turns[0..] == turns;
    ghost var all := Drained(false, turns, parse);
    assert [] + all.0 == all.0;
    for i := 0 to |turns|
      invariant var rest := Drained(sawToken, turns[i..], parse);
        texts + rest.0 == all.0 && rest.1 == all.1
    {
      assert turns[i..][0] == turns[i] && turns[i..][1..] == turns[i + 1..];
      var outcome := TurnOutcome(sawToken, turns[i], parse);
      if outcome.Yields? {
        Assoc(texts, [outcome.text], Drained(true, turns[i + 1..], parse).0);
        texts, sawToken := texts + [outcome.text], true;
      } else if !outcome.Skips? {
        assert texts + [] == texts;
        return texts, Some(outcome);
      }
    }
    assert texts + [] == texts;
    return texts, None;
  }

  // ---------------------------------------------------------------- what an answer is

  /** The content tokens of the lines read, in order. */
  function TokensOf(lines: seq<string>, parse: Parser): seq<string> {
    if lines == [] then []
    else (match KindOf(lines[0], parse) case IsToken(text) => [text] case _ => []) + TokensOf(lines[1..], parse)
  }

  lemma {:induction false} TokensOfPush(lines: seq<string>, line: string, parse: Parser)
    ensures TokensOf(lines + [line], parse)
      == TokensOf(lines, parse) + (match KindOf(line, parse) case IsToken(text) => [text] case _ => [])
  {
    hide KindOf;
    if lines == [] {
      assert [line][1..] == [] && [] + [line] == [line];
    } else {
      TokensOfPush(lines[1..], line, parse);
      TokensOfFirst(lines, line, parse);
    }
  }

  lemma TokensOfFirst(lines: seq<string>, line: string, parse: Parser)
    requires lines != []
    requires TokensOf(lines[1..] + [line], parse)
      == TokensOf(lines[1..], parse) + (match KindOf(line, parse) case IsToken(text) => [text] case _ => [])
    ensures TokensOf(lines + [line], parse)
      == TokensOf(lines, parse) + (match KindOf(line, parse) case IsToken(text) => [text] case _ => [])
  {
    hide KindOf;
    assert (lines + [line])[0] == lines[0] && (lines + [line])[1..] == lines[1..] + [line];
  }

  /** An answer is complete when the sentinel was read: nothing before it was. */
  predicate NoneIsDone(lines: seq<string>, parse: Parser) {
    forall i :: 0 <= i < |lines| ==> !KindOf(lines[i], parse).IsDone?
  }

  function LinesOf(turns: seq<Turn>): seq<string> {
    if turns == [] then []
    else (if turns[0].read.Line? then [turns[0].read.line] else []) + LinesOf(turns[1..])
  }

  predicate SawCancel(turn: Turn) {
    turn.cancelled || turn.cancelledNow
  }

  /** Turn n reads the sentinel, no line before it is one, and the texts are all content tokens read before it. */
  predicate IsWholeAnswer(turns: seq<Turn>, n: nat, texts: seq<string>, parse: Parser) {
    && n < |turns| && turns[n].read.Line? && KindOf(turns[n].read.line, parse).IsDone?
    && NoneIsDone(LinesOf(turns[..n]), parse)
    && texts == TokensOf(LinesOf(turns[..n]), parse)
  }

  /** Why the loop ended quietly. */
  predicate QuietReason(done: bool, turns: seq<Turn>, n: nat, texts: seq<string>, parse: Parser) {
    if done then IsWholeAnswer(turns, n, texts, parse) else n < |turns| && SawCancel(turns[n])
  }

  /** The loop ends without an exception only at the sentinel, after it has yielded every content token before it, or
      because it saw the cancel flag. */
  lemma {:induction false} QuietMeansDoneOrCancelled(sawToken: bool, turns: seq<Turn>, parse: Parser, done: bool)
    requires Drained(sawToken, turns, parse).1 == Some(Quiet(done))
    ensures exists n: nat :: QuietReason(done, turns, n, Drained(sawToken, turns, parse).0, parse)
    decreases |turns|
  {
    hide KindOf;
    var texts := Drained(sawToken, turns, parse).0;
    var outcome := TurnOutcome(sawToken, turns[0], parse);
    if Goes(outcome) {
      var saw := sawToken || outcome.Yields?;
      QuietMeansDoneOrCancelled(saw, turns[1..], parse, done);
      var rest := Drained(saw, turns[1..], parse).0;
      var n: nat :| QuietReason(done, turns[1..], n, rest, parse);
      if done {
        LongerAnswer(sawToken, turns, n, rest, parse);
      } else {
        assert turns[1..][n] == turns[n + 1];
      }
      assert QuietReason(done, turns, n + 1, texts, parse);
    } else {
      assert turns[..0] == [] && NoneIsDone([], parse);
      assert QuietReason(done, turns, 0, texts, parse);
    }
  }

  lemma LongerAnswer(sawToken: bool, turns: seq<Turn>, n: nat, rest: seq<string>, parse: Parser)
    requires turns != [] && n < |turns| - 1 && IsWholeAnswer(turns[1..], n, rest, parse)
    requires Goes(TurnOutcome(sawToken, turns[0], parse))
    ensures var outcome := TurnOutcome(sawToken, turns[0], parse);
      IsWholeAnswer(turns, n + 1, (if outcome.Yields? then [outcome.text] else []) + rest, parse)
  {
    hide KindOf;
    var line := turns[0].read.line;
    var lines := LinesOf(turns[1..][..n]);
    assert turns[..n + 1][0] == turns[0] && turns[..n + 1][1..] == turns[1..][..n];
    assert LinesOf(turns[..n + 1]) == [line] + lines;
    assert ([line] + lines)[0] == line && ([line] + lines)[1..] == lines;
    assert turns[1..][n] == turns[n + 1];
  }

  // ---------------------------------------------------------------- opening the stream

  datatype Response = Status(code: nat) | NoHeaders | ConnectFailed

  /** Before the loop: a cancel that came first sends no request. */
  function OpenOutcome(cancelledBefore: bool, response: Response, cancelledNow: bool): Outcome {
    if cancelledBefore || cancelledNow then Quiet(false)
    else
      match response
      case NoHeaders => Fails(FIRST_TOKEN_TIMEOUT)
      case ConnectFailed => Fails(UNAVAILABLE)
      case Status(code) => if code != 200 then Fails("upstream_status_" + Decimal(code)) else Skips
  }

  // ---------------------------------------------------------------- attempts

  datatype Attempt = Attempt(cancelled: bool, open: bool, closed: bool)

  const NEW_ATTEMPT: Attempt := Attempt(false, false, false)

  function CancelledAttempt(attempt: Attempt): Attempt {
    attempt.(cancelled := true, closed := attempt.closed || attempt.open)
  }

  /** What is called on the client: start(), the response attached by its iterator, cancel(), and the iterator's finally. */
  datatype ClientCall = Start(g: Uuid) | Attach(g: Uuid) | Cancel(g: Uuid) | Forget(g: Uuid)

  function Applied(attempts: map<Uuid, Attempt>, call: ClientCall): map<Uuid, Attempt> {
    match call
    case Start(g) => attempts[g := NEW_ATTEMPT]
    case Attach(g) => if g in attempts then attempts[g := attempts[g].(open := true)] else attempts
    case Cancel(g) => if g in attempts then attempts[g := CancelledAttempt(attempts[g])] else attempts
    case Forget(g) => attempts - {g}
  }

  /** The table of a new client after these calls, in any order and for any generations. */
  function Attempts(calls: seq<ClientCall>): map<Uuid, Attempt> {
    if calls == [] then map[] else Applied(Attempts(calls[..|calls| - 1]), calls[|calls| - 1])
  }

  /** Call s started an attempt at g, and g was neither started again nor forgotten since. */
  predicate StartedAt(calls: seq<ClientCall>, g: Uuid, s: nat) {
    s < |calls| && calls[s] == Start(g) && forall i :: s < i < |calls| ==> calls[i] != Start(g) && calls[i] != Forget(g)
  }

  predicate CancelledSince(calls: seq<ClientCall>, g: Uuid, s: nat) {
    exists i :: s < i < |calls| && calls[i] == Cancel(g)
  }

  predicate OpenedSince(calls: seq<ClientCall>, g: Uuid, s: nat) {
    exists i :: s < i < |calls| && calls[i] == Attach(g)
  }

  predicate CancelledWhenOpen(calls: seq<ClientCall>, g: Uuid, s: nat) {
    exists i, j :: s < i < j < |calls| && calls[i] == Attach(g) && calls[j] == Cancel(g)
  }

  /** What a trace says of an attempt. */
  predicate Tells(calls: seq<ClientCall>, g: Uuid, s: nat, attempt: Attempt) {
    && (attempt.cancelled <==> CancelledSince(calls, g, s)) && (attempt.open <==> OpenedSince(calls, g, s))
    && (attempt.closed <==> CancelledWhenOpen(calls, g, s))
  }

  lemma OneMoreCall(calls: seq<ClientCall>, call: ClientCall, g: Uuid, s: nat, attempt: Attempt)
    requires StartedAt(calls, g, s) && Tells(calls, g, s, attempt) && call != Start(g) && call != Forget(g)
    ensures StartedAt(calls + [call], g, s)
    ensures Tells(calls + [call], g, s,
      if call == Attach(g) then attempt.(open := true)
      else if call == Cancel(g) then CancelledAttempt(attempt) else attempt)
  {
    var longer := calls + [call];
    assert forall i :: 0 <= i < |calls| ==> longer[i] == calls[i];
    assert longer[|calls|] == call;
  }

  /** An attempt that was started and not forgotten is in the table, its flag is set exactly if it was cancelled since its
      start, however early, and its response is closed exactly if a cancel found it open. */
  lemma {:induction false} RunningAttempt(calls: seq<ClientCall>, g: Uuid, s: nat)
    requires StartedAt(calls, g, s)
    ensures g in Attempts(calls) && Tells(calls, g, s, Attempts(calls)[g])
    decreases |calls|
  {
    var front, call := calls[..|calls| - 1], calls[|calls| - 1];
    assert front + [call] == calls;
    if s < |front| {
      assert StartedAt(front, g, s);
      RunningAttempt(front, g, s);
      OneMoreCall(front, call, g, s, Attempts(front)[g]);
    }
  }

  /** Nothing else is in the table: what is there was started and not forgotten. */
  lemma {:induction false} KnownAttempt(calls: seq<ClientCall>, g: Uuid)
    ensures g in Attempts(calls) <==> exists s: nat :: StartedAt(calls, g, s)
  {
    if calls != [] {
      var front, call := calls[..|calls| - 1], calls[|calls| - 1];
      assert front + [call] == calls;
      KnownAttempt(front, g);
      if call == Start(g) {
        assert StartedAt(calls, g, |front|);
      } else if call != Forget(g) {
        StartStays(front, call, g);
      }
    }
  }

  lemma StartStays(front: seq<ClientCall>, call: ClientCall, g: Uuid)
    requires call != Start(g) && call != Forget(g)
    ensures (exists s: nat :: StartedAt(front, g, s)) <==> exists s: nat :: StartedAt(front + [call], g, s)
  {
    var longer := front + [call];
    assert forall i :: 0 <= i < |front| ==> longer[i] == front[i];
    assert longer[|front|] == call;
    forall s: nat
      ensures StartedAt(front, g, s) <==> StartedAt(longer, g, s)
    {
    }
  }

  /** The client's table of running attempts. */
  class VllmClient {
    var attempts: map<Uuid, Attempt>

    constructor ()
      ensures attempts == Attempts([])
    {
      attempts := map[];
    }

    /** start() registers before it returns the iterator, so that a cancel finds the attempt. */
    method Start(g: Uuid)
      modifies this
      ensures attempts == Applied(old(attempts), ClientCall.Start(g))
    {
      attempts := attempts[g := NEW_ATTEMPT];
    }

    method Attach(g: Uuid)
      modifies this
      ensures attempts == Applied(old(attempts), ClientCall.Attach(g))
    {
      if g in attempts {
        attempts := attempts[g := attempts[g].(open := true)];
      }
    }

    /** The flag is set, and an open response is closed to free the reader. */
    method Cancel(g: Uuid)
      modifies this
      ensures attempts == Applied(old(attempts), ClientCall.Cancel(g))
      ensures attempts.Keys == old(attempts).Keys
      ensures forall h :: h in attempts ==>
        attempts[h] == if h == g then CancelledAttempt(old(attempts[h])) else old(attempts[h])
    {
      if g !in attempts {
        return;
      }
      var attempt := attempts[g].(cancelled := true);
      if attempt.open {
        attempt := attempt.(closed := true);
      }
      attempts := attempts[g := attempt];
    }

    /** The finally of _iterate. */
    method Forget(g: Uuid)
      modifies this
      ensures attempts == Applied(old(attempts), ClientCall.Forget(g))
    {
      attempts := attempts - {g};
    }
  }

  // ---------------------------------------------------------------- cancelling while the request goes out

  /** Where _stream is: before its first look at the flag, with the request out, with the response attached but the flag
      not looked at again, reading, or through. */
  datatype Reader = Beginning | Requesting | Attached | Reading | Through

  /** Where one call of cancel() is: it has found the attempt, set the flag, read the attempt's response, or returned. */
  datatype Canceller = Found | Flagged | Saw(response: bool) | Returned

  /** One attempt and all that goes on about it in other threads, without any lock. */
  datatype Handle = Handle(cancelled: bool, attached: bool, closed: bool, reader: Reader, cancellers: seq<Canceller>)

  datatype HandleMove =
    | LookFirst | AttachResponse | LookAgain | EndReading
    | Find | SetFlag(c: nat) | ReadResponse(c: nat) | CloseResponse(c: nat)

  const UNTOUCHED: Handle := Handle(false, false, false, Beginning, [])

  /** A move that is out of turn changes nothing. */
  function Handled(h: Handle, m: HandleMove): Handle {
    match m
    case LookFirst => if h.reader.Beginning? then h.(reader := if h.cancelled then Through else Requesting) else h
    case AttachResponse => if h.reader.Requesting? then h.(reader := Attached, attached := true) else h
    case LookAgain =>
      if !h.reader.Attached? then h
      else if h.cancelled then h.(reader := Through, closed := true) else h.(reader := Reading)
    case EndReading => if h.reader.Reading? then h.(reader := Through, closed := true) else h
    case Find => h.(cancellers := h.cancellers + [Found])
    case SetFlag(c) =>
      if c < |h.cancellers| && h.cancellers[c].Found? then
        h.(cancellers := h.cancellers[c := Flagged], cancelled := true)
      else h
    case ReadResponse(c) =>
      if c < |h.cancellers| && h.cancellers[c].Flagged? then h.(cancellers := h.cancellers[c := Saw(h.attached)]) else h
    case CloseResponse(c) =>
      if c < |h.cancellers| && h.cancellers[c].Saw? then
        h.(cancellers := h.cancellers[c := Returned], closed := h.closed || h.cancellers[c].response)
      else h
  }

  function HandledAll(moves: seq<HandleMove>): Handle {
    if moves == [] then UNTOUCHED else Handled(HandledAll(moves[..|moves| - 1]), moves[|moves| - 1])
  }

  /** The flag is set before the response is read, and attached before the flag is looked at again: one of the two sees the
      other. */
  predicate Meets(h: Handle, canceller: Canceller) {
    && (!canceller.Found? ==> h.cancelled)
    && (canceller == Saw(false) ==> !h.reader.Reading?)
    && (canceller.Returned? ==> h.closed || !h.reader.Reading?)
  }

  predicate HandleOk(h: Handle) {
    (h.reader.Attached? || h.reader.Reading? ==> h.attached) && forall c :: 0 <= c < |h.cancellers| ==> Meets(h, h.cancellers[c])
  }

  lemma OneMoreMove(h: Handle, m: HandleMove)
    requires HandleOk(h)
    ensures HandleOk(Handled(h, m))
  {
    var after := Handled(h, m);
    forall c | 0 <= c < |after.cancellers|
      ensures Meets(after, after.cancellers[c])
    {
      if c < |h.cancellers| {
        assert Meets(h, h.cancellers[c]);
      }
    }
  }

  lemma {:induction false} HandlesMeet(moves: seq<HandleMove>)
    ensures HandleOk(HandledAll(moves))
    decreases |moves|
  {
    if moves != [] {
      HandlesMeet(moves[..|moves| - 1]);
      OneMoreMove(HandledAll(moves[..|moves| - 1]), moves[|moves| - 1]);
    }
  }

  /** No cancel is lost, however its steps fall between those of the stream and of other cancels: once a cancel() has
      returned the flag is set, and no reader goes on reading from an open response. */
  lemma CancelReachesReader(moves: seq<HandleMove>, c: nat)
    requires var h := HandledAll(moves); c < |h.cancellers| && h.cancellers[c].Returned?
    ensures var h := HandledAll(moves); h.cancelled && (h.reader.Reading? ==> h.closed)
  {
    HandlesMeet(moves);
    assert Meets(HandledAll(moves), HandledAll(moves).cancellers[c]);
  }
}
