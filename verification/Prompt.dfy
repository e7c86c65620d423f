/** retrieval/prompt.py: putting the chat messages together within a budget of characters a block. */
module Prompt {
  import opened Basics
  import opened Text
  import opened PromptEscape

  datatype Role = System | User | Assistant

  datatype Message = Message(role: Role, content: string)

  datatype PromptVersion = V1 | V2

  datatype Budget = Budget(systemAndSettings: nat, speech: nat, references: nat, history: nat, question: nat)

  datatype RetrievedChunk = RetrievedChunk(id: Uuid, source: Uuid, kind: string, headingPath: string, content: string)

  datatype Built = Built(
    messages: seq<Message>, truncated: bool, speechUsed: seq<RetrievedChunk>, bodyUsed: seq<RetrievedChunk>)

  datatype BuildError = SystemTurnInHistory | QuestionTooLong

  function Contents(chunks: seq<RetrievedChunk>): seq<string> {
    Map((c: RetrievedChunk) => c.content, chunks)
  }

  function RoleName(role: Role): string {
    match role
    case System => "system"
    case User => "user"
    case Assistant => "assistant"
  }

  function RenderTurn(turn: Message): string {
    RoleName(turn.role) + ": " + turn.content
  }

  function RenderHistory(history: seq<Message>): string {
    Join("\n", Map(RenderTurn, history))
  }

  /** How many messages the oldest exchange has: two for a question and its answer, otherwise one. */
  function OldestExchangeLength(history: seq<Message>): (n: nat)
    ensures n == 1 || n == 2
    ensures n == 2 ==> |history| >= 2
  {
    if |history| >= 2 && history[0].role == User && history[1].role == Assistant then 2 else 1
  }

  function DropCount(history: seq<Message>, version: PromptVersion): (n: nat)
    requires history != []
    ensures 1 <= n <= |history|
  {
    if version == V2 then OldestExchangeLength(history) else 1
  }

  predicate IsSuffix<T(==)>(xs: seq<T>, ys: seq<T>) {
    |xs| <= |ys| && xs == ys[|ys| - |xs|..]
  }

  lemma SuffixOfSuffix<T>(xs: seq<T>, ys: seq<T>, n: nat)
    requires n <= |ys| && IsSuffix(xs, ys[n..])
    ensures IsSuffix(xs, ys)
  {
  }

  function TrimHistory(history: seq<Message>, version: PromptVersion, budget: nat): seq<Message> {
    if |RenderHistory(history)| <= budget || history == [] then history
    else TrimHistory(history[DropCount(history, version)..], version, budget)
  }

  lemma {:induction false} TrimHistoryFits(history: seq<Message>, version: PromptVersion, budget: nat)
    ensures var kept := TrimHistory(history, version, budget);
      IsSuffix(kept, history) && (kept == [] || |RenderHistory(kept)| <= budget)
  {
    hide RenderHistory;
    if |RenderHistory(history)| > budget && history != [] {
      var n := DropCount(history, version);
      TrimHistoryFits(history[n..], version, budget);
      SuffixOfSuffix(TrimHistory(history[n..], version, budget), history, n);
    }
  }

  /** The first n of the chunks are the longest prefix whose rendering fits; n is 0 when none does. */
  ghost predicate LongestPrefix(n: nat, chunks: seq<RetrievedChunk>, render: seq<string> -> string, budget: nat) {
    && n <= |chunks|
    && (n == 0 || |render(Contents(chunks[..n]))| <= budget)
    && forall m :: n < m <= |chunks| ==> |render(Contents(chunks[..m]))| > budget
  }

  /** list.pop() until the rendered block fits or nothing is left. */
  method TrimChunks(chunks: seq<RetrievedChunk>, render: seq<string> -> string, budget: nat)
    returns (kept: seq<RetrievedChunk>, text: string)
    ensures kept <= chunks && LongestPrefix(|kept|, chunks, render, budget)
    ensures text == render(Contents(kept))
  {
    kept := chunks;
    text := render(Contents(kept));
    while |text| > budget && kept != []
      invariant kept <= chunks && text == render(Contents(kept))
      invariant forall m :: |kept| < m <= |chunks| ==> |render(Contents(chunks[..m]))| > budget
      decreases |kept|
    {
      assert kept == chunks[..|kept|];
      kept := kept[..|kept| - 1];
      text := render(Contents(kept));
    }
    assert kept == chunks[..|kept|];
  }

  method TrimTurns(history: seq<Message>, version: PromptVersion, budget: nat) returns (kept: seq<Message>)
    ensures kept == TrimHistory(history, version, budget)
  {
    kept := history;
    var text := RenderHistory(kept);
    while |text| > budget && kept != []
      invariant text == RenderHistory(kept)
      invariant TrimHistory(kept, version, budget) == TrimHistory(history, version, budget)
      decreases |kept|
    {
      var dropCount := DropCount(kept, version);
      kept := kept[dropCount..];
      text := RenderHistory(kept);
    }
  }

  /** The settings block: the profile is cut, the instruction and the name are not. */
  function SettingsBlock(instruction: string, name: string, profile: string, budget: nat): (string, bool) {
    var fixedPart := instruction + "\n\n" + name + "\n";
    if |fixedPart + profile| <= budget then (fixedPart + profile, false)
    else
      var available := if budget <= |fixedPart| then 0 else budget - |fixedPart|;
      (fixedPart + profile[..available], true)
  }

  function NonEmpty(parts: seq<string>): seq<string> {
    if parts == [] then [] else (if parts[0] == "" then [] else [parts[0]]) + NonEmpty(parts[1..])
  }

  /** build_messages. `instruction` is the instruction text of the prompt version for this character. */
  method BuildMessages(
    instruction: string, name: string, profile: string,
    speechChunks: seq<RetrievedChunk>, bodyChunks: seq<RetrievedChunk>,
    history: seq<Message>, question: string, budget: Budget, version: PromptVersion)
    returns (r: Result<Built, BuildError>)
    ensures (exists i :: 0 <= i < |history| && history[i].role == System) <==> r == Err(SystemTurnInHistory)
    ensures r == Err(QuestionTooLong)
      <==> (forall i :: 0 <= i < |history| ==> history[i].role != System) && |question| > budget.question
    ensures r.Ok? ==>
      var speech, body := r.value.speechUsed, r.value.bodyUsed;
      var settings := SettingsBlock(instruction, name, profile, budget.systemAndSettings);
      var content := Join("\n\n",
        NonEmpty([settings.0, RenderSpeech(Contents(speech)), RenderReferences(Contents(body))]));
      && speech <= speechChunks && LongestPrefix(|speech|, speechChunks, RenderSpeech, budget.speech)
      && body <= bodyChunks && LongestPrefix(|body|, bodyChunks, RenderReferences, budget.references)
      && r.value.truncated == settings.1
      && r.value.messages
         == [Message(System, content)] + TrimHistory(history, version, budget.history) + [Message(User, question)]
  {
    for i := 0 to |history|
      invariant forall j :: 0 <= j < i ==> history[j].role != System
    {
      if history[i].role == System {
        return Err(SystemTurnInHistory);
      }
    }
    var (systemAndSettings, truncated) := SettingsBlock(instruction, name, profile, budget.systemAndSettings);
    if |question| > budget.question {
      return Err(QuestionTooLong);
    }
    var speech, speechText := TrimChunks(speechChunks, RenderSpeech, budget.speech);
    var body, referencesText := TrimChunks(bodyChunks, RenderReferences, budget.references);
    var kept := TrimTurns(history, version, budget.history);
    var systemContent := Join("\n\n", NonEmpty([systemAndSettings, speechText, referencesText]));
    var messages := [Message(System, systemContent)] + kept + [Message(User, question)];
    return Ok(Built(messages, truncated, speech, body));
  }

  // ---------------------------------------------------------------- what trimming the history keeps

  /** Whole exchanges only, as load_history returns them. */
  predicate Exchanges(history: seq<Message>) {
    |history| % 2 == 0
    && forall i :: 0 <= i < |history| ==> history[i].role == if i % 2 == 0 then User else Assistant
  }

  /** The history kept by v2 is the longest run of latest whole exchanges that fits the budget, or nothing. */
  lemma {:induction false} V2KeepsLatestExchanges(history: seq<Message>, budget: nat)
    requires Exchanges(history)
    ensures var kept := TrimHistory(history, V2, budget);
      && Exchanges(kept) && IsSuffix(kept, history) && (kept == [] || |RenderHistory(kept)| <= budget)
      && forall d :: 0 <= d <= |history| && d % 2 == 0 && |history| - d > |kept| ==>
           |RenderHistory(history[d..])| > budget
    decreases |history|
  {
    hide RenderHistory;
    TrimHistoryFits(history, V2, budget);
    if |RenderHistory(history)| > budget && history != [] {
      assert history[0].role == User && history[1].role == Assistant;
      var rest := history[2..];
      assert Exchanges(rest) by {
        forall i | 0 <= i < |rest|
          ensures rest[i].role == if i % 2 == 0 then User else Assistant
        {
          assert rest[i] == history[i + 2];
        }
      }
      V2KeepsLatestExchanges(rest, budget);
      forall d | 0 <= d <= |history| && d % 2 == 0 && |history| - d > |TrimHistory(history, V2, budget)|
        ensures |RenderHistory(history[d..])| > budget
      {
        if d == 0 {
          assert history[0..] == history;
        } else {
          assert history[d..] == rest[d - 2..];
        }
      }
    }
  }

  /** The history kept by v1 is the longest suffix that fits the budget, or nothing. */
  lemma {:induction false} V1KeepsLongestSuffix(history: seq<Message>, budget: nat)
    ensures var kept := TrimHistory(history, V1, budget);
      forall d :: 0 <= d <= |history| && |history| - d > |kept| ==> |RenderHistory(history[d..])| > budget
    decreases |history|
  {
    if |RenderHistory(history)| > budget && history != [] {
      V1KeepsLongestSuffix(history[1..], budget);
      forall d | 0 <= d <= |history| && |history| - d > |TrimHistory(history, V1, budget)|
        ensures |RenderHistory(history[d..])| > budget
      {
        if d == 0 {
          assert history[0..] == history;
        } else {
          assert history[d..] == history[1..][d - 1..];
        }
      }
    }
  }
}
