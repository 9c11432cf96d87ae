/** Turns of the kernel that grow a history (executeTurn, appendToolRound and newMessage of agent/agent.go). */
module ToolRounds {
  import opened ToolHistory
  import opened HistoryCheck

  /** What happened to one dispatched call: a failure anywhere before its result message, or the result's
      content and the event sequence that names its message. */
  datatype Outcome = Outcome(failed: bool, content: Json, sequence: nat)

  /** One turn of the model: text, calls, the sequence naming the assistant message, one outcome per call. */
  datatype Turn = Turn(text: string, calls: seq<Call>, sequence: nat, outcomes: seq<Outcome>)

  predicate WellFormed(turn: Turn) {
    |turn.outcomes| == |turn.calls|
  }

  /** The history and the message identities in use. */
  datatype Book = Book(history: seq<Message>, ids: set<string>)

  datatype Progress = Progress(book: Book, ok: bool)

  function Digit(n: nat): (c: char)
    requires n < 10
  {
    "0123456789"[n]
  }

  function Decimal(n: nat): (s: string) {
    if n < 10 then [Digit(n)] else Decimal(n / 10) + [Digit(n % 10)]
  }

  function MessageId(run: string, sequence: nat): (id: string) {
    run + "/message/" + Decimal(sequence)
  }

  /** newMessage refuses an invalid message and an identity already in use. */
  predicate Creatable(b: Book, m: Message) {
    ValidMessage(m) && m.id !in b.ids
  }

  function Record(b: Book, m: Message): (r: Book) {
    Book(b.history + [m], b.ids + {m.id})
  }

  function CallParts(calls: seq<Call>): (parts: seq<Part>)
    ensures |parts| == |calls|
  {
    seq(|calls|, i requires 0 <= i < |calls| => ToolCall(calls[i].id, calls[i].name, calls[i].arguments))
  }

  function AssistantMessage(run: string, turn: Turn): (m: Message) {
    Message(MessageId(run, turn.sequence), Assistant,
            (if turn.text == "" then [] else [Text(turn.text)]) + CallParts(turn.calls))
  }

  function ResultMessage(run: string, call: Call, outcome: Outcome): (m: Message) {
    Message(MessageId(run, outcome.sequence), Tool, [ToolResult(call.id, call.name, outcome.content)])
  }

  /** The calls from `n` on are dispatched one after the other; the first failure ends the round. */
  function Answer(b: Book, run: string, turn: Turn, n: nat): (p: Progress)
    requires WellFormed(turn) && n <= |turn.calls|
    decreases |turn.calls| - n
  {
    if n == |turn.calls| then Progress(b, true)
    else
      var m := ResultMessage(run, turn.calls[n], turn.outcomes[n]);
      if turn.outcomes[n].failed || !Creatable(b, m) then Progress(b, false) else Answer(Record(b, m), run, turn, n + 1)
  }

  /** The assistant message of the turn is accepted. */
  predicate Admitted(b: Book, run: string, turn: Turn) {
    NewCalls(b.history, turn.calls) && Creatable(b, AssistantMessage(run, turn))
  }

  /** One turn; without calls it completes the run and records nothing. */
  function Round(b: Book, run: string, turn: Turn): (p: Progress)
    requires WellFormed(turn)
  {
    if turn.calls == [] then Progress(b, true)
    else if !Admitted(b, run, turn) then Progress(b, false)
    else Answer(Record(b, AssistantMessage(run, turn)), run, turn, 0)
  }

  predicate AllWellFormed(turns: seq<Turn>) {
    forall i | 0 <= i < |turns| :: WellFormed(turns[i])
  }

  /** The turns of a run up to the first failure. */
  function Rounds(b: Book, run: string, turns: seq<Turn>): (p: Progress)
    requires AllWellFormed(turns)
  {
    if turns == [] then Progress(b, true)
    else
      var before := Rounds(b, run, turns[..|turns| - 1]);
      if before.ok then Round(before.book, run, turns[|turns| - 1]) else before
  }

  // ---------------------------------------------------------------------------
  // Messages stay valid and distinct
  // ---------------------------------------------------------------------------

  predicate Kept(b: Book) {
    && b.history != [] && b.history[0].role.User?
    && (forall i | 0 <= i < |b.history| :: ValidMessage(b.history[i]))
    && DistinctIds(b.history)
    && b.ids == Ids(b.history)
  }

  lemma {:induction false} RecordKeeps(b: Book, m: Message)
    requires Kept(b) && Creatable(b, m)
    ensures Kept(Record(b, m)) && Record(b, m).history[0] == b.history[0]
  {
    var h := b.history + [m];
    forall i, j | 0 <= i < j < |h| ensures h[i].id != h[j].id {
      if j == |b.history| { assert b.history[i] in b.history; }
    }
    assert Ids(h) == b.ids + {m.id} by {
      forall id | id in b.ids + {m.id} ensures id in Ids(h) {
        if id == m.id { assert m in h; } else {
          var x :| x in b.history && x.id == id;
          assert x in h;
        }
      }
    }
  }

  // ---------------------------------------------------------------------------
  // Calls stay paired
  // ---------------------------------------------------------------------------

  /** In trail `t` every earlier call is answered and exactly the calls from `n` on still wait. */
  ghost predicate Waiting(t: seq<Mark>, calls: seq<Call>, n: nat) {
    && Paired(t)
    && (forall i | 0 <= i < |calls| :: calls[i].id in Calls(t) && Calls(t)[calls[i].id] == calls[i].name)
    && (forall id | id in Calls(t) && id !in Answers(t) :: exists i :: n <= i < |calls| && calls[i].id == id)
    && (forall i | n <= i < |calls| :: calls[i].id !in Answers(t))
  }

  lemma {:induction false} WaitingSettles(t: seq<Mark>, calls: seq<Call>, n: nat)
    requires Waiting(t, calls, n) && n <= |calls|
    ensures Settled(t) <==> n == |calls|
  {
    if n < |calls| { assert calls[n].id in Calls(t); }
  }

  lemma {:induction false} ResultCloses(t: seq<Mark>, calls: seq<Call>, n: nat)
    requires Waiting(t, calls, n) && n < |calls| && DistinctCalls(calls)
    ensures Waiting(t + [Answered(true, calls[n].id, calls[n].name)], calls, n + 1)
  {
    Push(t, Answered(true, calls[n].id, calls[n].name));
  }

  function CallMarks(calls: seq<Call>): (t: seq<Mark>)
    ensures |t| == |calls|
  {
    seq(|calls|, i requires 0 <= i < |calls| => Called(true, calls[i].id, calls[i].name))
  }

  /** `t` after the first `k` calls of the assistant message. */
  ghost predicate Opened(t: seq<Mark>, calls: seq<Call>, k: nat, u: seq<Mark>)
    requires k <= |calls|
  {
    && Paired(u) && Answers(u) == Answers(t)
    && (forall i | 0 <= i < k :: calls[i].id in Calls(u) && Calls(u)[calls[i].id] == calls[i].name)
    && (forall id | id in Calls(u) :: id in Calls(t) || exists i :: 0 <= i < k && calls[i].id == id)
  }

  lemma {:induction false} OpenOne(t: seq<Mark>, calls: seq<Call>, k: nat, u: seq<Mark>)
    requires k < |calls| && Opened(t, calls, k, u) && DistinctCalls(calls)
    requires forall i | 0 <= i < |calls| :: calls[i].id !in Calls(t)
    ensures Opened(t, calls, k + 1, u + [Called(true, calls[k].id, calls[k].name)])
  {
    Push(u, Called(true, calls[k].id, calls[k].name));
  }

  lemma {:induction false} NextPrefix<T>(t: seq<T>, u: seq<T>, k: nat)
    requires k < |u|
    ensures t + u[..k + 1] == (t + u[..k]) + [u[k]]
  {
  }

  lemma {:induction false} CallsOpen(t: seq<Mark>, calls: seq<Call>, k: nat)
    requires Paired(t) && DistinctCalls(calls) && k <= |calls|
    requires forall i | 0 <= i < |calls| :: calls[i].id !in Calls(t)
    ensures Opened(t, calls, k, t + CallMarks(calls)[..k])
  {
    if k == 0 {
      assert t + CallMarks(calls)[..0] == t;
    } else {
      CallsOpen(t, calls, k - 1);
      OpenOne(t, calls, k - 1, t + CallMarks(calls)[..k - 1]);
      NextPrefix(t, CallMarks(calls), k - 1);
    }
  }

  lemma {:induction false} AnswersAreCalled(t: seq<Mark>)
    requires Paired(t)
    ensures Answers(t) <= Calls(t).Keys
  {
    if t != [] { AnswersAreCalled(t[..|t| - 1]); }
  }

  lemma {:induction false} AllOpen(t: seq<Mark>, calls: seq<Call>)
    requires Paired(t) && Settled(t) && DistinctCalls(calls)
    requires forall i | 0 <= i < |calls| :: calls[i].id !in Calls(t)
    ensures Waiting(t + CallMarks(calls), calls, 0)
  {
    CallsOpen(t, calls, |calls|);
    assert CallMarks(calls)[..|calls|] == CallMarks(calls);
    AnswersAreCalled(t);
  }

  lemma {:induction false} AssistantMarks(run: string, turn: Turn)
    ensures Marks(AssistantMessage(run, turn))
            == (if turn.text == "" then [] else [Plain]) + CallMarks(turn.calls)
  {
    var m := AssistantMessage(run, turn);
    var t := (if turn.text == "" then [] else [Plain]) + CallMarks(turn.calls);
    forall i | 0 <= i < |t| ensures Marks(m)[i] == t[i] {
    }
  }

  /** Text before the calls changes nothing. */
  lemma {:induction false} TextOpens(t: seq<Mark>, calls: seq<Call>)
    requires Paired(t) && Settled(t) && DistinctCalls(calls)
    requires forall i | 0 <= i < |calls| :: calls[i].id !in Calls(t)
    ensures Waiting(t + ([Plain] + CallMarks(calls)), calls, 0)
  {
    Push(t, Plain);
    AllOpen(t + [Plain], calls);
    Regroup(t, [Plain], CallMarks(calls));
  }

  lemma Regroup<T>(a: seq<T>, b: seq<T>, c: seq<T>)
    ensures a + (b + c) == a + b + c
  {
  }

  lemma {:induction false} AssistantOpens(h: seq<Message>, run: string, turn: Turn)
    requires Paired(Trail(h)) && Settled(Trail(h)) && NewCalls(h, turn.calls)
    ensures Waiting(Trail(h + [AssistantMessage(run, turn)]), turn.calls, 0)
  {
    TrailPush(h, AssistantMessage(run, turn));
    AssistantMarks(run, turn);
    if turn.text == "" {
      assert [] + CallMarks(turn.calls) == CallMarks(turn.calls);
      AllOpen(Trail(h), turn.calls);
    } else {
      TextOpens(Trail(h), turn.calls);
    }
  }

  // ---------------------------------------------------------------------------
  // One round
  // ---------------------------------------------------------------------------

  lemma {:induction false} ResultRecorded(b: Book, m: Message, run: string, turn: Turn, n: nat)
    requires WellFormed(turn) && n < |turn.calls| && DistinctCalls(turn.calls)
    requires m == ResultMessage(run, turn.calls[n], turn.outcomes[n])
    requires Waiting(Trail(b.history), turn.calls, n)
    ensures Waiting(Trail(b.history + [m]), turn.calls, n + 1)
  {
    TrailPush(b.history, m);
    assert Marks(m) == [Answered(true, turn.calls[n].id, turn.calls[n].name)];
    ResultCloses(Trail(b.history), turn.calls, n);
  }

  lemma {:induction false} AnswerKeeps(b: Book, run: string, turn: Turn, n: nat)
    requires WellFormed(turn) && n <= |turn.calls| && Kept(b)
    ensures Kept(Answer(b, run, turn, n).book)
    decreases |turn.calls| - n
  {
    if n < |turn.calls| {
      var m := ResultMessage(run, turn.calls[n], turn.outcomes[n]);
      if !turn.outcomes[n].failed && Creatable(b, m) {
        RecordKeeps(b, m);
        AnswerKeeps(Record(b, m), run, turn, n + 1);
      }
    }
  }

  /** Dispatching stops at some call `k`; all calls were answered exactly when the round succeeded. */
  lemma {:induction false} AnswerWaits(b: Book, run: string, turn: Turn, n: nat, p: Progress) returns (k: nat)
    requires WellFormed(turn) && n <= |turn.calls| && DistinctCalls(turn.calls)
    requires Waiting(Trail(b.history), turn.calls, n) && p == Answer(b, run, turn, n)
    ensures n <= k <= |turn.calls| && (p.ok <==> k == |turn.calls|) && Waiting(Trail(p.book.history), turn.calls, k)
    decreases |turn.calls| - n
  {
    k := n;
    if n < |turn.calls| {
      var m := ResultMessage(run, turn.calls[n], turn.outcomes[n]);
      if !turn.outcomes[n].failed && Creatable(b, m) {
        ResultRecorded(b, m, run, turn, n);
        k := AnswerWaits(Record(b, m), run, turn, n + 1, p);
      }
    }
  }

  /** Dispatching the waiting calls leaves a call open exactly when it fails. */
  lemma {:induction false} AnswerSettles(b: Book, run: string, turn: Turn, p: Progress)
    requires WellFormed(turn) && DistinctCalls(turn.calls) && Waiting(Trail(b.history), turn.calls, 0)
    requires p == Answer(b, run, turn, 0)
    ensures Paired(Trail(p.book.history)) && (Settled(Trail(p.book.history)) <==> p.ok)
  {
    var k := AnswerWaits(b, run, turn, 0, p);
    WaitingSettles(Trail(p.book.history), turn.calls, k);
  }

  /** A book whose history passes the snapshot check. */
  predicate Safe(b: Book) {
    Kept(b) && Paired(Trail(b.history)) && Settled(Trail(b.history))
  }

  /** A finished round leaves a history that passes the snapshot check. A failed one does so exactly when it
      failed before its assistant message was recorded. */
  lemma {:induction false} RoundKeeps(b: Book, run: string, turn: Turn)
    requires WellFormed(turn) && Safe(b)
    ensures var p := Round(b, run, turn);
            && Kept(p.book) && Paired(Trail(p.book.history))
            && (p.ok ==> Safe(p.book))
            && (!p.ok ==> (Safe(p.book) <==> !Admitted(b, run, turn)))
  {
    if turn.calls != [] && Admitted(b, run, turn) {
      var m := AssistantMessage(run, turn);
      RecordKeeps(b, m);
      AssistantOpens(b.history, run, turn);
      AnswerKeeps(Record(b, m), run, turn, 0);
      AnswerSettles(Record(b, m), run, turn, Round(b, run, turn));
    }
  }

  // ---------------------------------------------------------------------------
  // Whole runs
  // ---------------------------------------------------------------------------

  function Started(input: Message): (b: Book) {
    Book([input], {input.id})
  }

  /** The input carries no tool calls and no tool results. */
  predicate PlainInput(input: Message) {
    forall i | 0 <= i < |input.parts| :: !input.parts[i].ToolCall? && !input.parts[i].ToolResult?
  }

  lemma {:induction false} AllPlain(t: seq<Mark>)
    requires forall i | 0 <= i < |t| :: t[i].Plain?
    ensures Paired(t) && Calls(t) == map[]
  {
    if t != [] { AllPlain(t[..|t| - 1]); }
  }

  lemma {:induction false} InputTrail(input: Message)
    ensures Trail([input]) == Marks(input)
  {
    TrailPush([], input);
    assert [] + [input] == [input];
  }

  lemma {:induction false} PlainPairs(input: Message)
    requires PlainInput(input)
    ensures Paired(Marks(input)) && Settled(Marks(input))
  {
    var t := Marks(input);
    forall i | 0 <= i < |t| ensures t[i].Plain? { assert !input.parts[i].ToolCall? && !input.parts[i].ToolResult?; }
    AllPlain(t);
  }

  lemma {:induction false} PairedIsPlain(input: Message)
    requires input.role.User? && Paired(Marks(input))
    ensures PlainInput(input)
  {
    var t := Marks(input);
    PairedMatches(t);
    forall i | 0 <= i < |input.parts| ensures !input.parts[i].ToolCall? && !input.parts[i].ToolResult? {
      assert t[i].Plain? || t[i].proper;
    }
  }

  /** A user message is paired by itself exactly when it is plain. */
  lemma {:induction false} InputPairs(input: Message)
    requires input.role.User?
    ensures Paired(Trail([input])) <==> PlainInput(input)
    ensures PlainInput(input) ==> Settled(Trail([input]))
  {
    InputTrail(input);
    if PlainInput(input) { PlainPairs(input); }
    if Paired(Marks(input)) { PairedIsPlain(input); }
  }

  lemma {:induction false} AnswerExtends(b: Book, run: string, turn: Turn, n: nat)
    requires WellFormed(turn) && n <= |turn.calls|
    ensures b.history <= Answer(b, run, turn, n).book.history
    decreases |turn.calls| - n
  {
    if n < |turn.calls| {
      var m := ResultMessage(run, turn.calls[n], turn.outcomes[n]);
      if !turn.outcomes[n].failed && Creatable(b, m) { AnswerExtends(Record(b, m), run, turn, n + 1); }
    }
  }

  lemma {:induction false} RoundExtends(b: Book, run: string, turn: Turn)
    requires WellFormed(turn)
    ensures b.history <= Round(b, run, turn).book.history
    ensures Kept(b) ==> Kept(Round(b, run, turn).book)
  {
    if Admitted(b, run, turn) {
      var b1 := Record(b, AssistantMessage(run, turn));
      AnswerExtends(b1, run, turn, 0);
      if Kept(b) {
        RecordKeeps(b, AssistantMessage(run, turn));
        AnswerKeeps(b1, run, turn, 0);
      }
    }
  }

  lemma {:induction false} RoundsExtend(b: Book, run: string, turns: seq<Turn>)
    requires AllWellFormed(turns)
    ensures b.history <= Rounds(b, run, turns).book.history
  {
    if turns != [] {
      var init, last := turns[..|turns| - 1], turns[|turns| - 1];
      RoundsExtend(b, run, init);
      RoundExtends(Rounds(b, run, init).book, run, last);
    }
  }

  lemma {:induction false} RoundsKept(b: Book, run: string, turns: seq<Turn>)
    requires AllWellFormed(turns) && Kept(b)
    ensures Kept(Rounds(b, run, turns).book)
  {
    if turns != [] {
      RoundsKept(b, run, turns[..|turns| - 1]);
      RoundExtends(Rounds(b, run, turns[..|turns| - 1]).book, run, turns[|turns| - 1]);
    }
  }

  lemma {:induction false} RoundsSafe(b: Book, run: string, turns: seq<Turn>)
    requires AllWellFormed(turns) && Safe(b) && Rounds(b, run, turns).ok
    ensures Safe(Rounds(b, run, turns).book)
  {
    if turns != [] {
      RoundsSafe(b, run, turns[..|turns| - 1]);
      RoundKeeps(Rounds(b, run, turns[..|turns| - 1]).book, run, turns[|turns| - 1]);
    }
  }

  lemma {:induction false} StartedSafe(input: Message)
    requires ValidMessage(input) && input.role.User?
    ensures Kept(Started(input)) && (Safe(Started(input)) <==> PlainInput(input))
  {
    InputPairs(input);
    assert Ids([input]) == {input.id} by { assert input in [input]; }
  }

  /** A kept book that grew from a message with tool calls or results never passes the check. */
  lemma {:induction false} UnplainStaysUnsafe(b: Book)
    requires Kept(b) && !PlainInput(b.history[0])
    ensures !Paired(Trail(b.history))
  {
    var input, rest := b.history[0], b.history[1..];
    assert b.history == [input] + rest;
    InputPairs(input);
    if Paired(Trail(b.history)) { PairedEarlier([input], rest); }
  }

  /** After any number of completed turns the history passes the snapshot check, apart from its size cap,
      exactly when the input carried no tool calls or results. */
  lemma {:induction false} BoundaryHistories(input: Message, run: string, turns: seq<Turn>)
    requires ValidMessage(input) && input.role.User? && AllWellFormed(turns)
    requires Rounds(Started(input), run, turns).ok
    ensures Sound(Rounds(Started(input), run, turns).book.history) <==> PlainInput(input)
  {
    StartedSafe(input);
    if PlainInput(input) {
      RoundsSafe(Started(input), run, turns);
    } else {
      RoundsExtend(Started(input), run, turns);
      RoundsKept(Started(input), run, turns);
      UnplainStaysUnsafe(Rounds(Started(input), run, turns).book);
    }
  }

  /** An input message that validation admits although no snapshot of its run ever passes. */
  const TOOL_INPUT := Message("m", User, [ToolResult("c", "t", Json("1", true))])

  lemma {:induction false} ToolInputIsValid()
    ensures ValidMessage(TOOL_INPUT) && TOOL_INPUT.role.User? && !PlainInput(TOOL_INPUT)
  {
    var parts := TOOL_INPUT.parts;
    assert parts[..0] == [] && PartsBytes(parts) == PartBytes(parts[0]);
    assert parts[0].ToolResult?;
  }

  lemma {:induction false} ToolInputIsNeverExportable(run: string, turns: seq<Turn>)
    requires AllWellFormed(turns) && Rounds(Started(TOOL_INPUT), run, turns).ok
    ensures !Sound(Rounds(Started(TOOL_INPUT), run, turns).book.history)
  {
    ToolInputIsValid();
    BoundaryHistories(TOOL_INPUT, run, turns);
  }

  /** The history a failed turn leaves behind passes the check exactly when the turn failed before its
      assistant message was recorded; otherwise it holds calls without results. */
  lemma {:induction false} FailedTurnHistory(input: Message, run: string, turns: seq<Turn>, last: Turn)
    requires ValidMessage(input) && input.role.User? && PlainInput(input) && AllWellFormed(turns) && WellFormed(last)
    requires Rounds(Started(input), run, turns).ok
    requires !Round(Rounds(Started(input), run, turns).book, run, last).ok
    ensures var b := Rounds(Started(input), run, turns).book;
            Sound(Round(b, run, last).book.history) <==> !Admitted(b, run, last)
  {
    StartedSafe(input);
    RoundsSafe(Started(input), run, turns);
    RoundKeeps(Rounds(Started(input), run, turns).book, run, last);
  }
}

/** The mutable history of a run. */
module ToolRoundLoop {
  import opened ToolHistory
  import opened HistoryCheck
  import opened ToolRounds

  class Conversation {
    var history: seq<Message>
    var ids: set<string>

    ghost function View(): (b: Book)
      reads this
    {
      Book(history, ids)
    }

    constructor (input: Message)
      ensures View() == Started(input)
    {
      history, ids := [input], {input.id};
    }

    /** newMessage followed by the append. */
    method Add(m: Message) returns (ok: bool)
      modifies this
      ensures ok <==> Creatable(old(View()), m)
      ensures View() == if ok then Record(old(View()), m) else old(View())
    {
      ok := ValidMessage(m) && m.id !in ids;
      if ok {
        ids := ids + {m.id};
        history := history + [m];
      }
    }

    /** The parts of the assistant's message: its text, if any, then its calls. */
    method AssistantParts(turn: Turn) returns (parts: seq<Part>)
      ensures parts == (if turn.text == "" then [] else [Text(turn.text)]) + CallParts(turn.calls)
    {
      parts := if turn.text == "" then [] else [Text(turn.text)];
      ghost var text := parts;
      for i := 0 to |turn.calls|
        invariant parts == text + CallParts(turn.calls)[..i]
      {
        parts := parts + [ToolCall(turn.calls[i].id, turn.calls[i].name, turn.calls[i].arguments)];
      }
      assert CallParts(turn.calls)[..|turn.calls|] == CallParts(turn.calls);
    }

    method AppendToolRound(run: string, turn: Turn) returns (ok: bool)
      requires WellFormed(turn) && turn.calls != []
      modifies this
      ensures Progress(View(), ok) == Round(old(View()), run, turn)
    {
      ok := ValidateNewToolCalls(history, turn.calls);
      if !ok { return; }
      var parts := AssistantParts(turn);
      ok := Add(Message(MessageId(run, turn.sequence), Assistant, parts));
      if !ok { return; }
      for n := 0 to |turn.calls|
        invariant ok && Round(old(View()), run, turn) == Answer(View(), run, turn, n)
      {
        if turn.outcomes[n].failed { return false; }
        ok := Add(ResultMessage(run, turn.calls[n], turn.outcomes[n]));
        if !ok { return; }
      }
    }
  }
}
