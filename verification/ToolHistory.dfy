/** Conversation messages and the pairing of tool calls with their results (message/message.go,
    agent/snapshot.go). */
module ToolHistory {
  import opened Basics

  const MAX_ID := 128
  const MAX_NAMESPACE := 256
  const MAX_PART_BYTES := 0x10_0000
  const MAX_MESSAGE_BYTES := 0x40_0000
  const MAX_PARTS := 128

  datatype Role = System | User | Assistant | Tool

  /** A JSON text and whether it parses as one value. */
  datatype Json = Json(text: string, valid: bool)

  datatype Part =
    | Text(text: string)
    | ToolCall(callId: string, name: string, data: Json)
    | ToolResult(callId: string, name: string, data: Json)
    | Extension(namespace: string, data: Json)

  datatype Message = Message(id: string, role: Role, parts: seq<Part>)

  predicate Token(s: string, maximum: nat) {
    Trimmed(s) && |s| <= maximum
  }

  predicate ValidData(d: Json) {
    d.valid && d.text != "" && |d.text| <= MAX_PART_BYTES
  }

  predicate ValidPart(p: Part) {
    match p
    case Text(text) => 0 < |text| <= MAX_PART_BYTES
    case ToolCall(id, name, data) => Token(id, MAX_ID) && Token(name, MAX_ID) && ValidData(data)
    case ToolResult(id, name, data) => Token(id, MAX_ID) && Token(name, MAX_ID) && ValidData(data)
    case Extension(namespace, data) => Token(namespace, MAX_NAMESPACE) && ValidData(data)
  }

  function RoleName(r: Role): (s: string) {
    match r
    case System => "system"
    case User => "user"
    case Assistant => "assistant"
    case Tool => "tool"
  }

  function PartBytes(p: Part): (n: nat) {
    match p
    case Text(text) => |"text"| + |text|
    case ToolCall(id, name, data) => |"tool_call"| + |id| + |name| + |data.text|
    case ToolResult(id, name, data) => |"tool_result"| + |id| + |name| + |data.text|
    case Extension(namespace, data) => |"extension"| + |namespace| + |data.text|
  }

  function PartsBytes(parts: seq<Part>): (n: nat) {
    if parts == [] then 0 else PartsBytes(parts[..|parts| - 1]) + PartBytes(parts[|parts| - 1])
  }

  function MessageBytes(m: Message): (n: nat) {
    |m.id| + |RoleName(m.role)| + PartsBytes(m.parts)
  }

  function HistoryBytes(h: seq<Message>): (n: nat) {
    if h == [] then 0 else HistoryBytes(h[..|h| - 1]) + MessageBytes(h[|h| - 1])
  }

  predicate ValidMessage(m: Message) {
    && Token(m.id, MAX_ID)
    && 0 < |m.parts| <= MAX_PARTS
    && (forall i | 0 <= i < |m.parts| :: ValidPart(m.parts[i]))
    && MessageBytes(m) <= MAX_MESSAGE_BYTES
  }

  // ---------------------------------------------------------------------------
  // The trail of calls and results
  // ---------------------------------------------------------------------------

  /** What one part means for pairing; `proper` says that the author's role may carry it. */
  datatype Mark = Plain | Called(proper: bool, id: string, name: string) | Answered(proper: bool, id: string, name: string)

  function MarkOf(role: Role, p: Part): (m: Mark) {
    match p
    case Text(_) => Plain
    case ToolCall(id, name, _) => Called(role.Assistant?, id, name)
    case ToolResult(id, name, _) => Answered(role.Tool?, id, name)
    case Extension(_, _) => Plain
  }

  function Marks(m: Message): (t: seq<Mark>)
    ensures |t| == |m.parts|
  {
    seq(|m.parts|, i requires 0 <= i < |m.parts| => MarkOf(m.role, m.parts[i]))
  }

  function Trail(h: seq<Message>): (t: seq<Mark>) {
    if h == [] then [] else Trail(h[..|h| - 1]) + Marks(h[|h| - 1])
  }

  /** The calls so far, with the tool names, and the call identities answered so far. */
  function Calls(t: seq<Mark>): (m: map<string, string>) {
    if t == [] then map[]
    else
      var before := Calls(t[..|t| - 1]);
      if t[|t| - 1].Called? then before[t[|t| - 1].id := t[|t| - 1].name] else before
  }

  function Answers(t: seq<Mark>): (s: set<string>) {
    if t == [] then {}
    else
      var before := Answers(t[..|t| - 1]);
      if t[|t| - 1].Answered? then before + {t[|t| - 1].id} else before
  }

  /** A mark is acceptable after calls `c` and answers `a`: a new call, or the first answer to a call. */
  predicate Follows(c: map<string, string>, a: set<string>, m: Mark) {
    match m
    case Plain => true
    case Called(proper, id, _) => proper && id !in c
    case Answered(proper, id, name) => proper && id in c && id !in a && c[id] == name
  }

  predicate Paired(t: seq<Mark>) {
    t == [] || (Paired(t[..|t| - 1]) && Follows(Calls(t[..|t| - 1]), Answers(t[..|t| - 1]), t[|t| - 1]))
  }

  predicate Settled(t: seq<Mark>) {
    Calls(t).Keys <= Answers(t)
  }

  lemma {:induction false} Push(t: seq<Mark>, m: Mark)
    ensures Calls(t + [m]) == if m.Called? then Calls(t)[m.id := m.name] else Calls(t)
    ensures Answers(t + [m]) == if m.Answered? then Answers(t) + {m.id} else Answers(t)
    ensures Paired(t + [m]) <==> Paired(t) && Follows(Calls(t), Answers(t), m)
  {
    assert (t + [m])[..|t|] == t;
  }

  /** A prefix of a paired trail is paired. */
  lemma {:induction false} PairedPrefix(t: seq<Mark>, u: seq<Mark>)
    requires Paired(t + u)
    ensures Paired(t)
  {
    if u == [] {
      assert t + u == t;
    } else {
      var init := u[..|u| - 1];
      assert t + u == (t + init) + [u[|u| - 1]];
      Push(t + init, u[|u| - 1]);
      PairedPrefix(t, init);
    }
  }

  // ---------------------------------------------------------------------------
  // The same, said without order of processing
  // ---------------------------------------------------------------------------

  predicate CallsDiffer(t: seq<Mark>) {
    forall i, j | 0 <= i < j < |t| :: t[i].Called? && t[j].Called? ==> t[i].id != t[j].id
  }

  predicate AnswersDiffer(t: seq<Mark>) {
    forall i, j | 0 <= i < j < |t| :: t[i].Answered? && t[j].Answered? ==> t[i].id != t[j].id
  }

  predicate Proper(t: seq<Mark>) {
    forall i | 0 <= i < |t| :: t[i].Plain? || t[i].proper
  }

  /** Mark `i` is the call that mark `j` answers. */
  predicate Answering(t: seq<Mark>, i: int, j: int) {
    0 <= i < j < |t| && t[i].Called? && t[j].Answered? && t[i].id == t[j].id && t[i].name == t[j].name
  }

  ghost predicate EachAnswersACall(t: seq<Mark>) {
    forall j | 0 <= j < |t| :: t[j].Answered? ==> exists i :: Answering(t, i, j)
  }

  ghost predicate EachCallIsAnswered(t: seq<Mark>) {
    forall i | 0 <= i < |t| :: t[i].Called? ==> exists j :: Answering(t, i, j)
  }

  /** Authors, identities and pairing are right. */
  ghost predicate Matched(t: seq<Mark>) {
    Proper(t) && CallsDiffer(t) && AnswersDiffer(t) && EachAnswersACall(t)
  }

  lemma {:induction false} CallFound(t: seq<Mark>, id: string) returns (i: nat)
    requires id in Calls(t)
    ensures i < |t| && t[i].Called? && t[i].id == id && t[i].name == Calls(t)[id]
  {
    if t[|t| - 1].Called? && t[|t| - 1].id == id { i := |t| - 1; } else { i := CallFound(t[..|t| - 1], id); }
  }

  lemma {:induction false} CallCounted(t: seq<Mark>, i: nat)
    requires i < |t| && t[i].Called?
    ensures t[i].id in Calls(t)
  {
    if i < |t| - 1 { CallCounted(t[..|t| - 1], i); }
  }

  lemma {:induction false} CallKept(t: seq<Mark>, i: nat)
    requires i < |t| && t[i].Called? && CallsDiffer(t)
    ensures t[i].id in Calls(t) && Calls(t)[t[i].id] == t[i].name
  {
    if i < |t| - 1 { CallKept(t[..|t| - 1], i); }
  }

  lemma {:induction false} AnswerFound(t: seq<Mark>, id: string) returns (i: nat)
    requires id in Answers(t)
    ensures i < |t| && t[i].Answered? && t[i].id == id
  {
    if t[|t| - 1].Answered? && t[|t| - 1].id == id { i := |t| - 1; } else { i := AnswerFound(t[..|t| - 1], id); }
  }

  lemma {:induction false} AnswerCounted(t: seq<Mark>, i: nat)
    requires i < |t| && t[i].Answered?
    ensures t[i].id in Answers(t)
  {
    if i < |t| - 1 { AnswerCounted(t[..|t| - 1], i); }
  }

  lemma {:induction false} PairedMatches(t: seq<Mark>)
    requires Paired(t)
    ensures Matched(t)
  {
    if t != [] {
      var n := |t| - 1;
      var u := t[..n];
      PairedMatches(u);
      forall i | 0 <= i < n && t[i].Called? && t[n].Called? ensures t[i].id != t[n].id { CallCounted(u, i); }
      forall i | 0 <= i < n && t[i].Answered? && t[n].Answered? ensures t[i].id != t[n].id { AnswerCounted(u, i); }
      forall j | 0 <= j < |t| && t[j].Answered? ensures exists i :: Answering(t, i, j) {
        if j < n {
          var i :| Answering(u, i, j);
          assert Answering(t, i, j);
        } else {
          var i := CallFound(u, t[n].id);
          assert Answering(t, i, j);
        }
      }
    }
  }

  lemma {:induction false} LastFollows(t: seq<Mark>)
    requires t != [] && Matched(t)
    ensures Follows(Calls(t[..|t| - 1]), Answers(t[..|t| - 1]), t[|t| - 1])
  {
    var n := |t| - 1;
    var u := t[..n];
    if t[n].Called? && t[n].id in Calls(u) {
      var i := CallFound(u, t[n].id);
    }
    if t[n].Answered? {
      var i :| Answering(t, i, n);
      CallKept(u, i);
      if t[n].id in Answers(u) {
        var j := AnswerFound(u, t[n].id);
      }
    }
  }

  lemma {:induction false} MatchedPairs(t: seq<Mark>)
    requires Matched(t)
    ensures Paired(t)
  {
    if t != [] {
      var n := |t| - 1;
      var u := t[..n];
      forall j | 0 <= j < n && u[j].Answered? ensures exists i :: Answering(u, i, j) {
        var i :| Answering(t, i, j);
        assert Answering(u, i, j);
      }
      MatchedPairs(u);
      LastFollows(t);
    }
  }

  /** Scanning a trail accepts it exactly when every call and every result has its own partner. */
  lemma {:induction false} ScanIsMatching(t: seq<Mark>)
    ensures Paired(t) <==> Matched(t)
    ensures Paired(t) ==> (Settled(t) <==> EachCallIsAnswered(t))
  {
    if Paired(t) { PairedMatches(t); }
    if Matched(t) { MatchedPairs(t); }
    if Paired(t) && Settled(t) {
      forall i | 0 <= i < |t| && t[i].Called? ensures exists j :: Answering(t, i, j) {
        CallCounted(t, i);
        var j := AnswerFound(t, t[i].id);
        var k :| Answering(t, k, j);
        assert Answering(t, i, j);
      }
    }
    if Paired(t) && EachCallIsAnswered(t) {
      forall id | id in Calls(t) ensures id in Answers(t) {
        var i := CallFound(t, id);
        var j :| Answering(t, i, j);
        AnswerCounted(t, j);
      }
    }
  }

  // ---------------------------------------------------------------------------
  // Histories
  // ---------------------------------------------------------------------------

  function Ids(h: seq<Message>): (s: set<string>) {
    set m | m in h :: m.id
  }

  predicate DistinctIds(h: seq<Message>) {
    forall i, j | 0 <= i < j < |h| :: h[i].id != h[j].id
  }

  /** The snapshot history check apart from its size cap. */
  predicate Sound(h: seq<Message>) {
    && h != [] && h[0].role.User?
    && (forall i | 0 <= i < |h| :: ValidMessage(h[i]))
    && DistinctIds(h)
    && Paired(Trail(h)) && Settled(Trail(h))
  }
}
