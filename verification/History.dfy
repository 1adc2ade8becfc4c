/** Conversation messages and the history format the LLM API accepts. */
module History {
  import opened Wrappers

  datatype Role = System | User | Assistant | Tool

  datatype ToolCall = ToolCall(id: string, name: string, arguments: string)

  /** One conversation message with text content (`None` is null).
      The empty `toolCallId` stands for an absent or empty id: the code treats the two alike. */
  datatype Message = Message(
    role: Role,
    content: Option<string>,
    toolCallId: string,
    toolCalls: seq<ToolCall>)

  function Text(role: Role, content: string): Message {
    Message(role, Some(content), "", [])
  }

  function ToolResult(id: string, content: string): Message {
    Message(Tool, Some(content), id, [])
  }

  /** The ids a message asks the following tool messages to answer. */
  function CallIds(m: Message): set<string> {
    if m.role == Assistant then set c | c in m.toolCalls :: c.id else {}
  }

  function KnownIds(ms: seq<Message>): set<string> {
    if ms == [] then {} else CallIds(ms[0]) + KnownIds(ms[1..])
  }

  /** Length of the run of tool messages at the head of `ms`. */
  function RunLength(ms: seq<Message>): (n: nat)
    ensures n <= |ms|
    ensures forall k :: 0 <= k < n ==> ms[k].role == Tool
    ensures n < |ms| ==> ms[n].role != Tool
  {
    if ms != [] && ms[0].role == Tool then 1 + RunLength(ms[1..]) else 0
  }

  function RunIds(ms: seq<Message>): set<string> {
    if ms != [] && ms[0].role == Tool then {ms[0].toolCallId} + RunIds(ms[1..]) else {}
  }

  // ---- The reference definition, by position ----

  /** The closest message before position `j` that is not a tool message, or -1. */
  function Owner(ms: seq<Message>, j: nat): (i: int)
    requires j <= |ms|
    ensures -1 <= i < j
    ensures 0 <= i ==> ms[i].role != Tool
    ensures forall k :: i < k < j ==> ms[k].role == Tool
  {
    if j == 0 then -1
    else if ms[j - 1].role != Tool then j - 1
    else Owner(ms, j - 1)
  }

  /** Every tool message answers a call of the assistant message before its run. */
  ghost predicate NoStrayResults(ms: seq<Message>) {
    forall j :: 0 <= j < |ms| && ms[j].role == Tool ==>
      Owner(ms, j) >= 0 && ms[j].toolCallId in CallIds(ms[Owner(ms, j)])
  }

  /** Every call of every assistant message is answered in the tool run right after it. */
  ghost predicate EveryCallAnswered(ms: seq<Message>) {
    forall i, id :: 0 <= i < |ms| && id in CallIds(ms[i]) ==>
      exists j :: i < j < |ms| && ms[j].role == Tool && Owner(ms, j) == i && ms[j].toolCallId == id
  }

  /** What the LLM API requires of a request. */
  ghost predicate WellFormed(ms: seq<Message>) {
    NoStrayResults(ms) && EveryCallAnswered(ms)
  }

  /** No two assistant messages share a call id, and no call id is empty. */
  ghost predicate UniqueIds(ms: seq<Message>) {
    ms == [] || ("" !in CallIds(ms[0]) && CallIds(ms[0]) !! KnownIds(ms[1..]) && UniqueIds(ms[1..]))
  }

  // ---- The same by recursion on the list, for the proofs ----

  /** `open` holds the call ids of the non-tool message before `ms`. */
  ghost predicate Owned(ms: seq<Message>, open: set<string>) {
    ms == [] ||
    if ms[0].role == Tool then ms[0].toolCallId in open && Owned(ms[1..], open)
    else Owned(ms[1..], CallIds(ms[0]))
  }

  ghost predicate Answered(ms: seq<Message>) {
    ms == [] || (CallIds(ms[0]) <= RunIds(ms[1..]) && Answered(ms[1..]))
  }

  function OpenIds(ms: seq<Message>, open: set<string>): set<string> {
    if ms == [] then open
    else if ms[0].role == Tool then OpenIds(ms[1..], open)
    else OpenIds(ms[1..], CallIds(ms[0]))
  }

  // ---- Concatenation ----

  lemma {:induction false} KnownIdsConcat(a: seq<Message>, b: seq<Message>)
    ensures KnownIds(a + b) == KnownIds(a) + KnownIds(b)
  {
    if a == [] {
      assert a + b == b;
    } else {
      assert (a + b)[1..] == a[1..] + b;
      KnownIdsConcat(a[1..], b);
    }
  }

  lemma {:induction false} OwnedConcat(a: seq<Message>, b: seq<Message>, open: set<string>)
    ensures Owned(a + b, open) <==> Owned(a, open) && Owned(b, OpenIds(a, open))
  {
    if a == [] {
      assert a + b == b;
    } else {
      assert (a + b)[1..] == a[1..] + b;
      OwnedConcat(a[1..], b, if a[0].role == Tool then open else CallIds(a[0]));
    }
  }

  lemma {:induction false} UniqueIdsConcat(a: seq<Message>, b: seq<Message>)
    ensures UniqueIds(a + b) <==> UniqueIds(a) && UniqueIds(b) && KnownIds(a) !! KnownIds(b)
  {
    if a == [] {
      assert a + b == b;
    } else {
      assert (a + b)[1..] == a[1..] + b;
      UniqueIdsConcat(a[1..], b);
      KnownIdsConcat(a[1..], b);
    }
  }

  lemma {:induction false} RunIdsConcat(a: seq<Message>, b: seq<Message>)
    ensures RunIds(a) <= RunIds(a + b)
    ensures b == [] || b[0].role != Tool ==> RunIds(a + b) == RunIds(a)
    ensures (forall m :: m in a ==> m.role == Tool) ==> RunIds(a + b) == RunIds(a) + RunIds(b)
  {
    if a == [] {
      assert a + b == b;
    } else {
      assert (a + b)[1..] == a[1..] + b;
      RunIdsConcat(a[1..], b);
    }
  }

  /** A history followed by one that does not start with a tool message. */
  lemma {:induction false} AnsweredConcat(a: seq<Message>, b: seq<Message>)
    requires b == [] || b[0].role != Tool
    ensures Answered(a + b) <==> Answered(a) && Answered(b)
  {
    if a == [] {
      assert a + b == b;
    } else {
      assert (a + b)[1..] == a[1..] + b;
      AnsweredConcat(a[1..], b);
      RunIdsConcat(a[1..], b);
    }
  }

  /** Tool messages ask for nothing themselves. */
  lemma {:induction false} AnsweredAfterTools(tools: seq<Message>, b: seq<Message>)
    requires forall m :: m in tools ==> m.role == Tool
    ensures Answered(tools + b) <==> Answered(b)
  {
    if tools == [] {
      assert tools + b == b;
    } else {
      assert (tools + b)[1..] == tools[1..] + b;
      AnsweredAfterTools(tools[1..], b);
    }
  }

  /** Well-formed, by recursion. */
  ghost predicate Formed(ms: seq<Message>) {
    Owned(ms, {}) && Answered(ms)
  }

  lemma FormedConcat(a: seq<Message>, b: seq<Message>)
    requires Formed(a) && Formed(b) && (b == [] || b[0].role != Tool)
    ensures Formed(a + b)
  {
    OwnedConcat(a, b, {});
    AnsweredConcat(a, b);
  }

  /** A call followed by the tool run that answers it. */
  lemma ExchangeFormed(call: Message, run: seq<Message>)
    requires call.role != Tool && RunIds(run) == CallIds(call)
    requires forall m :: m in run ==> m.role == Tool
    ensures Formed([call] + run)
  {
    ToolRun(run, CallIds(call));
    assert ([call] + run)[1..] == run;
  }

  lemma FormedExchange(before: seq<Message>, call: Message, run: seq<Message>)
    requires Formed(before) && call.role != Tool && RunIds(run) == CallIds(call)
    requires forall m :: m in run ==> m.role == Tool
    ensures Formed(before + ([call] + run))
  {
    ExchangeFormed(call, run);
    FormedConcat(before, [call] + run);
  }

  lemma {:induction false} ToolRun(run: seq<Message>, open: set<string>)
    requires forall m :: m in run ==> m.role == Tool
    ensures RunIds(run) == (set m | m in run :: m.toolCallId)
    ensures Owned(run, open) <==> RunIds(run) <= open
    ensures Answered(run) && OpenIds(run, open) == open
  {
    if run != [] {
      ToolRun(run[1..], open);
      assert (set m | m in run :: m.toolCallId) == {run[0].toolCallId} + (set m | m in run[1..] :: m.toolCallId) by {
        assert run == [run[0]] + run[1..];
      }
    }
  }

  lemma {:induction false} OpenIdsKnown(ms: seq<Message>, open: set<string>)
    ensures OpenIds(ms, open) <= open + KnownIds(ms)
  {
    if ms != [] {
      OpenIdsKnown(ms[1..], if ms[0].role == Tool then open else CallIds(ms[0]));
    }
  }

  // ---- The two definitions agree ----

  lemma {:induction false} OwnerShift(ms: seq<Message>, j: nat)
    requires 0 < j <= |ms|
    ensures Owner(ms, j) == if Owner(ms[1..], j - 1) >= 0 then Owner(ms[1..], j - 1) + 1
                            else if ms[0].role != Tool then 0 else -1
  {
    if j > 1 {
      OwnerShift(ms, j - 1);
    }
  }

  /** The set of ids open at position `j`. */
  ghost function OpenAt(ms: seq<Message>, j: nat, open: set<string>): set<string>
    requires j <= |ms|
  {
    if Owner(ms, j) >= 0 then CallIds(ms[Owner(ms, j)]) else open
  }

  lemma {:induction false} OwnedByPosition(ms: seq<Message>, open: set<string>)
    ensures Owned(ms, open) <==>
            forall j :: 0 <= j < |ms| && ms[j].role == Tool ==> ms[j].toolCallId in OpenAt(ms, j, open)
  {
    if ms == [] {
    } else {
      var rest, next := ms[1..], if ms[0].role == Tool then open else CallIds(ms[0]);
      OwnedByPosition(rest, next);
      forall j | 0 < j < |ms|
        ensures OpenAt(ms, j, open) == OpenAt(rest, j - 1, next) && ms[j] == rest[j - 1]
      {
        OwnerShift(ms, j);
      }
      if Owned(ms, open) {
        forall j | 0 <= j < |ms| && ms[j].role == Tool ensures ms[j].toolCallId in OpenAt(ms, j, open) {
          if j > 0 { assert rest[j - 1].toolCallId in OpenAt(rest, j - 1, next); }
        }
      }
      if forall j :: 0 <= j < |ms| && ms[j].role == Tool ==> ms[j].toolCallId in OpenAt(ms, j, open) {
        forall k | 0 <= k < |rest| && rest[k].role == Tool ensures rest[k].toolCallId in OpenAt(rest, k, next) {
          assert ms[k + 1].toolCallId in OpenAt(ms, k + 1, open);
        }
        assert ms[0].role == Tool ==> ms[0].toolCallId in OpenAt(ms, 0, open);
      }
    }
  }

  lemma {:induction false} RunIdsByPosition(ms: seq<Message>, id: string)
    ensures id in RunIds(ms) <==>
            exists j :: 0 <= j < |ms| && ms[j].role == Tool && Owner(ms, j) == -1 && ms[j].toolCallId == id
  {
    if ms != [] && ms[0].role == Tool {
      RunIdsByPosition(ms[1..], id);
      if j :| 0 <= j < |ms| && ms[j].role == Tool && Owner(ms, j) == -1 && ms[j].toolCallId == id {
        if j > 0 {
          OwnerShift(ms, j);
          assert ms[1..][j - 1].toolCallId == id;
        }
      }
      if k :| 0 <= k < |ms[1..]| && ms[1..][k].role == Tool && Owner(ms[1..], k) == -1 && ms[1..][k].toolCallId == id {
        OwnerShift(ms, k + 1);
        assert ms[k + 1].toolCallId == id;
      }
      if ms[0].toolCallId == id {
        assert Owner(ms, 0) == -1;
      }
    } else if ms != [] {
      forall j | 0 <= j < |ms| && ms[j].role == Tool ensures Owner(ms, j) != -1 {
        OwnerShift(ms, j);
      }
    }
  }

  ghost predicate AnsweredAt(ms: seq<Message>, i: nat, id: string) {
    exists j :: i < j < |ms| && ms[j].role == Tool && Owner(ms, j) == i && ms[j].toolCallId == id
  }

  lemma {:induction false} AnsweredAtShift(ms: seq<Message>, i: nat, id: string)
    requires 0 < i < |ms| && ms[i].role != Tool
    ensures AnsweredAt(ms, i, id) <==> AnsweredAt(ms[1..], i - 1, id)
  {
    hide Owner;
    var rest := ms[1..];
    if j :| i < j < |ms| && ms[j].role == Tool && Owner(ms, j) == i && ms[j].toolCallId == id {
      OwnerShift(ms, j);
      assert rest[j - 1].toolCallId == id;
    }
    if k :| i - 1 < k < |rest| && rest[k].role == Tool && Owner(rest, k) == i - 1 && rest[k].toolCallId == id {
      OwnerShift(ms, k + 1);
      assert ms[k + 1].toolCallId == id;
    }
  }

  lemma {:induction false} AnsweredAtHead(ms: seq<Message>, id: string)
    requires ms != [] && ms[0].role != Tool
    ensures AnsweredAt(ms, 0, id) <==> id in RunIds(ms[1..])
  {
    hide Owner;
    var rest := ms[1..];
    RunIdsByPosition(rest, id);
    if j :| 0 < j < |ms| && ms[j].role == Tool && Owner(ms, j) == 0 && ms[j].toolCallId == id {
      OwnerShift(ms, j);
      assert rest[j - 1].toolCallId == id;
    }
    if k :| 0 <= k < |rest| && rest[k].role == Tool && Owner(rest, k) == -1 && rest[k].toolCallId == id {
      OwnerShift(ms, k + 1);
      assert ms[k + 1].toolCallId == id;
    }
  }

  lemma {:induction false} AnsweredByPosition(ms: seq<Message>)
    ensures Answered(ms) <==> forall i, id :: 0 <= i < |ms| && id in CallIds(ms[i]) ==> AnsweredAt(ms, i, id)
  {
    if ms != [] {
      var rest := ms[1..];
      AnsweredByPosition(rest);
      forall id | id in CallIds(ms[0]) ensures AnsweredAt(ms, 0, id) <==> id in RunIds(rest) {
        AnsweredAtHead(ms, id);
      }
      forall i, id | 0 < i < |ms| && id in CallIds(ms[i])
        ensures AnsweredAt(ms, i, id) <==> AnsweredAt(rest, i - 1, id)
      {
        AnsweredAtShift(ms, i, id);
      }
      if forall i, id :: 0 <= i < |ms| && id in CallIds(ms[i]) ==> AnsweredAt(ms, i, id) {
        forall k, id | 0 <= k < |rest| && id in CallIds(rest[k]) ensures AnsweredAt(rest, k, id) {
          assert AnsweredAt(ms, k + 1, id);
        }
      }
      if Answered(ms) {
        forall i, id | 0 <= i < |ms| && id in CallIds(ms[i]) ensures AnsweredAt(ms, i, id) {
          if i > 0 { assert rest[i - 1] == ms[i]; assert AnsweredAt(rest, i - 1, id); }
        }
      }
    }
  }

  /** The recursive predicates say the same as the positional ones. */
  lemma WellFormedByRecursion(ms: seq<Message>)
    ensures NoStrayResults(ms) <==> Owned(ms, {})
    ensures EveryCallAnswered(ms) <==> Answered(ms)
    ensures WellFormed(ms) <==> Formed(ms)
  {
    OwnedByPosition(ms, {});
    AnsweredByPosition(ms);
    if EveryCallAnswered(ms) {
      forall i, id | 0 <= i < |ms| && id in CallIds(ms[i]) ensures AnsweredAt(ms, i, id) {}
    }
    if Answered(ms) {
      forall i, id | 0 <= i < |ms| && id in CallIds(ms[i])
        ensures exists j :: i < j < |ms| && ms[j].role == Tool && Owner(ms, j) == i && ms[j].toolCallId == id
      {
        assert AnsweredAt(ms, i, id);
      }
    }
  }
}
