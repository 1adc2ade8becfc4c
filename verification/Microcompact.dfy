/** `microcompact` of src/microcompact.ts: clear the contents of old tool results. */
module Microcompact {
  import opened Wrappers
  import opened History

  const CLEARED := "[Old tool result cleared]"

  predicate Clearable(m: Message) {
    m.role == Tool && m.content.Some? && m.content.value != "" && m.content.value != CLEARED
  }

  function CountClearable(ms: seq<Message>): nat {
    if ms == [] then 0 else (if Clearable(ms[0]) then 1 else 0) + CountClearable(ms[1..])
  }

  function Clear(m: Message): Message {
    m.(content := Some(CLEARED))
  }

  /** A tool result is cleared when at least `keep` clearable ones come after it. */
  function Compacted(ms: seq<Message>, keep: nat): (r: seq<Message>)
    ensures |r| == |ms|
  {
    if ms == [] then []
    else
      [if Clearable(ms[0]) && CountClearable(ms[1..]) >= keep then Clear(ms[0]) else ms[0]]
      + Compacted(ms[1..], keep)
  }

  /** Equal but for the contents of messages. */
  predicate SameShape(a: seq<Message>, b: seq<Message>) {
    |a| == |b| &&
    forall k :: 0 <= k < |a| ==>
      a[k].role == b[k].role && a[k].toolCallId == b[k].toolCallId && a[k].toolCalls == b[k].toolCalls
  }

  lemma {:induction false} CompactedAt(ms: seq<Message>, keep: nat, k: nat)
    requires k < |ms|
    ensures Compacted(ms, keep)[k] ==
            if Clearable(ms[k]) && CountClearable(ms[k + 1..]) >= keep then Clear(ms[k]) else ms[k]
  {
    if k > 0 {
      CompactedAt(ms[1..], keep, k - 1);
      assert ms[1..][k..] == ms[k + 1..];
    }
  }

  /** A tool result with something in it that is not cleared yet. */
  ghost predicate HoldsOutput(m: Message) {
    m.role == Tool && m.content != None && m.content != Some("") && m.content != Some("[Old tool result cleared]")
  }

  /** The positions of such results from `k` on. */
  ghost function OutputsFrom(ms: seq<Message>, k: nat): set<int> {
    set j | k <= j < |ms| && HoldsOutput(ms[j])
  }

  lemma {:induction false} CountIs(ms: seq<Message>, k: nat)
    requires k <= |ms|
    ensures CountClearable(ms[k..]) == |OutputsFrom(ms, k)|
    decreases |ms| - k
  {
    if k < |ms| {
      CountIs(ms, k + 1);
      assert ms[k..][1..] == ms[k + 1..];
      if HoldsOutput(ms[k]) {
        assert OutputsFrom(ms, k) == OutputsFrom(ms, k + 1) + {k};
      } else {
        assert OutputsFrom(ms, k) == OutputsFrom(ms, k + 1);
      }
    }
  }

  /** What becomes of every message: a result with at least `keep` others after it is cleared, and
      everything else stays. */
  lemma ClearedIff(ms: seq<Message>, keep: nat, k: nat)
    requires k < |ms|
    ensures Compacted(ms, keep)[k] ==
            if HoldsOutput(ms[k]) && |OutputsFrom(ms, k + 1)| >= keep
            then Message(Tool, Some("[Old tool result cleared]"), ms[k].toolCallId, ms[k].toolCalls)
            else ms[k]
  {
    CompactedAt(ms, keep, k);
    CountIs(ms, k + 1);
  }

  lemma {:induction false} CompactedKeepsShape(ms: seq<Message>, keep: nat)
    ensures SameShape(ms, Compacted(ms, keep))
    ensures forall k :: 0 <= k < |ms| && ms[k].role != Tool ==> Compacted(ms, keep)[k] == ms[k]
  {
    forall k | 0 <= k < |ms|
      ensures Compacted(ms, keep)[k] == ms[k] || (ms[k].role == Tool && Compacted(ms, keep)[k] == Clear(ms[k]))
    {
      CompactedAt(ms, keep, k);
    }
  }

  lemma {:induction false} ShapeDecides(a: seq<Message>, b: seq<Message>, open: set<string>)
    requires SameShape(a, b)
    ensures KnownIds(a) == KnownIds(b) && RunIds(a) == RunIds(b)
    ensures Owned(a, open) <==> Owned(b, open)
    ensures Answered(a) <==> Answered(b)
    ensures UniqueIds(a) <==> UniqueIds(b)
  {
    if a != [] {
      assert CallIds(a[0]) == CallIds(b[0]);
      ShapeDecides(a[1..], b[1..], if a[0].role == Tool then open else CallIds(a[0]));
    }
  }

  /** Clearing keeps the format the LLM API requires. */
  lemma CompactedIsWellFormed(ms: seq<Message>, keep: nat)
    ensures WellFormed(Compacted(ms, keep)) <==> WellFormed(ms)
  {
    CompactedIsFormed(ms, keep);
    WellFormedByRecursion(ms);
    WellFormedByRecursion(Compacted(ms, keep));
  }

  lemma CompactedIsFormed(ms: seq<Message>, keep: nat)
    ensures Formed(Compacted(ms, keep)) <==> Formed(ms)
    ensures UniqueIds(Compacted(ms, keep)) <==> UniqueIds(ms)
    ensures KnownIds(Compacted(ms, keep)) == KnownIds(ms)
  {
    CompactedKeepsShape(ms, keep);
    ShapeDecides(ms, Compacted(ms, keep), {});
  }

  /** Exactly the most recent results survive: `keep` of them, or all when there are fewer. */
  lemma {:induction false} CompactedCount(ms: seq<Message>, keep: nat)
    ensures CountClearable(Compacted(ms, keep)) ==
            if CountClearable(ms) < keep then CountClearable(ms) else keep
  {
    if ms != [] {
      CompactedCount(ms[1..], keep);
      assert Compacted(ms, keep)[1..] == Compacted(ms[1..], keep);
    }
  }

  lemma {:induction false} FewStay(ms: seq<Message>, keep: nat)
    requires CountClearable(ms) <= keep
    ensures Compacted(ms, keep) == ms
  {
    if ms != [] {
      FewStay(ms[1..], keep);
    }
  }

  /** Running it before every request is the same as running it once. */
  lemma CompactedIdempotent(ms: seq<Message>, keep: nat)
    ensures Compacted(Compacted(ms, keep), keep) == Compacted(ms, keep)
  {
    CompactedCount(ms, keep);
    FewStay(Compacted(ms, keep), keep);
  }
}
