/** `truncateOldestTurns` of src/agent.ts: drop whole turns until the history fits. */
module Truncation {
  import opened Wrappers
  import opened History

  const RECENT := 6

  function ContentLength(content: Option<string>): nat {
    if content.Some? then |content.value| else 0
  }

  function Cost(m: Message): nat {
    ContentLength(m.content) + 50
  }

  function Total(ms: seq<Message>): nat {
    if ms == [] then 0 else Cost(ms[0]) + Total(ms[1..])
  }

  function RecentCount(ms: seq<Message>): nat
    requires ms != []
  {
    if RECENT < |ms| - 1 then RECENT else |ms| - 1
  }

  /** The system message and everything from position `d` on. */
  function Keep(ms: seq<Message>, d: nat): seq<Message>
    requires 1 <= d <= |ms|
  {
    [ms[0]] + ms[d..]
  }

  /** The contents of all messages, one behind the other. */
  function Joined(ms: seq<Message>): string {
    if ms == [] then [] else (if ms[0].content.Some? then ms[0].content.value else []) + Joined(ms[1..])
  }

  /** What a history counts for: the characters of its contents, and 50 for each message. */
  function Size(ms: seq<Message>): nat {
    |Joined(ms)| + 50 * |ms|
  }

  /** The walks add up exactly that. */
  lemma {:induction false} TotalIsSize(ms: seq<Message>)
    ensures Total(ms) == Size(ms)
  {
    if ms != [] {
      TotalIsSize(ms[1..]);
    }
  }

  /** `d` is the first position kept: the last six messages always stay, and before them the longest
      stretch that fits. */
  ghost predicate CutsAt(ms: seq<Message>, maxChars: int, d: nat) {
    && ms != [] && 1 <= d <= |ms| - RecentCount(ms)
    && (Size(Keep(ms, d)) <= maxChars || d == |ms| - RecentCount(ms))
    && (d > 1 ==> Size(Keep(ms, d - 1)) > maxChars)
  }

  /** What the truncation may return. A history of one message that does not fit comes back twice,
      because `slice(-0)` is the whole array. */
  ghost predicate IsTruncation(ms: seq<Message>, maxChars: int, r: seq<Message>)
    requires ms != []
  {
    if Size(ms) <= maxChars then r == ms
    else if |ms| == 1 then r == ms + ms
    else exists d: nat :: CutsAt(ms, maxChars, d) && r == Keep(ms, d)
  }

  function CutFrom(ms: seq<Message>, maxChars: int, d: nat): (r: nat)
    requires 1 <= d <= |ms|
    ensures 1 <= r <= d
  {
    if d == 1 || Total(Keep(ms, d - 1)) > maxChars then d else CutFrom(ms, maxChars, d - 1)
  }

  function Truncated(ms: seq<Message>, maxChars: int): seq<Message>
    requires ms != []
  {
    if Total(ms) <= maxChars then ms
    else if |ms| == 1 then ms + ms
    else Keep(ms, CutFrom(ms, maxChars, |ms| - RecentCount(ms)))
  }

  lemma TruncatedCases(ms: seq<Message>, maxChars: int)
    requires ms != []
    ensures Total(ms) <= maxChars ==> Truncated(ms, maxChars) == ms
    ensures Total(ms) > maxChars && |ms| == 1 ==> Truncated(ms, maxChars) == ms + ms
    ensures Total(ms) > maxChars && |ms| > 1 ==>
              Truncated(ms, maxChars) == Keep(ms, CutFrom(ms, maxChars, |ms| - RecentCount(ms)))
  {
    hide Total, Keep, CutFrom;
  }

  lemma {:induction false} CutFromCuts(ms: seq<Message>, maxChars: int, d: nat)
    requires |ms| >= 2 && 1 <= d <= |ms| - RecentCount(ms)
    requires Size(Keep(ms, d)) <= maxChars || d == |ms| - RecentCount(ms)
    ensures CutsAt(ms, maxChars, CutFrom(ms, maxChars, d))
    decreases d
  {
    hide Size, Keep, Total;
    if d > 1 {
      TotalIsSize(Keep(ms, d - 1));
      if Size(Keep(ms, d - 1)) <= maxChars { CutFromCuts(ms, maxChars, d - 1); }
    }
  }

  lemma TruncatedIsTruncation(ms: seq<Message>, maxChars: int)
    requires ms != []
    ensures IsTruncation(ms, maxChars, Truncated(ms, maxChars))
  {
    hide Size, Total;
    TotalIsSize(ms);
    if Size(ms) > maxChars && |ms| > 1 {
      CutFromCuts(ms, maxChars, |ms| - RecentCount(ms));
    }
  }

  lemma {:induction false} TotalConcat(a: seq<Message>, b: seq<Message>)
    ensures Total(a + b) == Total(a) + Total(b)
  {
    if a == [] {
      assert a + b == b;
    } else {
      assert (a + b)[1..] == a[1..] + b;
      TotalConcat(a[1..], b);
    }
  }

  lemma {:induction false} KeepCost(ms: seq<Message>, d: nat, e: nat)
    requires 1 <= d <= e <= |ms|
    ensures Total(Keep(ms, d)) >= Total(Keep(ms, e)) + 50 * (e - d)
    ensures Size(Keep(ms, d)) >= Size(Keep(ms, e)) + 50 * (e - d)
    ensures d < |ms| ==> Total(Keep(ms, d)) == Total(Keep(ms, d + 1)) + Cost(ms[d])
    decreases e - d
  {
    TotalIsSize(Keep(ms, d));
    TotalIsSize(Keep(ms, e));
    hide Size;
    if d < |ms| {
      TotalConcat([ms[0]], ms[d..]);
      TotalConcat([ms[0]], ms[d + 1..]);
      assert ms[d..][1..] == ms[d + 1..];
      if d < e { KeepCost(ms, d + 1, e); }
    }
  }

  lemma KeepParts(ms: seq<Message>, d: nat)
    requires 1 <= d <= |ms|
    ensures Keep(ms, d)[1..] == ms[d..]
    ensures ms == [ms[0]] + ms[1..d] + ms[d..]
    ensures Keep(ms, 1) == ms
  {}

  lemma CutUnique(ms: seq<Message>, maxChars: int, d: nat, e: nat)
    requires CutsAt(ms, maxChars, d) && CutsAt(ms, maxChars, e)
    ensures d >= e
  {
    if d < e {
      KeepCost(ms, d, e - 1);
    }
  }

  /** The cut position, hence the result, is determined by the input. */
  lemma TruncationUnique(ms: seq<Message>, maxChars: int, r1: seq<Message>, r2: seq<Message>)
    requires ms != [] && IsTruncation(ms, maxChars, r1) && IsTruncation(ms, maxChars, r2)
    ensures r1 == r2
  {
    forall d: nat, e: nat | CutsAt(ms, maxChars, d) && CutsAt(ms, maxChars, e) ensures d == e {
      CutUnique(ms, maxChars, d, e);
      CutUnique(ms, maxChars, e, d);
    }
  }

  /** The cut removes something exactly when the history is too large and longer than what always stays. */
  lemma CutIsProper(ms: seq<Message>, maxChars: int, d: nat)
    requires CutsAt(ms, maxChars, d)
    ensures d > 1 <==> Size(ms) > maxChars && |ms| > 1 + RECENT
  {
    KeepParts(ms, d);
    if d > 1 {
      KeepCost(ms, 1, d - 1);
    }
  }

  /** The caller computes what was dropped from the two lengths alone
      (`slice(1, before - after + 1)`); that is exactly the one block that is missing. */
  lemma DroppedIsOneBlock(ms: seq<Message>, maxChars: int, r: seq<Message>)
    requires |ms| >= 2 && IsTruncation(ms, maxChars, r)
    ensures 1 + RecentCount(ms) <= |r| <= |ms|
    ensures ms == [ms[0]] + ms[1..|ms| - |r| + 1] + r[1..]
    ensures r[0] == ms[0]
    ensures |r| < |ms| <==> Size(ms) > maxChars && |ms| > 1 + RECENT
  {
    KeepParts(ms, 1);
    hide Size, Keep;
    if Size(ms) > maxChars {
      var d: nat :| CutsAt(ms, maxChars, d) && r == Keep(ms, d);
      KeepParts(ms, d);
      CutIsProper(ms, maxChars, d);
    }
  }

  /** The result fits, unless it is the system message and the last six alone, or everything when there
      are no more. */
  lemma TruncationFits(ms: seq<Message>, maxChars: int, r: seq<Message>)
    requires |ms| >= 2 && IsTruncation(ms, maxChars, r)
    ensures || |Joined(r)| + 50 * |r| <= maxChars
            || r == [ms[0]] + ms[if |ms| > 7 then |ms| - 6 else 1..]
  {
    if Size(ms) > maxChars {
      var d: nat :| CutsAt(ms, maxChars, d) && r == Keep(ms, d);
    }
  }
}
