/** Nested sub-agents: the recursion guard of `delegateToSubAgent` in src/agent.ts. */
module Delegation {
  const MAX_SUBAGENT_DEPTH := 5

  /** A delegation that a model asks for: whether the agent exists and is not hidden, and what the
      sub-agent will ask for in turn. Nothing bounds how deep models would go. */
  datatype Attempt = Attempt(known: bool, inner: seq<Attempt>)

  /** `Ran` holds the depth of the sub-agent and what came of its own attempts. */
  datatype Outcome = UnknownAgent | TooDeep | Ran(depth: nat, inner: seq<Outcome>)

  /** An agent at `depth` delegates. */
  function Delegate(depth: nat, a: Attempt): Outcome
    decreases a
  {
    if !a.known then UnknownAgent
    else if depth >= MAX_SUBAGENT_DEPTH then TooDeep
    else Ran(depth + 1, DelegateAll(depth + 1, a.inner))
  }

  function DelegateAll(depth: nat, attempts: seq<Attempt>): (r: seq<Outcome>)
    ensures |r| == |attempts|
    decreases attempts
  {
    if attempts == [] then [] else [Delegate(depth, attempts[0])] + DelegateAll(depth, attempts[1..])
  }

  /** Which attempts are refused and why, and at which depth the others run; each sub-agent's own attempts
      are made at its depth, in order. */
  lemma {:induction false} OutcomeIff(depth: nat, a: Attempt)
    ensures Delegate(depth, a) == UnknownAgent <==> !a.known
    ensures Delegate(depth, a) == TooDeep <==> a.known && depth >= 5
    ensures a.known && depth < 5 ==>
              && Delegate(depth, a).Ran? && Delegate(depth, a).depth == depth + 1
              && |Delegate(depth, a).inner| == |a.inner|
              && forall i :: 0 <= i < |a.inner| ==> Delegate(depth, a).inner[i] == Delegate(depth + 1, a.inner[i])
  {
    if a.known && depth < 5 { AllInOrder(depth + 1, a.inner); }
  }

  lemma {:induction false} AllInOrder(depth: nat, attempts: seq<Attempt>)
    ensures forall i :: 0 <= i < |attempts| ==> DelegateAll(depth, attempts)[i] == Delegate(depth, attempts[i])
  {
    if attempts != [] {
      AllInOrder(depth, attempts[1..]);
      assert DelegateAll(depth, attempts)[1..] == DelegateAll(depth, attempts[1..]);
    }
  }

  /** How many sub-agents are nested in one another. */
  function Nesting(o: Outcome): nat
    decreases o
  {
    if o.Ran? then 1 + NestingAll(o.inner) else 0
  }

  function NestingAll(os: seq<Outcome>): nat
    decreases os
  {
    if os == [] then 0
    else
      var first, others := Nesting(os[0]), NestingAll(os[1..]);
      if first < others then others else first
  }

  /** How deep the models ask for, through agents that exist. */
  function Wanted(a: Attempt): nat
    decreases a
  {
    if a.known then 1 + WantedAll(a.inner) else 0
  }

  function WantedAll(attempts: seq<Attempt>): nat
    decreases attempts
  {
    if attempts == [] then 0
    else
      var first, others := Wanted(attempts[0]), WantedAll(attempts[1..]);
      if first < others then others else first
  }

  /** Every sub-agent in the outcome is at most as deep as the limit. */
  ghost predicate WithinLimit(o: Outcome)
    decreases o
  {
    o.Ran? ==> o.depth <= MAX_SUBAGENT_DEPTH && forall i :: 0 <= i < |o.inner| ==> WithinLimit(o.inner[i])
  }

  /** Sub-agents nest exactly as deep as the models ask for, up to the limit, and no sub-agent runs
      beyond it. */
  lemma {:induction false} NestingIsBounded(depth: nat, a: Attempt)
    requires depth <= MAX_SUBAGENT_DEPTH
    ensures Nesting(Delegate(depth, a)) == if Wanted(a) < 5 - depth then Wanted(a) else 5 - depth
    ensures WithinLimit(Delegate(depth, a))
    decreases a
  {
    if a.known && depth < MAX_SUBAGENT_DEPTH {
      AllAreBounded(depth + 1, a.inner);
    }
  }

  lemma {:induction false} AllAreBounded(depth: nat, attempts: seq<Attempt>)
    requires depth <= MAX_SUBAGENT_DEPTH
    ensures var wanted := WantedAll(attempts);
            NestingAll(DelegateAll(depth, attempts)) == if wanted < 5 - depth then wanted else 5 - depth
    ensures forall i :: 0 <= i < |attempts| ==> WithinLimit(DelegateAll(depth, attempts)[i])
    decreases attempts
  {
    if attempts != [] {
      NestingIsBounded(depth, attempts[0]);
      AllAreBounded(depth, attempts[1..]);
      assert DelegateAll(depth, attempts)[1..] == DelegateAll(depth, attempts[1..]);
    }
  }
}
