/** Assembling tool calls from streamed deltas: the tool-call part of `chatStream` in src/provider.ts. */
module ToolAssembly {
  /** One entry of `delta.tool_calls`; an absent index is 0 and an absent text is empty. */
  datatype Delta = Delta(index: int, id: string, name: string, args: string)

  /** What has been collected for one index. */
  datatype Part = Part(index: int, id: string, name: string, args: string)

  /** The parts in the order their indices first appeared, the indices already handed to the callback,
      and what it was handed. */
  datatype Tools = Tools(parts: seq<Part>, finalized: set<int>, emitted: seq<Part>)

  const NO_TOOLS := Tools([], {}, [])

  function Position(parts: seq<Part>, index: int): (p: nat)
    ensures p <= |parts|
    ensures p < |parts| ==> parts[p].index == index
    ensures forall i :: 0 <= i < p ==> parts[i].index != index
  {
    if parts == [] || parts[0].index == index then 0
    else
      var q := Position(parts[1..], index);
      assert forall i :: 1 <= i <= q ==> parts[i] == parts[1..][i - 1];
      1 + q
  }

  /** Hand over, from part `i` on, every part that has not been handed over. */
  function Emit(t: Tools, i: nat): (r: Tools)
    requires i <= |t.parts|
    ensures r.parts == t.parts
    decreases |t.parts| - i
  {
    if i == |t.parts| then t
    else if t.parts[i].index in t.finalized then Emit(t, i + 1)
    else Emit(Tools(t.parts, t.finalized + {t.parts[i].index}, t.emitted + [t.parts[i]]), i + 1)
  }

  function Merged(p: Part, d: Delta): Part {
    Part(p.index, if d.id != [] then d.id else p.id, p.name + d.name, p.args + d.args)
  }

  /** One delta. A delta that opens a new index with an identifier completes the parts before it. */
  function Feed(t: Tools, d: Delta, callback: bool): Tools {
    var p := Position(t.parts, d.index);
    if p < |t.parts| then t.(parts := t.parts[p := Merged(t.parts[p], d)])
    else
      var t' := if d.id != [] && callback then Emit(t, 0) else t;
      t'.(parts := t'.parts + [Merged(Part(d.index, d.id, [], []), d)])
  }

  function FeedAll(ds: seq<Delta>, callback: bool): Tools {
    if ds == [] then NO_TOOLS else Feed(FeedAll(ds[..|ds| - 1], callback), ds[|ds| - 1], callback)
  }

  /** The end of the stream. */
  function Finished(ds: seq<Delta>, callback: bool): Tools {
    if callback then Emit(FeedAll(ds, callback), 0) else FeedAll(ds, callback)
  }

  // ---- What the deltas say, apart from how they are processed ----

  /** The indices in order of first appearance. */
  function Opened(ds: seq<Delta>): seq<int> {
    if ds == [] then []
    else
      var before := Opened(ds[..|ds| - 1]);
      if ds[|ds| - 1].index in before then before else before + [ds[|ds| - 1].index]
  }

  /** The last identifier given for an index. */
  function IdOf(ds: seq<Delta>, index: int): string {
    if ds == [] then []
    else
      var d := ds[|ds| - 1];
      if d.index == index && d.id != [] then d.id else IdOf(ds[..|ds| - 1], index)
  }

  function NameOf(ds: seq<Delta>, index: int): string {
    if ds == [] then []
    else
      var d := ds[|ds| - 1];
      NameOf(ds[..|ds| - 1], index) + if d.index == index then d.name else []
  }

  function ArgsOf(ds: seq<Delta>, index: int): string {
    if ds == [] then []
    else
      var d := ds[|ds| - 1];
      ArgsOf(ds[..|ds| - 1], index) + if d.index == index then d.args else []
  }

  /** The tool call that the deltas spell for an index. */
  function Spelled(ds: seq<Delta>, index: int): Part {
    Part(index, IdOf(ds, index), NameOf(ds, index), ArgsOf(ds, index))
  }

  /** How many deltas have come when the callback is handed the call of an index: those before the
      first later index that opens with an identifier, or all. */
  function ClosedAfter(ds: seq<Delta>, index: int): (n: nat)
    ensures n <= |ds|
  {
    if ds == [] then 0
    else
      var k := |ds| - 1;
      var earlier := ClosedAfter(ds[..k], index);
      if earlier < k then earlier
      else if index in Opened(ds[..k]) && ds[k].index !in Opened(ds[..k]) && ds[k].id != [] then k
      else k + 1
  }

  // ---- Assembly ----

  /** The parts are what the deltas spell, in order of first appearance. */
  ghost predicate PartsSpell(parts: seq<Part>, ds: seq<Delta>) {
    && |parts| == |Opened(ds)|
    && forall i :: 0 <= i < |parts| ==> parts[i] == Spelled(ds, Opened(ds)[i])
  }

  lemma {:induction false} OpenedOnce(ds: seq<Delta>)
    ensures forall i, j :: 0 <= i < j < |Opened(ds)| ==> Opened(ds)[i] != Opened(ds)[j]
    ensures forall k :: 0 <= k < |ds| ==> ds[k].index in Opened(ds)
  {
    if ds != [] {
      OpenedOnce(ds[..|ds| - 1]);
    }
  }

  lemma {:induction false} NotOpened(ds: seq<Delta>, index: int)
    requires index !in Opened(ds)
    ensures Spelled(ds, index) == Part(index, [], [], [])
  {
    if ds != [] {
      NotOpened(ds[..|ds| - 1], index);
    }
  }

  lemma SpelledMore(ds: seq<Delta>, d: Delta, index: int)
    ensures Spelled(ds + [d], index) == if d.index == index then Merged(Spelled(ds, index), d) else Spelled(ds, index)
  {
    assert (ds + [d])[..|ds|] == ds;
  }

  /** The final list of tool calls is exactly what the deltas spell, one call for each index. */
  lemma {:induction false} AssemblyIsSpelling(ds: seq<Delta>, callback: bool)
    ensures PartsSpell(FeedAll(ds, callback).parts, ds)
  {
    if ds != [] {
      var k := |ds| - 1;
      AssemblyIsSpelling(ds[..k], callback);
      OpenedOnce(ds[..k]);
      FeedSpells(FeedAll(ds[..k], callback), ds[..k], ds[k], callback);
      assert ds[..k] + [ds[k]] == ds;
    }
  }

  lemma FeedSpells(t: Tools, ds: seq<Delta>, d: Delta, callback: bool)
    requires PartsSpell(t.parts, ds)
    ensures PartsSpell(Feed(t, d, callback).parts, ds + [d])
  {
    var all := ds + [d];
    assert all[..|ds|] == ds;
    OpenedOnce(ds);
    var p := Position(t.parts, d.index);
    var parts := Feed(t, d, callback).parts;
    assert p < |t.parts| <==> d.index in Opened(ds) by {
      if d.index in Opened(ds) {
        var i :| 0 <= i < |Opened(ds)| && Opened(ds)[i] == d.index;
        assert t.parts[i].index == d.index;
      }
    }
    forall i | 0 <= i < |parts|
      ensures parts[i] == Spelled(all, Opened(all)[i])
    {
      SpelledMore(ds, d, Opened(all)[i]);
      if p == |t.parts| {
        NotOpened(ds, d.index);
      }
    }
  }

  // ---- The callback ----

  ghost predicate DistinctIndices(parts: seq<Part>) {
    forall i, j :: 0 <= i < j < |parts| ==> parts[i].index != parts[j].index
  }

  /** Exactly the first `n` parts have been handed over. */
  ghost predicate FinalizedUpTo(t: Tools, n: nat) {
    n <= |t.parts| && forall i :: 0 <= i < |t.parts| ==> (t.parts[i].index in t.finalized <==> i < n)
  }

  lemma {:induction false} EmitHandsOverTheRest(t: Tools, i: nat, n: nat)
    requires DistinctIndices(t.parts) && FinalizedUpTo(t, n) && i <= n
    ensures Emit(t, i).emitted == t.emitted + t.parts[n..]
    ensures FinalizedUpTo(Emit(t, i), |t.parts|)
    ensures forall x :: x in Emit(t, i).finalized ==>
              x in t.finalized || exists k :: 0 <= k < |t.parts| && t.parts[k].index == x
    decreases |t.parts| - i
  {
    if i < n {
      EmitHandsOverTheRest(t, i + 1, n);
    } else if i < |t.parts| {
      var t' := Tools(t.parts, t.finalized + {t.parts[i].index}, t.emitted + [t.parts[i]]);
      EmitHandsOverTheRest(t', i + 1, n + 1);
      assert t.emitted + t.parts[n..] == t'.emitted + t.parts[n + 1..];
    }
  }

  /** The call handed over for the `j`-th index, or still to be handed over. */
  ghost predicate EmittedAt(t: Tools, ds: seq<Delta>, j: nat)
    requires j < |Opened(ds)|
  {
    var x := Opened(ds)[j];
    && (j < |t.emitted| <==> ClosedAfter(ds, x) < |ds|)
    && (j < |t.emitted| ==> t.emitted[j] == Spelled(ds[..ClosedAfter(ds, x)], x))
  }

  /** What has been handed over: the calls closed so far, as they were spelled when they were closed. */
  ghost predicate EmittedOk(t: Tools, ds: seq<Delta>) {
    && PartsSpell(t.parts, ds)
    && FinalizedUpTo(t, |t.emitted|)
    && (forall x :: x in t.finalized ==> x in Opened(ds))
    && forall j :: 0 <= j < |Opened(ds)| ==> EmittedAt(t, ds, j)
  }

  lemma ClosedMore(ds: seq<Delta>, d: Delta, x: int)
    ensures ClosedAfter(ds + [d], x) ==
            if ClosedAfter(ds, x) < |ds| then ClosedAfter(ds, x)
            else if x in Opened(ds) && d.index !in Opened(ds) && d.id != [] then |ds| else |ds| + 1
  {
    assert (ds + [d])[..|ds|] == ds;
  }

  lemma OpenedMore(ds: seq<Delta>, d: Delta)
    ensures Opened(ds + [d]) == if d.index in Opened(ds) then Opened(ds) else Opened(ds) + [d.index]
  {
    assert (ds + [d])[..|ds|] == ds;
  }

  lemma PositionIsOpened(parts: seq<Part>, ds: seq<Delta>, index: int)
    requires PartsSpell(parts, ds)
    ensures Position(parts, index) < |parts| <==> index in Opened(ds)
    ensures DistinctIndices(parts)
  {
    OpenedOnce(ds);
    if index in Opened(ds) {
      var i :| 0 <= i < |Opened(ds)| && Opened(ds)[i] == index;
      assert parts[i].index == index;
    }
  }

  /** A delta that does not make the callback run leaves the earlier calls as they are. */
  lemma EmittedStays(t: Tools, t': Tools, ds: seq<Delta>, d: Delta, j: nat)
    requires j < |Opened(ds)| && EmittedAt(t, ds, j) && t'.emitted == t.emitted
    requires d.index in Opened(ds) || d.id == []
    ensures j < |Opened(ds + [d])| && EmittedAt(t', ds + [d], j)
  {
    var x := Opened(ds)[j];
    OpenedMore(ds, d);
    ClosedMore(ds, d, x);
    assert (ds + [d])[..ClosedAfter(ds, x)] == ds[..ClosedAfter(ds, x)];
  }

  /** A delta for a known index. */
  lemma MergeEmits(t: Tools, ds: seq<Delta>, d: Delta)
    requires EmittedOk(t, ds) && d.index in Opened(ds)
    ensures EmittedOk(Feed(t, d, true), ds + [d])
  {
    var t' := Feed(t, d, true);
    FeedSpells(t, ds, d, true);
    OpenedMore(ds, d);
    PositionIsOpened(t.parts, ds, d.index);
    hide Opened, Spelled;
    forall j | 0 <= j < |Opened(ds + [d])|
      ensures EmittedAt(t', ds + [d], j)
    {
      EmittedStays(t, t', ds, d, j);
    }
  }

  /** The index that has just been opened is not closed. */
  lemma NewestIsOpen(t: Tools, ds: seq<Delta>, d: Delta)
    requires d.index !in Opened(ds) && |t.emitted| <= |Opened(ds)|
    ensures Opened(ds + [d]) == Opened(ds) + [d.index] && EmittedAt(t, ds + [d], |Opened(ds)|)
  {
    OpenedMore(ds, d);
    NotClosed(ds, d.index);
    ClosedMore(ds, d, d.index);
  }

  lemma {:induction false} NotClosed(ds: seq<Delta>, x: int)
    requires x !in Opened(ds)
    ensures ClosedAfter(ds, x) == |ds|
  {
    if ds != [] {
      NotClosed(ds[..|ds| - 1], x);
    }
  }

  /** A delta that opens an index without an identifier. */
  lemma QuietOpenEmits(t: Tools, ds: seq<Delta>, d: Delta)
    requires EmittedOk(t, ds) && d.index !in Opened(ds) && d.id == []
    ensures EmittedOk(Feed(t, d, true), ds + [d])
  {
    var t' := Feed(t, d, true);
    FeedSpells(t, ds, d, true);
    PositionIsOpened(t.parts, ds, d.index);
    NewestIsOpen(t', ds, d);
    hide Opened, Spelled, ClosedAfter;
    forall j | 0 <= j < |Opened(ds + [d])|
      ensures EmittedAt(t', ds + [d], j)
    {
      if j < |Opened(ds)| {
        EmittedStays(t, t', ds, d, j);
      }
    }
  }

  /** A delta that opens an index with an identifier closes every call before it. */
  lemma OpenClosesAt(t: Tools, t': Tools, ds: seq<Delta>, d: Delta, j: nat)
    requires PartsSpell(t.parts, ds) && j < |Opened(ds)| && EmittedAt(t, ds, j) && |t.emitted| <= |t.parts|
    requires d.index !in Opened(ds) && d.id != [] && t'.emitted == t.emitted + t.parts[|t.emitted|..]
    ensures j < |Opened(ds + [d])| && EmittedAt(t', ds + [d], j)
  {
    var x := Opened(ds)[j];
    OpenedMore(ds, d);
    ClosedMore(ds, d, x);
    assert (ds + [d])[..ClosedAfter(ds, x)] == ds[..ClosedAfter(ds, x)] && ds[..|ds|] == ds;
    hide Opened, Spelled, ClosedAfter;
    if j >= |t.emitted| {
      assert t'.emitted[j] == t.parts[j];
    }
  }

  lemma LoudOpenEmits(t: Tools, ds: seq<Delta>, d: Delta)
    requires EmittedOk(t, ds) && d.index !in Opened(ds) && d.id != []
    ensures EmittedOk(Feed(t, d, true), ds + [d])
  {
    var t' := Feed(t, d, true);
    FeedSpells(t, ds, d, true);
    PositionIsOpened(t.parts, ds, d.index);
    EmitHandsOverTheRest(t, 0, |t.emitted|);
    assert |t'.emitted| == |Opened(ds)|;
    NewestIsOpen(t', ds, d);
    hide Opened, Spelled, ClosedAfter, Emit;
    forall j | 0 <= j < |Opened(ds + [d])|
      ensures EmittedAt(t', ds + [d], j)
    {
      if j < |Opened(ds)| {
        OpenClosesAt(t, t', ds, d, j);
      }
    }
  }

  lemma {:induction false} EveryFeedEmits(ds: seq<Delta>)
    ensures EmittedOk(FeedAll(ds, true), ds)
  {
    if ds != [] {
      var k := |ds| - 1;
      EveryFeedEmits(ds[..k]);
      assert ds[..k] + [ds[k]] == ds;
      var t := FeedAll(ds[..k], true);
      if ds[k].index in Opened(ds[..k]) {
        MergeEmits(t, ds[..k], ds[k]);
      } else if ds[k].id == [] {
        QuietOpenEmits(t, ds[..k], ds[k]);
      } else {
        LoudOpenEmits(t, ds[..k], ds[k]);
      }
    }
  }

  /** The callback is called exactly once for each index, in order of first appearance, with the call
      as it was spelled when the next index opened. */
  lemma CallbackOncePerIndex(ds: seq<Delta>)
    ensures var t := Finished(ds, true);
            && |t.emitted| == |Opened(ds)|
            && forall j :: 0 <= j < |Opened(ds)| ==>
                 var x := Opened(ds)[j];
                 t.emitted[j] == Spelled(ds[..ClosedAfter(ds, x)], x)
  {
    EveryFeedEmits(ds);
    var t := FeedAll(ds, true);
    PositionIsOpened(t.parts, ds, 0);
    EmitHandsOverTheRest(t, 0, |t.emitted|);
    assert ds[..|ds|] == ds;
    hide Opened, Spelled, ClosedAfter, Emit, FeedAll;
    forall j | 0 <= j < |Opened(ds)|
      ensures (t.emitted + t.parts[|t.emitted|..])[j] == Spelled(ds[..ClosedAfter(ds, Opened(ds)[j])], Opened(ds)[j])
    {
      assert EmittedAt(t, ds, j);
      assert t.parts[j] == Spelled(ds, Opened(ds)[j]);
    }
  }

  lemma {:induction false} NoCallbackNoCalls(ds: seq<Delta>)
    ensures Finished(ds, false).emitted == []
  {
    if ds != [] {
      NoCallbackNoCalls(ds[..|ds| - 1]);
    }
  }

  // ---- When early calls agree with the final list ----

  /** Nothing about the call of `x` changes after the first `n` deltas. */
  ghost predicate Settled(ds: seq<Delta>, n: nat, x: int)
    requires n <= |ds|
  {
    && IdOf(ds, x) == IdOf(ds[..n], x)
    && forall k :: n <= k < |ds| && ds[k].index == x ==> ds[k].name == [] && ds[k].args == []
  }

  /** Text only grows, by what the later deltas bring. */
  lemma {:induction false} NameGrows(ds: seq<Delta>, n: nat, x: int)
    requires n <= |ds|
    ensures |NameOf(ds[..n], x)| <= |NameOf(ds, x)|
    ensures |NameOf(ds[..n], x)| == |NameOf(ds, x)| <==>
            forall k :: n <= k < |ds| && ds[k].index == x ==> ds[k].name == []
  {
    if n == |ds| {
      assert ds[..n] == ds;
    } else {
      var m := |ds| - 1;
      NameGrows(ds[..m], n, x);
      assert ds[..m][..n] == ds[..n];
      assert forall k :: n <= k < m ==> ds[..m][k] == ds[k];
    }
  }

  lemma {:induction false} ArgsGrow(ds: seq<Delta>, n: nat, x: int)
    requires n <= |ds|
    ensures |ArgsOf(ds[..n], x)| <= |ArgsOf(ds, x)|
    ensures |ArgsOf(ds[..n], x)| == |ArgsOf(ds, x)| <==>
            forall k :: n <= k < |ds| && ds[k].index == x ==> ds[k].args == []
  {
    if n == |ds| {
      assert ds[..n] == ds;
    } else {
      var m := |ds| - 1;
      ArgsGrow(ds[..m], n, x);
      assert ds[..m][..n] == ds[..n];
      assert forall k :: n <= k < m ==> ds[..m][k] == ds[k];
    }
  }

  lemma {:induction false} QuietTextStays(ds: seq<Delta>, n: nat, x: int)
    requires n <= |ds|
    requires forall k :: n <= k < |ds| && ds[k].index == x ==> ds[k].name == [] && ds[k].args == []
    ensures NameOf(ds, x) == NameOf(ds[..n], x) && ArgsOf(ds, x) == ArgsOf(ds[..n], x)
  {
    if n == |ds| {
      assert ds[..n] == ds;
    } else {
      var m := |ds| - 1;
      QuietTextStays(ds[..m], n, x);
      assert ds[..m][..n] == ds[..n];
    }
  }

  lemma SettledIff(ds: seq<Delta>, n: nat, x: int)
    requires n <= |ds|
    ensures Spelled(ds[..n], x) == Spelled(ds, x) <==> Settled(ds, n, x)
  {
    NameGrows(ds, n, x);
    ArgsGrow(ds, n, x);
    if Settled(ds, n, x) {
      QuietTextStays(ds, n, x);
    }
  }

  /** The calls the callback was given are the final list exactly when no delta changes a call that has
      already been handed over. */
  lemma CallbackAgreesIff(ds: seq<Delta>)
    ensures Finished(ds, true).emitted == Finished(ds, true).parts <==>
            forall j :: 0 <= j < |Opened(ds)| ==> Settled(ds, ClosedAfter(ds, Opened(ds)[j]), Opened(ds)[j])
  {
    var t := Finished(ds, true);
    CallbackOncePerIndex(ds);
    AssemblyIsSpelling(ds, true);
    assert t.parts == FeedAll(ds, true).parts;
    hide Opened, ClosedAfter, Finished, Settled, Spelled;
    forall j | 0 <= j < |Opened(ds)|
      ensures t.emitted[j] == t.parts[j] <==> Settled(ds, ClosedAfter(ds, Opened(ds)[j]), Opened(ds)[j])
    {
      SettledIff(ds, ClosedAfter(ds, Opened(ds)[j]), Opened(ds)[j]);
    }
  }

  /** Every delta is for a new index or for the index opened last. */
  ghost predicate InOrder(ds: seq<Delta>) {
    forall k :: 0 <= k < |ds| && ds[k].index in Opened(ds[..k]) ==>
                  ds[k].index == Opened(ds[..k])[|Opened(ds[..k])| - 1]
  }

  lemma {:induction false} OpenedGrows(ds: seq<Delta>, n: nat)
    requires n <= |ds|
    ensures Opened(ds[..n]) <= Opened(ds)
  {
    if n == |ds| {
      assert ds[..n] == ds;
    } else {
      OpenedGrows(ds[..|ds| - 1], n);
      assert ds[..|ds| - 1][..n] == ds[..n];
    }
  }

  /** When a call is closed, another index has been opened after it. */
  lemma {:induction false} ClosedIsBehind(ds: seq<Delta>, x: int)
    requires x in Opened(ds) && ClosedAfter(ds, x) < |ds|
    ensures var n := ClosedAfter(ds, x);
            x in Opened(ds[..n]) && ds[n].index !in Opened(ds[..n])
  {
    var k := |ds| - 1;
    var n := ClosedAfter(ds, x);
    if n < k {
      ClosedIsOpened(ds[..k], x);
      ClosedIsBehind(ds[..k], x);
      assert ds[..k][..n] == ds[..n];
    }
  }

  lemma ClosedIsOpened(ds: seq<Delta>, x: int)
    requires ClosedAfter(ds, x) < |ds|
    ensures x in Opened(ds)
  {
    if x !in Opened(ds) {
      NotClosed(ds, x);
    }
  }

  lemma InOrderSettles(ds: seq<Delta>, x: int)
    requires InOrder(ds) && x in Opened(ds)
    ensures Settled(ds, ClosedAfter(ds, x), x)
  {
    var n := ClosedAfter(ds, x);
    if n == |ds| {
      assert ds[..n] == ds;
    } else {
      ClosedIsBehind(ds, x);
      forall k | n <= k < |ds|
        ensures ds[k].index != x
      {
        NeverAgain(ds, n, x, k);
      }
      IdStays(ds, n, x);
    }
  }

  lemma {:induction false} IdStays(ds: seq<Delta>, n: nat, x: int)
    requires n <= |ds| && forall k :: n <= k < |ds| ==> ds[k].index != x
    ensures IdOf(ds, x) == IdOf(ds[..n], x)
  {
    if n == |ds| {
      assert ds[..n] == ds;
    } else {
      IdStays(ds[..|ds| - 1], n, x);
      assert ds[..|ds| - 1][..n] == ds[..n];
    }
  }

  /** An index behind a later one stays behind. */
  lemma StaysBehind(ds: seq<Delta>, n: nat, x: int, k: nat)
    requires n < k <= |ds| && x in Opened(ds[..n]) && ds[n].index !in Opened(ds[..n])
    ensures x in Opened(ds[..k]) && x != Opened(ds[..k])[|Opened(ds[..k])| - 1]
  {
    var known, before := Opened(ds[..k]), Opened(ds[..n]);
    OpenedGrows(ds[..k], n + 1);
    assert ds[..k][..n + 1] == ds[..n] + [ds[n]];
    OpenedMore(ds[..n], ds[n]);
    OpenedOnce(ds[..k]);
    hide Opened;
    assert before + [ds[n].index] <= known;
    var i :| 0 <= i < |before| && before[i] == x;
    assert known[i] == x;
  }

  lemma NeverAgain(ds: seq<Delta>, n: nat, x: int, k: nat)
    requires InOrder(ds) && n <= k < |ds| && x in Opened(ds[..n]) && ds[n].index !in Opened(ds[..n])
    ensures ds[k].index != x
  {
    hide Opened;
    if k > n {
      StaysBehind(ds, n, x, k);
    }
  }

  /** When the deltas of each call come together, the callback gets exactly the final list. */
  lemma InOrderAgrees(ds: seq<Delta>)
    requires InOrder(ds)
    ensures Finished(ds, true).emitted == Finished(ds, true).parts
  {
    CallbackAgreesIff(ds);
    hide Opened, ClosedAfter, Finished, Settled, InOrder;
    forall j | 0 <= j < |Opened(ds)|
      ensures Settled(ds, ClosedAfter(ds, Opened(ds)[j]), Opened(ds)[j])
    {
      InOrderSettles(ds, Opened(ds)[j]);
    }
  }

  lemma FeedMore(ds: seq<Delta>, d: Delta)
    ensures FeedAll(ds + [d], true) == Feed(FeedAll(ds, true), d, true)
  {
    hide Feed;
    assert (ds + [d])[..|ds|] == ds;
  }

  lemma FirstDelta(d: Delta)
    ensures FeedAll([d], true).parts == [Part(d.index, d.id, d.name, d.args)]
    ensures FeedAll([d], true).finalized == {} && FeedAll([d], true).emitted == []
  {
    assert [d][..0] == [] && FeedAll([d], true) == Feed(NO_TOOLS, d, true);
    assert [] + d.name == d.name && [] + d.args == d.args;
  }

  /** A second call opens: the first one is handed over as it is. */
  lemma SecondDelta(t: Tools, p: Part, d: Delta)
    requires t == Tools([p], {}, []) && d.index != p.index && d.id != []
    ensures Feed(t, d, true) == Tools([p, Part(d.index, d.id, d.name, d.args)], {p.index}, [p])
  {
    assert Position([p], d.index) == 1;
    assert Emit(t, 0) == Tools([p], {p.index}, [p]);
    assert [] + d.name == d.name && [] + d.args == d.args;
  }

  /** More for the first call comes after that. */
  lemma ThirdDelta(t: Tools, p: Part, q: Part, d: Delta)
    requires t == Tools([p, q], {p.index}, [p]) && p.index != q.index && d.index == p.index && d.id == []
    ensures var p' := Part(p.index, p.id, p.name + d.name, p.args + d.args);
            Feed(t, d, true) == Tools([p', q], {p.index}, [p])
  {
    assert Position([p, q], p.index) == 0;
    assert [p, q][0 := Merged(p, d)] == [Merged(p, d), q];
  }

  lemma LastEmission(t: Tools, p: Part, q: Part, p': Part)
    requires t == Tools([p', q], {p.index}, [p]) && p'.index == p.index != q.index
    ensures Emit(t, 0).emitted == [p, q]
  {
    var all := Tools([p', q], {p.index} + {q.index}, [p] + [q]);
    assert Emit(t, 0) == Emit(t, 1) == Emit(all, 2);
  }

  /** A piece of arguments for the first call that comes after the second call has opened. */
  lemma LateDeltaIsMissed()
    ensures var ds := [Delta(0, "a", "f", "1"), Delta(1, "b", "g", "2"), Delta(0, "", "", "3")];
            && Finished(ds, true).emitted == [Part(0, "a", "f", "1"), Part(1, "b", "g", "2")]
            && Finished(ds, true).parts == [Part(0, "a", "f", "13"), Part(1, "b", "g", "2")]
  {
    hide FeedAll, Feed, Emit;
    var a, b, c := Delta(0, "a", "f", "1"), Delta(1, "b", "g", "2"), Delta(0, "", "", "3");
    var first, second := Part(0, "a", "f", "1"), Part(1, "b", "g", "2");
    FirstDelta(a);
    FeedMore([a], b);
    SecondDelta(FeedAll([a], true), first, b);
    FeedMore([a] + [b], c);
    ThirdDelta(FeedAll([a] + [b], true), first, second, c);
    assert "f" + "" == "f" && "1" + "3" == "13";
    LastEmission(FeedAll([a] + [b] + [c], true), first, second, Part(0, "a", "f", "13"));
    assert [a] + [b] + [c] == [a, b, c];
  }
}
