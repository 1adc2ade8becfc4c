/** Pasted-content placeholders in a prompt: `parseReferences` and `expandPastedTextRefs` of
    ref/CC-Source/src/history.ts. */
module PastedRefs {
  import opened Wrappers
  import opened Strings

  // ---- The reference pattern ----

  predicate StartsWith(s: string, word: string) {
    |word| <= |s| && s[..|word|] == word
  }

  /** The length of the run of digits at the head. */
  function DigitRun(s: string): (n: nat)
    ensures n <= |s| && forall k :: 0 <= k < n ==> IsDigit(s[k])
  {
    if s != [] && IsDigit(s[0]) then 1 + DigitRun(s[1..]) else 0
  }

  function DotRun(s: string): (n: nat)
    ensures n <= |s|
  {
    if s != [] && s[0] == '.' then 1 + DotRun(s[1..]) else 0
  }

  const PASTED := "Pasted text"
  const IMAGE := "Image"
  const TRUNCATED := "...Truncated text"
  const LINES := " lines"

  /** The length of the kind of reference at the head, or 0. */
  function KindLength(s: string): (n: nat)
    ensures n <= |s|
  {
    if StartsWith(s, PASTED) then |PASTED|
    else if StartsWith(s, IMAGE) then |IMAGE|
    else if StartsWith(s, TRUNCATED) then |TRUNCATED|
    else 0
  }

  /** The length of a line count ` +N lines` at the head, or 0. */
  function CountLength(s: string): (n: nat)
    ensures n <= |s|
  {
    if !StartsWith(s, " +") then 0
    else
      var d := DigitRun(s[2..]);
      if d > 0 && StartsWith(s[2 + d..], LINES) then 2 + d + |LINES| else 0
  }

  /** The length of any dots and the closing bracket at the head, or 0. */
  function CloseLength(s: string): (n: nat)
    ensures n <= |s|
  {
    var dots := DotRun(s);
    if dots < |s| && s[dots] == ']' then dots + 1 else 0
  }

  datatype Match = Match(length: nat, id: nat)

  /** The match of the pattern that begins at the head of `s`. No part of the pattern can match in two
      ways, so there is at most one. */
  function MatchHead(s: string): (m: Option<Match>)
    ensures m.Some? ==> 0 < m.value.length <= |s| && s[0] == '['
  {
    if s == [] || s[0] != '[' then None
    else
      var kind := KindLength(s[1..]);
      if kind == 0 then None else MatchNumber(s, s[1 + kind..])
  }

  /** The rest of the pattern, from the number on. */
  function MatchNumber(s: string, rest: string): (m: Option<Match>)
    requires |rest| < |s|
    ensures m.Some? ==> 0 < m.value.length <= |s|
  {
    if !StartsWith(rest, " #") then None
    else
      var number := rest[2..];
      var digits := DigitRun(number);
      if digits == 0 then None else MatchEnd(s, number[digits..], ParseDecimal(number[..digits]))
  }

  /** The rest of it, behind the number. */
  function MatchEnd(s: string, tail: string, id: nat): (m: Option<Match>)
    requires |tail| < |s|
    ensures m.Some? ==> 0 < m.value.length <= |s|
  {
    var count := CountLength(tail);
    var close := CloseLength(tail[count..]);
    if close == 0 then None else Some(Match(|s| - |tail| + count + close, id))
  }

  datatype Ref = Ref(id: nat, start: nat, end: nat)

  /** The matches from left to right, the next one sought behind the last; `offset` is where `s` lies in
      the input. */
  function Scan(s: string, offset: nat): seq<Ref>
    decreases |s|
  {
    if s == [] then []
    else
      var m := MatchHead(s);
      if m.None? then Scan(s[1..], offset + 1)
      else [Ref(m.value.id, offset, offset + m.value.length)] + Scan(s[m.value.length..], offset + m.value.length)
  }

  function Positive(refs: seq<Ref>): seq<Ref> {
    if refs == [] then []
    else (if refs[0].id > 0 then [refs[0]] else []) + Positive(refs[1..])
  }

  function ParseReferences(input: string): seq<Ref> {
    Positive(Scan(input, 0))
  }

  /** Of the matches exactly those with a positive number count. */
  lemma {:induction false} PositiveIs(refs: seq<Ref>, ref: Ref)
    ensures ref in Positive(refs) <==> ref in refs && ref.id > 0
  {
    if refs != [] {
      PositiveIs(refs[1..], ref);
      assert refs == [refs[0]] + refs[1..];
    }
  }

  /** References lie between `lo` and `hi`, one behind the other. */
  ghost predicate Ordered(refs: seq<Ref>, lo: nat, hi: nat)
    ensures Ordered(refs, lo, hi) ==> lo <= hi
  {
    if refs == [] then lo <= hi
    else lo <= refs[0].start < refs[0].end && Ordered(refs[1..], refs[0].end, hi)
  }

  lemma {:induction false} ScanIsOrdered(s: string, offset: nat)
    ensures Ordered(Scan(s, offset), offset, offset + |s|)
    decreases |s|
  {
    hide MatchHead;
    if s != [] {
      var m := MatchHead(s);
      var n := if m.None? then 1 else m.value.length;
      ScanIsOrdered(s[n..], offset + n);
      if m.None? {
        OrderedFrom(Scan(s[1..], offset + 1), offset, offset + 1, offset + |s|);
      }
    }
  }

  lemma OrderedFrom(refs: seq<Ref>, lo: nat, lo': nat, hi: nat)
    requires lo <= lo' && Ordered(refs, lo', hi)
    ensures Ordered(refs, lo, hi)
  {
  }

  lemma {:induction false} PositiveIsOrdered(refs: seq<Ref>, lo: nat, hi: nat)
    requires Ordered(refs, lo, hi)
    ensures Ordered(Positive(refs), lo, hi)
  {
    if refs != [] {
      PositiveIsOrdered(refs[1..], refs[0].end, hi);
      OrderedFrom(Positive(refs[1..]), lo, refs[0].end, hi);
      assert ([refs[0]] + Positive(refs[1..]))[1..] == Positive(refs[1..]);
      assert [] + Positive(refs[1..]) == Positive(refs[1..]);
    }
  }

  /** Between position `i` and the end of an ordered list of references. */
  lemma {:induction false} OrderedAt(refs: seq<Ref>, lo: nat, hi: nat, i: nat)
    requires Ordered(refs, lo, hi) && i <= |refs|
    ensures lo <= End(refs, lo, i) && Ordered(refs[i..], End(refs, lo, i), hi)
    ensures i < |refs| ==> End(refs, lo, i) <= refs[i].start < refs[i].end == End(refs, lo, i + 1) <= hi
  {
    if i == 0 {
      assert refs[0..] == refs;
    } else {
      OrderedAt(refs[1..], refs[0].end, hi, i - 1);
      assert refs[1..][i - 1..] == refs[i..];
    }
  }

  /** Where the reference before the `i`-th ends. */
  function End(refs: seq<Ref>, lo: nat, i: nat): nat
    requires i <= |refs|
  {
    if i == 0 then lo else refs[i - 1].end
  }

  // ---- Expansion ----

  datatype Paste = TextPaste(content: string) | ImagePaste

  /** The text for a reference: the pasted text, or the reference itself when its paste is not text or
      is unknown. */
  function Replacement(s: string, ref: Ref, pastes: map<nat, Paste>): string
    requires ref.start <= ref.end <= |s|
  {
    if ref.id in pastes && pastes[ref.id].TextPaste? then pastes[ref.id].content else s[ref.start..ref.end]
  }

  /** All references replaced at once: from position `at` on, the gaps between them and their
      replacements, in turn. What is put in is never looked at again. */
  function Substituted(s: string, refs: seq<Ref>, pastes: map<nat, Paste>, at: nat): string
    requires Ordered(refs, at, |s|)
  {
    if refs == [] then s[at..]
    else
      var ref := refs[0];
      assert ref.end <= |s|;
      s[at..ref.start] + (Replacement(s, ref, pastes) + Substituted(s, refs[1..], pastes, ref.end))
  }

  /** `expandPastedTextRefs`: splice from the last reference to the first. */
  method ExpandPastedTextRefs(input: string, pastes: map<nat, Paste>) returns (expanded: string)
    ensures Ordered(ParseReferences(input), 0, |input|)
    ensures expanded == Substituted(input, ParseReferences(input), pastes, 0)
  {
    hide Substituted, Scan, Positive, Ordered, Replacement;
    var refs := ParseReferences(input);
    ScanIsOrdered(input, 0);
    PositiveIsOrdered(Scan(input, 0), 0, |input|);
    expanded := input;
    var i := |refs|;
    OrderedAt(refs, 0, |input|, i);
    NothingLeft(input, refs[i..], pastes, End(refs, 0, i));
    while i > 0
      invariant 0 <= i <= |refs| && Ordered(refs[i..], End(refs, 0, i), |input|)
      invariant expanded == input[..End(refs, 0, i)] + Substituted(input, refs[i..], pastes, End(refs, 0, i))
    {
      i := i - 1;
      OrderedAt(refs, 0, |input|, i);
      var ref := refs[i];
      assert refs[i..][0] == ref && refs[i..][1..] == refs[i + 1..];
      SpliceStep(input, refs[i..], pastes, End(refs, 0, i), expanded);
      if ref.id in pastes && pastes[ref.id].TextPaste? {
        expanded := expanded[..ref.start] + pastes[ref.id].content + expanded[ref.end..];
      }
    }
    assert refs[0..] == refs && input[..0] == [];
    NoPrefix(Substituted(input, refs, pastes, 0));
  }

  lemma NoPrefix(s: string)
    ensures [] + s == s
  {
  }

  lemma NothingLeft(s: string, refs: seq<Ref>, pastes: map<nat, Paste>, at: nat)
    requires refs == [] && at <= |s| && Ordered(refs, at, |s|)
    ensures s == s[..at] + Substituted(s, refs, pastes, at)
  {
  }

  lemma Splice(s: string, at: nat, start: nat, end: nat, rest: string, word: string)
    requires at <= start <= end <= |s|
    ensures var expanded := s[..end] + rest;
            && expanded[..start] + word + expanded[end..] == s[..at] + (s[at..start] + (word + rest))
            && expanded == s[..at] + (s[at..start] + (s[start..end] + rest))
  {
    var expanded := s[..end] + rest;
    assert expanded[..start] == s[..at] + s[at..start];
    assert expanded[end..] == rest;
    assert s[..end] == s[..at] + s[at..start] + s[start..end];
  }

  /** Splicing in the replacement of the first reference of `refs`, once those after it are done. */
  lemma SpliceStep(s: string, refs: seq<Ref>, pastes: map<nat, Paste>, at: nat, expanded: string)
    requires refs != [] && Ordered(refs, at, |s|)
    requires expanded == s[..refs[0].end] + Substituted(s, refs[1..], pastes, refs[0].end)
    ensures at <= refs[0].start <= refs[0].end <= |expanded|
    ensures s[..at] + Substituted(s, refs, pastes, at) ==
            if refs[0].id in pastes && pastes[refs[0].id].TextPaste?
            then expanded[..refs[0].start] + pastes[refs[0].id].content + expanded[refs[0].end..]
            else expanded
  {
    var ref := refs[0];
    assert ref.end <= |s|;
    Splice(s, at, ref.start, ref.end, Substituted(s, refs[1..], pastes, ref.end), Replacement(s, ref, pastes));
  }

  lemma {:induction false} DigitRunOf(number: string, rest: string)
    requires forall k :: 0 <= k < |number| ==> IsDigit(number[k])
    requires rest != [] && !IsDigit(rest[0])
    ensures DigitRun(number + rest) == |number|
  {
    if number == [] {
      assert number + rest == rest;
    } else {
      DigitRunOf(number[1..], rest);
      assert (number + rest)[1..] == number[1..] + rest;
    }
  }

  lemma {:induction false} DotRunOf(dots: string, rest: string)
    requires AllDots(dots) && rest != [] && rest[0] != '.'
    ensures DotRun(dots + rest) == |dots|
  {
    if dots == [] {
      assert dots + rest == rest;
    } else {
      DotRunOf(dots[1..], rest);
      assert (dots + rest)[1..] == dots[1..] + rest;
    }
  }

  lemma StartsWithIt(word: string, rest: string)
    ensures StartsWith(word + rest, word) && (word + rest)[|word|..] == rest
  {
  }

  // ---- The pattern apart from how it is matched ----

  ghost predicate AllDots(s: string) {
    forall k :: 0 <= k < |s| ==> s[k] == '.'
  }

  ghost predicate IsNumeral(s: string) {
    s != [] && forall k :: 0 <= k < |s| ==> IsDigit(s[k])
  }

  ghost predicate IsLineCount(s: string) {
    s == "" || exists number :: IsNumeral(number) && s == " +" + (number + " lines")
  }

  /** The parts of a placeholder: its kind, its number, its line count if any, and any dots. */
  datatype Parts = Parts(kind: string, number: string, count: string, dots: string)
  {
    ghost predicate Valid() {
      && (kind == "Pasted text" || kind == "Image" || kind == "...Truncated text")
      && IsNumeral(number) && IsLineCount(count) && AllDots(dots)
    }

    function Text(): string {
      "[" + (kind + (" #" + (number + (count + (dots + "]")))))
    }

    function Id(): nat
      requires IsNumeral(number)
    {
      ParseDecimal(number)
    }
  }

  lemma KindOf(kind: string, hash: string)
    requires kind == "Pasted text" || kind == "Image" || kind == "...Truncated text"
    ensures KindLength(kind + hash) == |kind| > 0
  {
    StartsWithIt(kind, hash);
    var s := kind + hash;
    assert s[0] == kind[0];
    assert StartsWith(s, PASTED) ==> s[..|PASTED|][0] == s[0] == PASTED[0];
    assert StartsWith(s, IMAGE) ==> s[..|IMAGE|][0] == s[0] == IMAGE[0];
  }

  lemma CountOf(count: string, rest: string)
    requires IsLineCount(count) && rest != [] && (rest[0] == '.' || rest[0] == ']')
    ensures CountLength(count + rest) == |count|
  {
    if count == "" {
      assert count + rest == rest;
      if |rest| >= 2 { assert rest[..2][0] == rest[0]; }
    } else {
      var number :| IsNumeral(number) && count == " +" + (number + " lines");
      CountIs(number, rest);
    }
  }

  lemma CountIs(number: string, rest: string)
    requires IsNumeral(number)
    ensures CountLength((" +" + (number + " lines")) + rest) == |" +" + (number + " lines")|
  {
    var s, after := (" +" + (number + " lines")) + rest, " lines" + rest;
    assert s == " +" + (number + after);
    StartsWithIt(" +", number + after);
    DigitRunOf(number, after);
    StartsWithIt(" lines", rest);
    assert s[2 + |number|..] == after;
  }

  lemma CloseOf(dots: string, rest: string)
    requires AllDots(dots)
    ensures CloseLength(dots + ("]" + rest)) == |dots| + 1
  {
    DotRunOf(dots, "]" + rest);
    assert (dots + ("]" + rest))[|dots|] == ']';
  }

  lemma TextThen(p: Parts, rest: string)
    ensures p.Text() + rest == "[" + (p.kind + (" #" + (p.number + (p.count + (p.dots + ("]" + rest))))))
    ensures |p.Text()| == 1 + |p.kind| + 2 + |p.number| + |p.count| + |p.dots| + 1
  {
  }

  lemma AfterKind(kind: string, hash: string)
    ensures ("[" + (kind + hash))[1..] == kind + hash && ("[" + (kind + hash))[1 + |kind|..] == hash
  {
  }

  lemma NumeralRun(number: string, rest: string)
    requires IsNumeral(number) && rest != [] && !IsDigit(rest[0])
    ensures DigitRun(number + rest) == |number| > 0
    ensures (number + rest)[|number|..] == rest && (number + rest)[..|number|] == number
  {
    DigitRunOf(number, rest);
  }

  lemma TailHead(count: string, dots: string, rest: string)
    requires IsLineCount(count) && AllDots(dots)
    ensures var tail := dots + ("]" + rest); tail != [] && (tail[0] == '.' || tail[0] == ']')
    ensures var tail := count + (dots + ("]" + rest)); tail != [] && !IsDigit(tail[0])
  {
    var tail := dots + ("]" + rest);
    assert dots != [] ==> tail[0] == dots[0] == '.';
    if count != "" {
      assert (count + tail)[0] == count[0] == ' ';
    } else {
      assert count + tail == tail;
    }
  }

  lemma EndOf(s: string, count: string, dots: string, rest: string, id: nat)
    requires IsLineCount(count) && AllDots(dots) && |s| > |count| + |dots| + 1 + |rest|
    ensures MatchEnd(s, count + (dots + ("]" + rest)), id) == Some(Match(|s| - |rest|, id))
  {
    hide CountLength, CloseLength, IsLineCount, AllDots;
    var close := dots + ("]" + rest);
    TailHead(count, dots, rest);
    CountOf(count, close);
    assert (count + close)[|count|..] == close;
    CloseOf(dots, rest);
  }

  lemma NumberOf(s: string, number: string, tail: string)
    requires IsNumeral(number) && tail != [] && !IsDigit(tail[0]) && |s| > 2 + |number| + |tail|
    ensures MatchNumber(s, " #" + (number + tail)) == MatchEnd(s, tail, ParseDecimal(number))
  {
    hide DigitRun, MatchEnd, StartsWith, ParseDecimal;
    StartsWithIt(" #", number + tail);
    NumeralRun(number, tail);
  }

  /** A placeholder matches the pattern, whatever follows it. */
  lemma PartsMatch(p: Parts, rest: string)
    requires p.Valid()
    ensures MatchHead(p.Text() + rest) == Some(Match(|p.Text()|, p.Id()))
  {
    hide KindLength, MatchNumber, MatchEnd, ParseDecimal, IsNumeral, IsLineCount, AllDots;
    var hash := " #" + (p.number + (p.count + (p.dots + ("]" + rest))));
    TextThen(p, rest);
    AfterKind(p.kind, hash);
    KindOf(p.kind, hash);
    TailHead(p.count, p.dots, rest);
    NumberOf(p.Text() + rest, p.number, p.count + (p.dots + ("]" + rest)));
    EndOf(p.Text() + rest, p.count, p.dots, rest, p.Id());
  }

  lemma PrefixMatches(p: Parts, s: string)
    requires p.Valid() && p.Text() <= s
    ensures MatchHead(s) == Some(Match(|p.Text()|, p.Id()))
  {
    hide *;
    var text := p.Text();
    assert s == text + s[|text|..];
    PartsMatch(p, s[|text|..]);
  }

  lemma HeadAndTail(s: string, n: nat)
    requires n <= |s|
    ensures s == s[..n] + s[n..]
  {
  }

  /** What matches behind the number. */
  lemma EndHasParts(s: string, tail: string, id: nat) returns (count: string, dots: string, left: string)
    requires |tail| < |s| && MatchEnd(s, tail, id).Some?
    ensures IsLineCount(count) && AllDots(dots) && tail == count + (dots + ("]" + left))
    ensures MatchEnd(s, tail, id) == Some(Match(|s| - |left|, id))
  {
    hide CountLength, CloseLength, IsLineCount, AllDots;
    var c := CountLength(tail);
    var close := CloseLength(tail[c..]);
    count, dots, left := tail[..c], tail[c..][..close - 1], tail[c..][close..];
    LineCountIs(tail);
    CloseIs(tail[c..]);
    HeadAndTail(tail, c);
  }

  /** What matches from the number on. */
  lemma NumberHasParts(s: string, rest: string) returns (number: string, tail: string)
    requires |rest| < |s| && MatchNumber(s, rest).Some?
    ensures IsNumeral(number) && rest == " #" + (number + tail)
    ensures forall c :: c in number ==> IsDigit(c)
    ensures MatchNumber(s, rest) == MatchEnd(s, tail, ParseDecimal(number))
  {
    hide MatchEnd, ParseDecimal;
    var after := rest[2..];
    number, tail := after[..DigitRun(after)], after[DigitRun(after)..];
    HeadAndTail(rest, 2);
    HeadAndTail(after, DigitRun(after));
  }

  lemma KindThen(s: string, kind: nat)
    requires 1 + kind <= |s| && s[0] == '['
    ensures s == "[" + (s[1..][..kind] + s[1 + kind..])
  {
  }

  lemma ShorterIsPrefix(text: string, left: string, s: string)
    requires text + left == s
    ensures text <= s && |text| == |s| - |left|
  {
  }

  lemma HeadHasKind(s: string) returns (kind: string, rest: string)
    requires MatchHead(s).Some?
    ensures kind == "Pasted text" || kind == "Image" || kind == "...Truncated text"
    ensures s == "[" + (kind + rest) && MatchHead(s) == MatchNumber(s, rest)
  {
    hide MatchNumber;
    var n := KindLength(s[1..]);
    KindIs(s[1..]);
    KindThen(s, n);
    kind, rest := s[1..][..n], s[1 + n..];
  }

  lemma MadeOf(kind: string, number: string, count: string, dots: string) returns (p: Parts)
    requires kind == "Pasted text" || kind == "Image" || kind == "...Truncated text"
    requires IsNumeral(number) && IsLineCount(count) && AllDots(dots)
    ensures p == Parts(kind, number, count, dots) && p.Valid() && p.Id() == ParseDecimal(number)
  {
    p := Parts(kind, number, count, dots);
  }

  /** What matches the pattern is a placeholder. */
  lemma MatchHasParts(s: string) returns (p: Parts)
    requires MatchHead(s).Some?
    ensures p.Valid() && MatchHead(s).value == Match(|p.Text()|, p.Id()) && p.Text() <= s
  {
    hide *;
    var kind, rest := HeadHasKind(s);
    var number, tail := NumberHasParts(s, rest);
    var count, dots, left := EndHasParts(s, tail, ParseDecimal(number));
    p := MadeOf(kind, number, count, dots);
    TextThen(p, left);
    ShorterIsPrefix(p.Text(), left, s);
  }

  lemma KindIs(s: string)
    requires KindLength(s) > 0
    ensures s[..KindLength(s)] == "Pasted text" || s[..KindLength(s)] == "Image"
            || s[..KindLength(s)] == "...Truncated text"
  {
  }

  lemma LineCountIs(s: string)
    ensures IsLineCount(s[..CountLength(s)])
  {
    if CountLength(s) > 0 {
      var d := DigitRun(s[2..]);
      var number := s[2..][..d];
      assert s[2 + d..][..6] == " lines";
      assert s[..CountLength(s)] == " +" + (number + " lines") by { assert s[..2] == " +"; }
      assert IsNumeral(number);
    }
  }

  lemma CloseIs(s: string)
    requires CloseLength(s) > 0
    ensures var n := CloseLength(s); AllDots(s[..n - 1]) && s[n - 1] == ']' && s == s[..n - 1] + ("]" + s[n..])
  {
    DotsAre(s);
  }

  lemma {:induction false} DotsAre(s: string)
    ensures AllDots(s[..DotRun(s)])
  {
    if s != [] && s[0] == '.' {
      DotsAre(s[1..]);
      assert forall k :: 1 <= k <= DotRun(s[1..]) ==> s[k] == s[1..][k - 1];
    }
  }

  /** The pattern matches at the head of a text exactly when a placeholder begins there. */
  lemma MatchIff(s: string, n: nat, id: nat)
    ensures MatchHead(s) == Some(Match(n, id)) <==>
            exists p: Parts :: p.Valid() && p.Text() <= s && |p.Text()| == n && p.Id() == id
  {
    hide MatchHead, ParseDecimal, IsNumeral, IsLineCount, AllDots;
    if MatchHead(s) == Some(Match(n, id)) {
      var p := MatchHasParts(s);
    }
    if p: Parts :| p.Valid() && p.Text() <= s && |p.Text()| == n && p.Id() == id {
      PrefixMatches(p, s);
    }
  }

  // ---- Leftmost matches ----

  /** `refs` are the matches one finds from position `at` on, each the first behind the one before. */
  ghost predicate Leftmost(s: string, refs: seq<Ref>, at: nat)
    requires at <= |s|
  {
    if refs == [] then forall k :: at <= k < |s| ==> MatchHead(s[k..]) == None
    else
      var r := refs[0];
      && at <= r.start < r.end <= |s|
      && (forall k :: at <= k < r.start ==> MatchHead(s[k..]) == None)
      && MatchHead(s[r.start..]) == Some(Match(r.end - r.start, r.id))
      && Leftmost(s, refs[1..], r.end)
  }

  lemma LeftmostLater(s: string, refs: seq<Ref>, at: nat)
    requires at < |s| && MatchHead(s[at..]) == None
    ensures Leftmost(s, refs, at) <==> Leftmost(s, refs, at + 1)
  {
    hide MatchHead;
    if refs != [] && refs[0].start == at {
      assert s[refs[0].start..] == s[at..];
    }
  }

  /** Scanning finds exactly these. */
  lemma {:induction false} ScanIff(s: string, refs: seq<Ref>, at: nat)
    requires at <= |s|
    ensures Scan(s[at..], at) == refs <==> Leftmost(s, refs, at)
    decreases |s| - at
  {
    hide MatchHead;
    if at < |s| {
      var m := MatchHead(s[at..]);
      if m == None {
        assert s[at..][1..] == s[at + 1..];
        ScanIff(s, refs, at + 1);
        LeftmostLater(s, refs, at);
      } else {
        var end := at + m.value.length;
        assert s[at..][m.value.length..] == s[end..];
        var found := Scan(s[end..], end);
        ScanIff(s, if refs == [] then [] else refs[1..], end);
        if refs == [] {
          assert MatchHead(s[at..]) != None;
        } else {
          assert refs == [refs[0]] + refs[1..];
        }
      }
    }
  }

  // ---- Placeholders written by this program are read back ----

  /** `formatPastedTextRef`. */
  function Format(id: nat, lines: nat): string {
    if lines == 0 then "[Pasted text #" + Decimal(id) + "]"
    else "[Pasted text #" + Decimal(id) + " +" + Decimal(lines) + " lines]"
  }

  /** `formatImageRef`. */
  function FormatImage(id: nat): string {
    "[Image #" + Decimal(id) + "]"
  }

  lemma DecimalIsNumeral(n: nat)
    ensures IsNumeral(Decimal(n))
  {
    forall k | 0 <= k < |Decimal(n)|
      ensures IsDigit(Decimal(n)[k])
    {
      assert Decimal(n)[k] in Decimal(n);
    }
  }

  lemma PlainText(kind: string, number: string)
    ensures Parts(kind, number, "", "").Text() == "[" + kind + " #" + number + "]"
  {
  }

  lemma CountedText(kind: string, number: string, lines: string)
    ensures Parts(kind, number, " +" + (lines + " lines"), "").Text()
         == "[" + kind + " #" + number + " +" + lines + " lines]"
  {
  }

  lemma Spelling(number: string, lines: string)
    ensures "[" + "Pasted text" + " #" + number + "]" == "[Pasted text #" + number + "]"
    ensures "[" + "Pasted text" + " #" + number + " +" + lines + " lines]"
         == "[Pasted text #" + number + " +" + lines + " lines]"
    ensures "[" + "Image" + " #" + number + "]" == "[Image #" + number + "]"
  {
    assert "[" + "Pasted text" + " #" == "[Pasted text #" && "[" + "Image" + " #" == "[Image #";
  }

  /** What is written is a placeholder with the number given. */
  lemma FormatHasParts(id: nat, lines: nat) returns (p: Parts, image: Parts)
    ensures p.Valid() && p.Text() == Format(id, lines) && p.Id() == id
    ensures image.Valid() && image.Text() == FormatImage(id) && image.Id() == id
  {
    DecimalIsNumeral(id);
    DecimalIsNumeral(lines);
    ParseOfDecimal(id);
    Spelling(Decimal(id), Decimal(lines));
    p := Parts("Pasted text", Decimal(id), if lines == 0 then "" else " +" + (Decimal(lines) + " lines"), "");
    image := Parts("Image", Decimal(id), "", "");
    PlainText("Pasted text", Decimal(id));
    PlainText("Image", Decimal(id));
    CountedText("Pasted text", Decimal(id), Decimal(lines));
    assert IsLineCount(p.count);
    hide Decimal, ParseDecimal, IsNumeral, IsLineCount;
  }

  /** A formatted placeholder matches the pattern, whatever follows it, and gives its number back. */
  lemma FormatMatches(id: nat, lines: nat, rest: string)
    ensures MatchHead(Format(id, lines) + rest) == Some(Match(|Format(id, lines)|, id))
    ensures MatchHead(FormatImage(id) + rest) == Some(Match(|FormatImage(id)|, id))
  {
    hide *;
    var p, image := FormatHasParts(id, lines);
    PartsMatch(p, rest);
    PartsMatch(image, rest);
  }

  /** A prompt as it is put together: typed text, and placeholders for pasted texts and images. */
  datatype Piece = Typed(text: string) | PastedText(id: nat, lines: nat) | Image(id: nat)

  function Shown(p: Piece): string {
    match p
    case Typed(text) => text
    case PastedText(id, lines) => Format(id, lines)
    case Image(id) => FormatImage(id)
  }

  function Prompt(pieces: seq<Piece>): string {
    if pieces == [] then [] else Shown(pieces[0]) + Prompt(pieces[1..])
  }

  /** No match of the pattern begins in `text` when `rest` follows it. */
  ghost predicate Untouched(text: string, rest: string) {
    forall k :: 0 <= k < |text| ==> MatchHead(text[k..] + rest).None?
  }

  /** No typed text has a placeholder begin in it. */
  ghost predicate TypedIsPlain(pieces: seq<Piece>) {
    pieces != [] ==>
      && (pieces[0].Typed? ==> Untouched(pieces[0].text, Prompt(pieces[1..])))
      && TypedIsPlain(pieces[1..])
  }

  /** Placeholders are numbered from 1. */
  ghost predicate Numbered(pieces: seq<Piece>) {
    forall i :: 0 <= i < |pieces| && !pieces[i].Typed? ==> pieces[i].id > 0
  }

  /** The prompt with the pasted texts in place of their placeholders; a placeholder whose paste is an
      image or unknown stays. */
  function Inlined(pieces: seq<Piece>, pastes: map<nat, Paste>): string {
    if pieces == [] then []
    else
      var p := pieces[0];
      var text :=
        if !p.Typed? && p.id in pastes && pastes[p.id].TextPaste? then pastes[p.id].content else Shown(p);
      text + Inlined(pieces[1..], pastes)
  }

  function RefsOf(pieces: seq<Piece>, offset: nat): seq<Ref> {
    if pieces == [] then []
    else
      var p := pieces[0];
      var end := offset + |Shown(p)|;
      (if p.Typed? then [] else [Ref(p.id, offset, end)]) + RefsOf(pieces[1..], end)
  }

  lemma TextFrom(text: string, rest: string)
    requires text != []
    ensures (text + rest)[1..] == text[1..] + rest && text[0..] + rest == text + rest
    ensures forall k :: 0 < k < |text| ==> text[1..][k - 1..] + rest == text[k..] + rest
  {
    assert text[0..] == text;
    forall k | 0 < k < |text|
      ensures text[1..][k - 1..] + rest == text[k..] + rest
    {
      assert text[1..][k - 1..] == text[k..];
    }
  }

  lemma UntouchedTail(text: string, rest: string)
    requires text != []
    ensures Untouched(text, rest) <==> MatchHead(text + rest).None? && Untouched(text[1..], rest)
  {
    hide MatchHead;
    TextFrom(text, rest);
    if Untouched(text, rest) {
      assert text[0..] + rest == text + rest;
      forall k | 0 <= k < |text[1..]|
        ensures MatchHead(text[1..][k..] + rest).None?
      {
        assert text[1..][(k + 1) - 1..] + rest == text[k + 1..] + rest;
      }
    }
    if MatchHead(text + rest).None? && Untouched(text[1..], rest) {
      forall k | 0 <= k < |text|
        ensures MatchHead(text[k..] + rest).None?
      {
        if k > 0 { assert text[1..][k - 1..] + rest == text[k..] + rest; }
      }
    }
  }

  /** Typed text without a match is passed over; a match in it is the first one found. */
  lemma {:induction false} ScanTyped(text: string, rest: string, offset: nat)
    ensures Untouched(text, rest) ==> Scan(text + rest, offset) == Scan(rest, offset + |text|)
    ensures !Untouched(text, rest) ==>
              Scan(text + rest, offset) != [] && Scan(text + rest, offset)[0].start < offset + |text|
  {
    hide MatchHead, Untouched;
    if text == [] {
      NoPrefix(rest);
      NothingTyped(rest);
    } else {
      ScanTyped(text[1..], rest, offset + 1);
      UntouchedTail(text, rest);
      TextFrom(text, rest);
    }
  }

  lemma NothingTyped(rest: string)
    ensures Untouched([], rest)
  {
  }

  lemma ScanPlaceholder(p: Piece, rest: string, offset: nat)
    requires !p.Typed?
    ensures var n := |Shown(p)|;
            Scan(Shown(p) + rest, offset) == [Ref(p.id, offset, offset + n)] + Scan(rest, offset + n)
  {
    hide MatchHead, Format, FormatImage;
    FormatMatches(p.id, if p.PastedText? then p.lines else 0, rest);
    assert (Shown(p) + rest)[|Shown(p)|..] == rest;
  }

  lemma {:induction false} RefsStartLater(pieces: seq<Piece>, offset: nat)
    ensures RefsOf(pieces, offset) != [] ==> RefsOf(pieces, offset)[0].start >= offset
  {
    hide Shown;
    if pieces != [] {
      RefsStartLater(pieces[1..], offset + |Shown(pieces[0])|);
    }
  }

  /** Scanning a prompt finds exactly its placeholders if and only if none begins in typed text. */
  lemma {:induction false} ScanPromptIff(pieces: seq<Piece>, offset: nat)
    ensures Scan(Prompt(pieces), offset) == RefsOf(pieces, offset) <==> TypedIsPlain(pieces)
  {
    hide Scan, Shown, Untouched;
    if pieces == [] {
      ScanNothing(offset);
    } else {
      var p, rest, end := pieces[0], Prompt(pieces[1..]), offset + |Shown(pieces[0])|;
      ScanPromptIff(pieces[1..], end);
      NoRefsBefore(RefsOf(pieces[1..], end));
      if p.Typed? {
        ShownTyped(p);
        ScanTyped(p.text, rest, offset);
        RefsStartLater(pieces[1..], end);
      } else {
        ScanPlaceholder(p, rest, offset);
        SameTail(Ref(p.id, offset, end), Scan(rest, end), RefsOf(pieces[1..], end));
      }
    }
  }

  lemma SameTail(ref: Ref, a: seq<Ref>, b: seq<Ref>)
    ensures [ref] + a == [ref] + b <==> a == b
  {
    assert ([ref] + a)[1..] == a && ([ref] + b)[1..] == b;
  }

  lemma {:induction false} NumberedStay(pieces: seq<Piece>, offset: nat)
    requires Numbered(pieces)
    ensures Positive(RefsOf(pieces, offset)) == RefsOf(pieces, offset)
  {
    hide Shown;
    if pieces != [] {
      var end := offset + |Shown(pieces[0])|;
      NumberedStay(pieces[1..], end);
      NoRefsBefore(RefsOf(pieces[1..], end));
      assert ([Ref(0, 0, 0)] + RefsOf(pieces[1..], end))[1..] == RefsOf(pieces[1..], end);
    }
  }

  lemma ScanNothing(offset: nat)
    ensures Scan([], offset) == []
  {
  }

  lemma NoRefsBefore(refs: seq<Ref>)
    ensures [] + refs == refs
  {
  }

  lemma Front(s: string, offset: nat, word: string, rest: string)
    requires offset <= |s| && s[offset..] == word + rest
    ensures offset + |word| <= |s|
    ensures s[offset..offset + |word|] == word && s[offset + |word|..] == rest
  {
    assert s[offset + |word|..] == s[offset..][|word|..];
    assert s[offset..offset + |word|] == s[offset..][..|word|];
  }

  lemma MoveBoundary(s: string, at: nat, offset: nat, text: string, rest: string)
    requires at <= offset && offset + |text| <= |s| && s[offset..offset + |text|] == text
    ensures s[at..offset + |text|] + rest == s[at..offset] + (text + rest)
  {
    assert s[at..offset + |text|] == s[at..offset] + text;
    assert (s[at..offset] + text) + rest == s[at..offset] + (text + rest);
  }

  lemma InlinedTyped(pieces: seq<Piece>, pastes: map<nat, Paste>)
    requires pieces != [] && pieces[0].Typed?
    ensures Inlined(pieces, pastes) == pieces[0].text + Inlined(pieces[1..], pastes)
  {
    hide Shown;
    ShownTyped(pieces[0]);
  }

  lemma SubstitutedTyped(s: string, pieces: seq<Piece>, pastes: map<nat, Paste>, offset: nat, at: nat)
    requires pieces != [] && pieces[0].Typed? && at <= offset
    requires offset + |pieces[0].text| <= |s| && s[offset..offset + |pieces[0].text|] == pieces[0].text
    ensures s[at..offset + |pieces[0].text|] + Inlined(pieces[1..], pastes) == s[at..offset] + Inlined(pieces, pastes)
  {
    hide Inlined;
    InlinedTyped(pieces, pastes);
    MoveBoundary(s, at, offset, pieces[0].text, Inlined(pieces[1..], pastes));
  }

  lemma SubstitutedFront(s: string, ref: Ref, refs: seq<Ref>, pastes: map<nat, Paste>, at: nat)
    requires Ordered([ref] + refs, at, |s|)
    ensures at <= ref.start <= ref.end <= |s| && Ordered(refs, ref.end, |s|)
    ensures Substituted(s, [ref] + refs, pastes, at)
         == s[at..ref.start] + (Replacement(s, ref, pastes) + Substituted(s, refs, pastes, ref.end))
  {
    assert ([ref] + refs)[1..] == refs;
  }

  lemma InlinedPlaceholder(s: string, pieces: seq<Piece>, pastes: map<nat, Paste>, start: nat, end: nat)
    requires pieces != [] && !pieces[0].Typed? && start <= end <= |s| && s[start..end] == Shown(pieces[0])
    ensures Inlined(pieces, pastes)
         == Replacement(s, Ref(pieces[0].id, start, end), pastes) + Inlined(pieces[1..], pastes)
  {
    hide Shown;
  }

  lemma SubstitutedNothing(s: string, pastes: map<nat, Paste>, at: nat)
    requires at <= |s|
    ensures Ordered([], at, |s|) && Substituted(s, [], pastes, at) == s[at..|s|] + []
  {
  }

  lemma RefsOfFront(pieces: seq<Piece>, offset: nat)
    requires pieces != []
    ensures var p, end := pieces[0], offset + |Shown(pieces[0])|;
            RefsOf(pieces, offset) ==
            if !p.Typed? then [Ref(p.id, offset, end)] + RefsOf(pieces[1..], end) else RefsOf(pieces[1..], end)
  {
    hide Shown;
    NoRefsBefore(RefsOf(pieces[1..], offset + |Shown(pieces[0])|));
  }

  lemma {:induction false} SubstitutedPrompt(s: string, pieces: seq<Piece>, pastes: map<nat, Paste>,
                                             offset: nat, at: nat)
    requires at <= offset <= |s| && s[offset..] == Prompt(pieces)
    requires Ordered(RefsOf(pieces, offset), at, |s|)
    ensures Substituted(s, RefsOf(pieces, offset), pastes, at) == s[at..offset] + Inlined(pieces, pastes)
    decreases pieces, 1
  {
    if pieces == [] {
      SubstitutedNothing(s, pastes, at);
    } else {
      SubstitutedPieces(s, pieces, pastes, offset, at);
    }
  }

  lemma {:induction false} SubstitutedPieces(s: string, pieces: seq<Piece>, pastes: map<nat, Paste>,
                                             offset: nat, at: nat)
    requires pieces != [] && at <= offset <= |s| && s[offset..] == Prompt(pieces)
    requires Ordered(RefsOf(pieces, offset), at, |s|)
    ensures Substituted(s, RefsOf(pieces, offset), pastes, at) == s[at..offset] + Inlined(pieces, pastes)
    decreases pieces, 0
  {
    hide Format, Shown, Substituted, Ordered, RefsOf, Inlined, Replacement;
    var p := pieces[0];
    var end := offset + |Shown(p)|;
    Front(s, offset, Shown(p), Prompt(pieces[1..]));
    RefsOfFront(pieces, offset);
    if !p.Typed? {
      SubstitutedFront(s, Ref(p.id, offset, end), RefsOf(pieces[1..], end), pastes, at);
      SubstitutedPrompt(s, pieces[1..], pastes, end, end);
      InlinedPlaceholder(s, pieces, pastes, offset, end);
      NoPrefix(Inlined(pieces[1..], pastes));
    } else {
      ShownTyped(p);
      SubstitutedPrompt(s, pieces[1..], pastes, end, at);
      SubstitutedTyped(s, pieces, pastes, offset, at);
    }
  }

  lemma ShownTyped(p: Piece)
    requires p.Typed?
    ensures Shown(p) == p.text
  {
  }

  /** A prompt put together from typed text and formatted placeholders expands to the same text with the
      pasted contents in place, even when those look like placeholders themselves; typed text and
      placeholders of images stay as they were. */
  lemma PromptExpands(pieces: seq<Piece>, pastes: map<nat, Paste>)
    requires TypedIsPlain(pieces) && Numbered(pieces)
    ensures var s := Prompt(pieces);
            && ParseReferences(s) == RefsOf(pieces, 0)
            && Ordered(ParseReferences(s), 0, |s|)
            && Substituted(s, ParseReferences(s), pastes, 0) == Inlined(pieces, pastes)
  {
    hide Shown, TypedIsPlain, Numbered, Scan, Positive, Ordered, Substituted, Inlined, RefsOf, Prompt;
    var s := Prompt(pieces);
    ScanPromptIff(pieces, 0);
    NumberedStay(pieces, 0);
    ScanIsOrdered(s, 0);
    PositiveIsOrdered(Scan(s, 0), 0, |s|);
    assert s[0..] == s && s[0..0] == [];
    SubstitutedPrompt(s, pieces, pastes, 0, 0);
    NoPrefix(Inlined(pieces, pastes));
  }
}
