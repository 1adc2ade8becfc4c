/** Splitting text at newlines, whole and chunk by chunk. */
module TextLines {
  ghost predicate NewlineFree(s: string) {
    forall i :: 0 <= i < |s| ==> s[i] != '\n'
  }

  /** `s.split('\n')`. */
  function Split(s: string): (pieces: seq<string>)
    ensures |pieces| >= 1
  {
    if s == [] then [[]] else Push(s[0], Split(s[1..]))
  }

  /** The pieces of a text with one more character in front. */
  function Push(c: char, pieces: seq<string>): (r: seq<string>)
    requires |pieces| >= 1
    ensures |r| >= 1
  {
    if c == '\n' then [[]] + pieces else [[c] + pieces[0]] + pieces[1..]
  }

  /** The pieces with a newline between each two. */
  function Join(pieces: seq<string>): string
    requires |pieces| >= 1
  {
    if |pieces| == 1 then pieces[0] else pieces[0] + ['\n'] + Join(pieces[1..])
  }

  ghost predicate AllNewlineFree(pieces: seq<string>) {
    forall i :: 0 <= i < |pieces| ==> NewlineFree(pieces[i])
  }

  lemma {:induction false} SplitIsFree(s: string)
    ensures AllNewlineFree(Split(s))
  {
    if s != [] {
      SplitIsFree(s[1..]);
      var rest := Split(s[1..]);
      assert NewlineFree(rest[0]);
    }
  }

  lemma JoinOf(first: string, rest: seq<string>)
    requires |rest| >= 1
    ensures Join([first] + rest) == first + (['\n'] + Join(rest))
  {
    assert ([first] + rest)[1..] == rest;
    assert first + ['\n'] + Join(rest) == first + (['\n'] + Join(rest));
  }

  lemma JoinPushNewline(pieces: seq<string>)
    requires |pieces| >= 1
    ensures Join([[]] + pieces) == ['\n'] + Join(pieces)
  {
    JoinOf([], pieces);
    assert [] + (['\n'] + Join(pieces)) == ['\n'] + Join(pieces);
  }

  lemma JoinPushChar(c: char, first: string, rest: seq<string>)
    ensures Join([[c] + first] + rest) == [c] + Join([first] + rest)
  {
    if rest == [] {
      assert [[c] + first] + rest == [[c] + first] && [first] + rest == [first];
    } else {
      JoinOf(first, rest);
      JoinOf([c] + first, rest);
      hide Join;
      assert [c] + (first + (['\n'] + Join(rest))) == ([c] + first) + (['\n'] + Join(rest));
    }
  }

  lemma {:induction false} JoinOfSplit(s: string)
    ensures Join(Split(s)) == s
  {
    if s != [] {
      JoinOfSplit(s[1..]);
      var pieces := Split(s[1..]);
      JoinPushNewline(pieces);
      JoinPushChar(s[0], pieces[0], pieces[1..]);
      hide Join, Split;
      assert pieces == [pieces[0]] + pieces[1..];
      assert s == [s[0]] + s[1..];
    }
  }

  lemma PushIsSplit(c: char, s: string)
    ensures Split([c] + s) == Push(c, Split(s))
  {
    assert ([c] + s)[1..] == s;
  }

  /** A newline-free prefix of the text belongs to the first piece. */
  lemma {:induction false} SplitPrefix(line: string, s: string)
    requires NewlineFree(line)
    ensures Split(line + s) == [line + Split(s)[0]] + Split(s)[1..]
  {
    if line == [] {
      assert line + s == s && line + Split(s)[0] == Split(s)[0];
    } else {
      SplitPrefix(line[1..], s);
      assert (line + s)[1..] == line[1..] + s;
      assert line + Split(s)[0] == [line[0]] + (line[1..] + Split(s)[0]);
    }
  }

  lemma {:induction false} SplitOfJoin(pieces: seq<string>)
    requires |pieces| >= 1 && AllNewlineFree(pieces)
    ensures Split(Join(pieces)) == pieces
  {
    if |pieces| == 1 {
      SplitPrefix(pieces[0], []);
      assert pieces[0] + [] == pieces[0];
    } else {
      SplitOfJoin(pieces[1..]);
      var rest := ['\n'] + Join(pieces[1..]);
      PushIsSplit('\n', Join(pieces[1..]));
      assert pieces == [pieces[0]] + pieces[1..];
      JoinOf(pieces[0], pieces[1..]);
      SplitPrefix(pieces[0], rest);
      assert Split(rest) == [[]] + pieces[1..];
      assert pieces[0] + [] == pieces[0];
    }
  }

  /** The pieces of a text are the newline-free ones that join to it, and no others. */
  lemma SplitIff(s: string, pieces: seq<string>)
    requires |pieces| >= 1
    ensures pieces == Split(s) <==> AllNewlineFree(pieces) && Join(pieces) == s
  {
    SplitIsFree(s);
    JoinOfSplit(s);
    if AllNewlineFree(pieces) { SplitOfJoin(pieces); }
  }

  // ---- Reading chunk by chunk ----

  /** The lines of `s` that are ended by a newline. */
  function Ended(s: string): seq<string> {
    Split(s)[..|Split(s)| - 1]
  }

  /** What follows the last newline. */
  function Residue(s: string): string {
    Split(s)[|Split(s)| - 1]
  }

  function Concat(chunks: seq<string>): string {
    if chunks == [] then [] else Concat(chunks[..|chunks| - 1]) + chunks[|chunks| - 1]
  }

  lemma PushSplits(c: char, ended: seq<string>, pieces: seq<string>)
    requires |pieces| >= 1
    ensures c == '\n' ==> Push(c, ended + pieces) == ([[]] + ended) + pieces
    ensures c != '\n' && ended != [] ==> Push(c, ended + pieces) == Push(c, ended) + pieces
    ensures c != '\n' && ended == [] ==> Push(c, ended + pieces) == Push(c, pieces)
  {
    if c == '\n' {
      assert [[]] + (ended + pieces) == ([[]] + ended) + pieces;
    } else if ended == [] {
      assert ended + pieces == pieces;
    } else {
      var all := ended + pieces;
      assert all[0] == ended[0] && all[1..] == ended[1..] + pieces;
      assert Push(c, all) == [[c] + ended[0]] + (ended[1..] + pieces);
    }
  }

  lemma SplitMoreStep(c: char, ended: seq<string>, residue: string, b: string)
    ensures c == '\n' ==> Push(c, ended + Split(residue + b)) == ([[]] + ended) + Split(residue + b)
    ensures c != '\n' && ended != [] ==> Push(c, ended + Split(residue + b)) == Push(c, ended) + Split(residue + b)
    ensures c != '\n' && ended == [] ==> Push(c, ended + Split(residue + b)) == Split(([c] + residue) + b)
  {
    PushSplits(c, ended, Split(residue + b));
    PushIsSplit(c, residue + b);
    assert ([c] + residue) + b == [c] + (residue + b);
    hide Split, Push;
  }

  lemma EmptyPlus<T>(s: seq<T>)
    ensures [] + s == s
  {
  }

  lemma PushFront(a: string, b: string)
    requires a != []
    ensures Split(a + b) == Push(a[0], Split(a[1..] + b))
  {
    assert a + b == [a[0]] + (a[1..] + b);
    PushIsSplit(a[0], a[1..] + b);
  }

  /** More text continues the last piece. */
  lemma {:induction false} SplitMore(a: string, b: string)
    ensures Split(a + b) == Ended(a) + Split(Residue(a) + b)
  {
    EmptyPlus(b);
    if a == [] {
      EmptyPlus(Split(b));
    } else {
      SplitMore(a[1..], b);
      PushFront(a, b);
      SplitParts(a);
      SplitMoreStep(a[0], Ended(a[1..]), Residue(a[1..]), b);
      EmptyPlus(Split(Residue(a) + b));
      hide *;
    }
  }

  lemma Parts(pieces: seq<string>, ended: seq<string>, residue: string)
    requires pieces == ended + [residue]
    ensures pieces[..|pieces| - 1] == ended && pieces[|pieces| - 1] == residue
  {
  }

  lemma PushParts(c: char, ended: seq<string>, residue: string, pieces: seq<string>)
    requires pieces == Push(c, ended + [residue])
    ensures c == '\n' ==> pieces[..|pieces| - 1] == [[]] + ended && pieces[|pieces| - 1] == residue
    ensures c != '\n' && ended != [] ==>
              pieces[..|pieces| - 1] == Push(c, ended) && pieces[|pieces| - 1] == residue
    ensures c != '\n' && ended == [] ==> pieces[..|pieces| - 1] == [] && pieces[|pieces| - 1] == [c] + residue
  {
    PushSplits(c, ended, [residue]);
    if c == '\n' {
      hide *;
      Parts(pieces, [[]] + ended, residue);
    } else if ended != [] {
      hide *;
      Parts(pieces, Push(c, ended), residue);
    } else {
      assert pieces == [[c] + residue];
    }
  }

  lemma EndedAndResidue(s: string)
    ensures Split(s) == Ended(s) + [Residue(s)]
  {
    hide Split;
  }

  lemma SplitFront(a: string)
    requires a != []
    ensures Split(a) == Push(a[0], Split(a[1..]))
  {
    hide Push;
  }

  /** How the first character bears on the ended lines and the residue. */
  lemma SplitParts(a: string)
    requires a != []
    ensures var c, ended, residue := a[0], Ended(a[1..]), Residue(a[1..]);
            && (c == '\n' ==> Ended(a) == [[]] + ended && Residue(a) == residue)
            && (c != '\n' && ended != [] ==> Ended(a) == Push(c, ended) && Residue(a) == residue)
            && (c != '\n' && ended == [] ==> Ended(a) == [] && Residue(a) == [c] + residue)
  {
    hide Split, Push;
    SplitFront(a);
    EndedAndResidue(a[1..]);
    PushParts(a[0], Ended(a[1..]), Residue(a[1..]), Split(a));
  }

  /** Chunk independence: reading `b` on top of the residue of `a` ends the same lines and leaves the
      same residue as having the whole text. */
  lemma ChunkStep(a: string, b: string)
    ensures Ended(a + b) == Ended(a) + Ended(Residue(a) + b)
    ensures Residue(a + b) == Residue(Residue(a) + b)
  {
    SplitMore(a, b);
  }
}
