/** `splitMessage` of src/channels/telegram.ts: cut a long message into pieces the channel accepts. */
module SplitMessages {
  /** `lastIndexOf('\n', at)`. */
  function LastNewline(s: string, at: nat): (i: int)
    requires at < |s|
    ensures -1 <= i <= at
    ensures i >= 0 ==> s[i] == '\n'
    ensures forall k :: i < k <= at ==> s[k] != '\n'
  {
    if s[at] == '\n' then at else if at == 0 then -1 else LastNewline(s, at - 1)
  }

  /** `n` is where a text longer than `maxLen` is cut: at its last newline in the upper half of what
      fits, or, when there is none, at `maxLen`. */
  ghost predicate CutsAt(s: string, maxLen: nat, n: nat)
    requires |s| > maxLen
  {
    && maxLen <= 2 * n && n <= maxLen
    && (forall k :: n < k <= maxLen ==> s[k] != '\n')
    && (s[n] == '\n' ||
        (n == maxLen && forall k :: 0 <= k < maxLen && maxLen <= 2 * k ==> s[k] != '\n'))
  }

  /** The chunks of `s`, cut as `CutsAt` says as long as it is too long. */
  ghost predicate WellSplit(chunks: seq<string>, s: string, maxLen: nat) {
    chunks != [] &&
    if |s| <= maxLen then chunks == [s]
    else
      && 0 < |chunks[0]| <= |s| && s[..|chunks[0]|] == chunks[0]
      && CutsAt(s, maxLen, |chunks[0]|)
      && WellSplit(chunks[1..], s[|chunks[0]|..], maxLen)
  }

  lemma OneMore(s: string, n: nat, rest: seq<string>, maxLen: nat)
    requires maxLen >= 1 && |s| > maxLen && CutsAt(s, maxLen, n) && WellSplit(rest, s[n..], maxLen)
    ensures WellSplit([s[..n]] + rest, s, maxLen)
  {
    assert ([s[..n]] + rest)[1..] == rest;
  }

  /** Once `remaining` is split, `chunks` before it make a split of `text`. */
  ghost predicate Continues(chunks: seq<string>, remaining: string, text: string, maxLen: nat) {
    forall rest :: WellSplit(rest, remaining, maxLen) ==> WellSplit(chunks + rest, text, maxLen)
  }

  lemma Start(text: string, maxLen: nat)
    ensures Continues([], text, text, maxLen)
  {
    hide WellSplit;
    forall rest | WellSplit(rest, text, maxLen)
      ensures WellSplit([] + rest, text, maxLen)
    {
      assert [] + rest == rest;
    }
  }

  lemma Cut(chunks: seq<string>, remaining: string, n: nat, text: string, maxLen: nat)
    requires Continues(chunks, remaining, text, maxLen)
    requires maxLen >= 1 && |remaining| > maxLen && CutsAt(remaining, maxLen, n)
    ensures Continues(chunks + [remaining[..n]], remaining[n..], text, maxLen)
  {
    hide WellSplit;
    forall rest | WellSplit(rest, remaining[n..], maxLen)
      ensures WellSplit(chunks + [remaining[..n]] + rest, text, maxLen)
    {
      OneMore(remaining, n, rest, maxLen);
      assert chunks + [remaining[..n]] + rest == chunks + ([remaining[..n]] + rest);
    }
  }

  lemma LastChunk(remaining: string, maxLen: nat)
    requires |remaining| <= maxLen
    ensures WellSplit([remaining], remaining, maxLen)
  {
  }

  method SplitMessage(text: string, maxLen: nat) returns (chunks: seq<string>)
    requires maxLen >= 1
    ensures WellSplit(chunks, text, maxLen)
  {
    hide WellSplit;
    if |text| <= maxLen {
      LastChunk(text, maxLen);
      return [text];
    }
    chunks := [];
    var remaining := text;
    Start(text, maxLen);
    while |remaining| > 0
      invariant |remaining| > 0 && Continues(chunks, remaining, text, maxLen)
      decreases |remaining|
    {
      if |remaining| <= maxLen {
        LastChunk(remaining, maxLen);
        chunks := chunks + [remaining];
        break;
      }
      var splitAt := LastNewline(remaining, maxLen);
      if 2 * splitAt < maxLen {
        splitAt := maxLen;
      }
      Cut(chunks, remaining, splitAt, text, maxLen);
      chunks := chunks + [remaining[..splitAt]];
      remaining := remaining[splitAt..];
    }
  }

  lemma CutIsUnique(s: string, maxLen: nat, n: nat, m: nat)
    requires |s| > maxLen && CutsAt(s, maxLen, n) && CutsAt(s, maxLen, m)
    ensures n >= m
  {
    assert s[n] == '\n' || n == maxLen;
  }

  /** There is one way to split a text like that. */
  lemma {:induction false} SplitIsUnique(a: seq<string>, b: seq<string>, s: string, maxLen: nat)
    requires WellSplit(a, s, maxLen) && WellSplit(b, s, maxLen)
    ensures a == b
    decreases |s|
  {
    if |s| > maxLen {
      CutIsUnique(s, maxLen, |a[0]|, |b[0]|);
      CutIsUnique(s, maxLen, |b[0]|, |a[0]|);
      SplitIsUnique(a[1..], b[1..], s[|a[0]|..], maxLen);
      assert a == [a[0]] + a[1..] && b == [b[0]] + b[1..];
    }
  }

  function Concat(chunks: seq<string>): string {
    if chunks == [] then [] else chunks[0] + Concat(chunks[1..])
  }

  /** The chunks are the text, none is too long, and none is empty unless the text is. */
  lemma {:induction false} ChunksAreTheText(chunks: seq<string>, s: string, maxLen: nat)
    requires WellSplit(chunks, s, maxLen)
    ensures Concat(chunks) == s
    ensures forall i :: 0 <= i < |chunks| ==> |chunks[i]| <= maxLen && (s != [] ==> chunks[i] != [])
    decreases |s|
  {
    if |s| <= maxLen {
      assert chunks[1..] == [];
      assert s + [] == s;
    } else {
      ChunksAreTheText(chunks[1..], s[|chunks[0]|..], maxLen);
      assert s == chunks[0] + s[|chunks[0]|..];
      assert forall i :: 1 <= i < |chunks| ==> chunks[i] == chunks[1..][i - 1];
    }
  }

  /** Every chunk but the last fills at least half of what fits, so there are at most
      `1 + 2 * |s| / maxLen` of them. */
  lemma {:induction false} FewChunks(chunks: seq<string>, s: string, maxLen: nat)
    requires WellSplit(chunks, s, maxLen)
    ensures forall i :: 0 <= i < |chunks| - 1 ==> maxLen <= 2 * |chunks[i]|
    ensures (|chunks| - 1) * maxLen <= 2 * |s|
    decreases |s|
  {
    if |s| > maxLen {
      FewChunks(chunks[1..], s[|chunks[0]|..], maxLen);
      assert forall i :: 1 <= i < |chunks| ==> chunks[i] == chunks[1..][i - 1];
      assert (|chunks| - 1) * maxLen == (|chunks| - 2) * maxLen + maxLen;
    }
  }
}
