/** `_BoundedWebviewOutput`: a queue of chunks that remembers the tail of
    everything the webview process ever wrote. */
module BoundedTail {
  /** The last `n` characters of `s`, or all of it when it is shorter. */
  function Tail(s: string, n: nat): (t: string)
    ensures |t| == if |s| < n then |s| else n
    ensures |s| <= n ==> t == s
  {
    if |s| <= n then s else s[|s| - n..]
  }

  function Join(chunks: seq<string>): string {
    if chunks == [] then "" else chunks[0] + Join(chunks[1..])
  }

  /** Drop whole oldest chunks while the rest still covers the window. */
  function Dropped(chunks: seq<string>, maxlen: nat): seq<string> {
    if chunks != [] && |Join(chunks[1..])| >= maxlen then Dropped(chunks[1..], maxlen) else chunks
  }

  /** One write. */
  function Written(chunks: seq<string>, chunk: string, maxlen: nat): seq<string> {
    Dropped(chunks + [Tail(chunk, maxlen)], maxlen)
  }

  function WrittenAll(writes: seq<string>, maxlen: nat): seq<string> {
    if writes == [] then [] else Written(WrittenAll(writes[..|writes| - 1], maxlen), writes[|writes| - 1], maxlen)
  }

  /** `text()`. */
  function Text(chunks: seq<string>, maxlen: nat): string {
    Tail(Join(chunks), maxlen)
  }

  // ----- The window is exact -----

  lemma TailForgetsLeft(a: string, b: string, n: nat)
    ensures Tail(a + b, n) == Tail(Tail(a, n) + b, n)
  {
    if |a| > n {
      assert a + b == a[..|a| - n] + (Tail(a, n) + b);
    }
  }

  lemma TailForgetsRight(a: string, b: string, n: nat)
    ensures Tail(a + b, n) == Tail(a + Tail(b, n), n)
  {
    if |b| > n {
      TailOfLongRight(a, b, n);
      TailOfLongRight(a, Tail(b, n), n);
    }
  }

  lemma TailOfLongRight(a: string, b: string, n: nat)
    requires |b| >= n
    ensures Tail(a + b, n) == Tail(b, n)
  {
  }

  lemma {:induction false} JoinAppend(chunks: seq<string>, chunk: string)
    ensures Join(chunks + [chunk]) == Join(chunks) + chunk
  {
    if chunks == [] {
      assert [chunk][1..] == [];
    } else {
      assert (chunks + [chunk])[1..] == chunks[1..] + [chunk];
      JoinAppend(chunks[1..], chunk);
      assert chunks[0] + (Join(chunks[1..]) + chunk) == chunks[0] + Join(chunks[1..]) + chunk;
    }
  }

  lemma {:induction false} DroppingKeepsText(chunks: seq<string>, maxlen: nat)
    ensures Text(Dropped(chunks, maxlen), maxlen) == Text(chunks, maxlen)
  {
    if chunks != [] && |Join(chunks[1..])| >= maxlen {
      TailOfLongRight(chunks[0], Join(chunks[1..]), maxlen);
      DroppingKeepsText(chunks[1..], maxlen);
    }
  }

  /** A write appends to the text and trims it to the window. */
  lemma WriteAppends(chunks: seq<string>, chunk: string, maxlen: nat)
    ensures Text(Written(chunks, chunk, maxlen), maxlen) == Tail(Text(chunks, maxlen) + chunk, maxlen)
  {
    JoinAppend(chunks, Tail(chunk, maxlen));
    DroppingKeepsText(chunks + [Tail(chunk, maxlen)], maxlen);
    TailForgetsRight(Join(chunks), chunk, maxlen);
    TailForgetsLeft(Join(chunks), chunk, maxlen);
  }

  lemma WriteExtendsLog(chunks: seq<string>, log: string, chunk: string, maxlen: nat)
    requires Text(chunks, maxlen) == Tail(log, maxlen)
    ensures Text(Written(chunks, chunk, maxlen), maxlen) == Tail(log + chunk, maxlen)
  {
    WriteAppends(chunks, chunk, maxlen);
    TailForgetsLeft(log, chunk, maxlen);
  }

  /** Whatever was written and however it was cut into chunks, `text()` is the last
      min(maxlen, total) characters of it. */
  lemma {:induction false} TextIsTailOfLog(writes: seq<string>, maxlen: nat)
    ensures Text(WrittenAll(writes, maxlen), maxlen) == Tail(Join(writes), maxlen)
  {
    if writes != [] {
      var before, last := writes[..|writes| - 1], writes[|writes| - 1];
      TextIsTailOfLog(before, maxlen);
      WriteExtendsLog(WrittenAll(before, maxlen), Join(before), last, maxlen);
      JoinAppend(before, last);
      assert before + [last] == writes;
    }
  }

  // ----- The memory is bounded -----

  predicate ShortChunks(chunks: seq<string>, maxlen: nat) {
    forall i :: 0 <= i < |chunks| ==> |chunks[i]| <= maxlen
  }

  /** Nothing more can be dropped. */
  predicate Settled(chunks: seq<string>, maxlen: nat) {
    ShortChunks(chunks, maxlen) && (chunks != [] ==> |Join(chunks[1..])| < maxlen)
  }

  lemma {:induction false} DroppedIsSettled(chunks: seq<string>, maxlen: nat)
    requires ShortChunks(chunks, maxlen)
    ensures Settled(Dropped(chunks, maxlen), maxlen)
    ensures exists k :: 0 <= k <= |chunks| && Dropped(chunks, maxlen) == chunks[k..]
  {
    if chunks != [] && |Join(chunks[1..])| >= maxlen {
      DroppedIsSettled(chunks[1..], maxlen);
      var k :| 0 <= k <= |chunks[1..]| && Dropped(chunks[1..], maxlen) == chunks[1..][k..];
      assert chunks[1..][k..] == chunks[k + 1..];
    } else {
      assert chunks[0..] == chunks;
    }
  }

  lemma {:induction false} WrittenIsSettled(writes: seq<string>, maxlen: nat)
    ensures Settled(WrittenAll(writes, maxlen), maxlen)
  {
    if writes != [] {
      WrittenIsSettled(writes[..|writes| - 1], maxlen);
      var chunk := Tail(writes[|writes| - 1], maxlen);
      DroppedIsSettled(WrittenAll(writes[..|writes| - 1], maxlen) + [chunk], maxlen);
    }
  }

  lemma SettledIsSmall(chunks: seq<string>, maxlen: nat)
    requires maxlen > 0 && Settled(chunks, maxlen)
    ensures |Join(chunks)| < 2 * maxlen
  {
    if chunks != [] {
      assert |chunks[0]| <= maxlen;
    }
  }

  lemma WriteKeepsSettled(chunks: seq<string>, chunk: string, maxlen: nat)
    requires Settled(chunks, maxlen)
    ensures Settled(Written(chunks, chunk, maxlen), maxlen)
  {
    DroppedIsSettled(chunks + [Tail(chunk, maxlen)], maxlen);
  }

  /** How many chunks one write drops, and how many all of them have dropped. */
  function DroppedBy(chunks: seq<string>, chunk: string, maxlen: nat): int {
    |chunks| + 1 - |Written(chunks, chunk, maxlen)|
  }

  function DroppedSoFar(writes: seq<string>, maxlen: nat): int {
    if writes == [] then 0
    else
      var before := writes[..|writes| - 1];
      DroppedSoFar(before, maxlen) + DroppedBy(WrittenAll(before, maxlen), writes[|writes| - 1], maxlen)
  }

  lemma {:induction false} DroppedIsCounted(writes: seq<string>, maxlen: nat)
    ensures DroppedSoFar(writes, maxlen) + |WrittenAll(writes, maxlen)| == |writes|
  {
    if writes != [] {
      DroppedIsCounted(writes[..|writes| - 1], maxlen);
    }
  }

  lemma WriteDropsNoLess(chunks: seq<string>, chunk: string, maxlen: nat)
    requires Settled(chunks, maxlen)
    ensures DroppedBy(chunks, chunk, maxlen) >= 0
  {
    DroppedIsSettled(chunks + [Tail(chunk, maxlen)], maxlen);
  }

  /** The retained characters stay below twice the window, no write drops a negative
      number of chunks, and all writes together drop no more chunks than they append. */
  lemma RetainedIsBounded(writes: seq<string>, maxlen: nat)
    requires maxlen > 0
    ensures |Join(WrittenAll(writes, maxlen))| < 2 * maxlen
    ensures DroppedSoFar(writes, maxlen) <= |writes|
    ensures forall chunk :: DroppedBy(WrittenAll(writes, maxlen), chunk, maxlen) >= 0
  {
    WrittenIsSettled(writes, maxlen);
    SettledIsSmall(WrittenAll(writes, maxlen), maxlen);
    DroppedIsCounted(writes, maxlen);
    forall chunk ensures DroppedBy(WrittenAll(writes, maxlen), chunk, maxlen) >= 0 {
      WriteDropsNoLess(WrittenAll(writes, maxlen), chunk, maxlen);
    }
  }

  // ----- The class -----

  class BoundedWebviewOutput {
    const maxlen: nat
    var chunks: seq<string>
    var size: nat
    /** Everything ever written, and how many chunks came and went. */
    ghost var log: string
    ghost var appended: nat
    ghost var removed: nat

    ghost predicate Valid()
      reads this
    {
      && maxlen > 0
      && size == |Join(chunks)|
      && Text(chunks, maxlen) == Tail(log, maxlen)
      && Settled(chunks, maxlen)
      && removed + |chunks| == appended
    }

    constructor (maxlen: nat)
      requires maxlen > 0
      ensures Valid() && this.maxlen == maxlen && log == "" && appended == 0
    {
      this.maxlen := maxlen;
      chunks, size, log, appended, removed := [], 0, "", 0, 0;
    }

    /** `__call__`. */
    method Write(chunk: string)
      requires Valid()
      modifies this
      ensures Valid()
      ensures log == old(log) + chunk
      ensures chunks == Written(old(chunks), chunk, maxlen)
      ensures size < 2 * maxlen
      ensures appended == old(appended) + 1 && removed <= appended
    {
      WriteExtendsLog(chunks, log, chunk, maxlen);
      WriteKeepsSettled(chunks, chunk, maxlen);
      AppendKept(chunk);
      DropOldest();
      SettledIsSmall(chunks, maxlen);
    }

    method AppendKept(chunk: string)
      requires size == |Join(chunks)|
      modifies this
      ensures chunks == old(chunks) + [Tail(chunk, maxlen)] && size == |Join(chunks)|
      ensures log == old(log) + chunk && appended == old(appended) + 1 && removed == old(removed)
    {
      var kept := if |chunk| > maxlen then chunk[|chunk| - maxlen..] else chunk;
      JoinAppend(chunks, kept);
      log, appended := log + chunk, appended + 1;
      chunks, size := chunks + [kept], size + |kept|;
    }

    /** The loop of `__call__`. */
    method DropOldest()
      requires size == |Join(chunks)|
      modifies this
      ensures chunks == Dropped(old(chunks), maxlen) && size == |Join(chunks)|
      ensures removed + |chunks| == old(removed) + |old(chunks)|
      ensures log == old(log) && appended == old(appended)
    {
      while chunks != [] && size - |chunks[0]| >= maxlen
        invariant size == |Join(chunks)|
        invariant removed + |chunks| == old(removed) + |old(chunks)|
        invariant log == old(log) && appended == old(appended)
        invariant Dropped(chunks, maxlen) == Dropped(old(chunks), maxlen)
        decreases |chunks|
      {
        size := size - |chunks[0]|;
        chunks := chunks[1..];
        removed := removed + 1;
      }
    }

    /** `text`. */
    method ReadText() returns (text: string)
      requires Valid()
      ensures text == Tail(log, maxlen)
    {
      var joined := "";
      for i := 0 to |chunks|
        invariant joined + Join(chunks[i..]) == Join(chunks)
      {
        joined := joined + chunks[i];
        assert chunks[i..][1..] == chunks[i + 1..];
      }
      text := Tail(joined, maxlen);
    }
  }
}
