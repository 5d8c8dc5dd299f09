/**
 Cutting a stream into chunks makes no difference to the events, exactly if no CR CR LF is in it.
 */
module SseTheorems {
  import opened SseSplitter

  predicate CrLfAt(s: string, i: nat) {
    i + 1 < |s| && s[i] == '\r' && s[i + 1] == '\n'
  }

  predicate CrCrLfAt(s: string, i: nat) {
    i + 2 < |s| && s[i] == '\r' && s[i + 1] == '\r' && s[i + 2] == '\n'
  }

  ghost predicate HasCrLf(s: string) {
    exists i :: CrLfAt(s, i)
  }

  ghost predicate HasCrCrLf(s: string) {
    exists i :: CrCrLfAt(s, i)
  }

  // --- Normalizing -----------------------------------------------------------------------

  lemma TailHasNoCrCrLf(s: string, i: nat)
    requires !HasCrCrLf(s) && i <= |s|
    ensures !HasCrCrLf(s[i..]) && !HasCrCrLf(s[..i])
  {
    forall k: nat
      ensures !CrCrLfAt(s[i..], k) && !CrCrLfAt(s[..i], k)
    {
      assert !CrCrLfAt(s, k) && !CrCrLfAt(s, k + i);
    }
  }

  /** A first character before text without CR LF makes none, unless it is CR and the text starts with LF. */
  lemma OneMoreCharacter(c: char, t: string)
    requires !HasCrLf(t) && (c != '\r' || t == "" || t[0] != '\n')
    ensures !HasCrLf([c] + t)
  {
    forall k: nat
      ensures !CrLfAt([c] + t, k)
    {
      assert k > 0 ==> !CrLfAt(t, k - 1);
    }
  }

  lemma {:induction false} NormalizeLeavesNoCrLf(s: string)
    requires !HasCrCrLf(s)
    ensures !HasCrLf(Normalize(s))
    decreases |s|
  {
    if |s| >= 2 && s[0] == '\r' && s[1] == '\n' {
      TailHasNoCrCrLf(s, 2);
      NormalizeLeavesNoCrLf(s[2..]);
      OneMoreCharacter('\n', Normalize(s[2..]));
    } else if s != "" {
      TailHasNoCrCrLf(s, 1);
      NormalizeLeavesNoCrLf(s[1..]);
      assert !CrCrLfAt(s, 0);
      OneMoreCharacter(s[0], Normalize(s[1..]));
    }
  }

  lemma {:induction false} NormalizeFixes(s: string)
    requires !HasCrLf(s)
    ensures Normalize(s) == s
  {
    if s != "" {
      assert !CrLfAt(s, 0);
      forall k: nat
        ensures !CrLfAt(s[1..], k)
      {
        assert !CrLfAt(s, k + 1);
      }
      NormalizeFixes(s[1..]);
    }
  }

  /** Text can be normalized in parts, unless a CR LF is cut in two. */
  lemma {:induction false} NormalizeSplits(a: string, b: string)
    requires a == "" || b == "" || a[|a| - 1] != '\r' || b[0] != '\n'
    ensures Normalize(a + b) == Normalize(a) + Normalize(b)
    decreases |a|
  {
    if a == "" {
      assert a + b == b;
    } else if b == "" {
      assert a + b == a;
    } else if |a| >= 2 && a[0] == '\r' && a[1] == '\n' {
      assert (a + b)[2..] == a[2..] + b;
      NormalizeSplits(a[2..], b);
    } else {
      assert (a + b)[1..] == a[1..] + b;
      NormalizeSplits(a[1..], b);
    }
  }

  lemma Associative<T>(a: seq<T>, b: seq<T>, c: seq<T>)
    ensures (a + b) + c == a + (b + c)
  {
  }

  lemma {:induction false} NormalizeAgainCons(c: char, a: string, b: string)
    requires c != '\r' || (a + b == "" || (a + b)[0] != '\n')
    requires c != '\r' || Normalize(a) == "" || Normalize(a)[0] != '\n'
    requires c == '\r' && a == "" ==> b == "" || b[0] != '\n'
    requires Normalize(Normalize(a) + b) == Normalize(a + b)
    ensures Normalize(Normalize([c] + a) + b) == Normalize(([c] + a) + b)
  {
    Associative([c], a, b);
    Associative([c], Normalize(a), b);
  }

  lemma NormalizeAgainCrLf(a: string, b: string)
    requires Normalize(Normalize(a) + b) == Normalize(a + b)
    ensures Normalize(Normalize("\r\n" + a) + b) == Normalize(("\r\n" + a) + b)
  {
    Associative("\r\n", a, b);
    Associative("\n", Normalize(a), b);
  }

  lemma NormalizedStart(a: string)
    requires Normalize(a) != "" && Normalize(a)[0] == '\n'
    ensures a[0] == '\n' || CrLfAt(a, 0)
  {
  }

  /** Normalizing what was read before, again, makes no difference. */
  lemma {:induction false} NormalizeAgain(a: string, b: string)
    requires !HasCrCrLf(a + b)
    ensures Normalize(Normalize(a) + b) == Normalize(a + b)
    decreases |a|
  {
    if a == "" {
    } else if CrLfAt(a, 0) {
      TailHasNoCrCrLf(a + b, 2);
      assert (a + b)[2..] == a[2..] + b && a == "\r\n" + a[2..];
      NormalizeAgain(a[2..], b);
      NormalizeAgainCrLf(a[2..], b);
    } else if |a| == 1 {
      assert a == [a[0]] + "" && Normalize(a) == a;
    } else {
      TailHasNoCrCrLf(a + b, 1);
      assert (a + b)[1..] == a[1..] + b && a == [a[0]] + a[1..];
      NormalizeAgain(a[1..], b);
      assert !CrCrLfAt(a + b, 0);
      if a[0] == '\r' && Normalize(a[1..]) != "" && Normalize(a[1..])[0] == '\n' {
        NormalizedStart(a[1..]);
      }
      NormalizeAgainCons(a[0], a[1..], b);
    }
  }

  // --- Splitting -------------------------------------------------------------------------

  /** The part of the text that is consumed. */
  function Consumed(s: string): string
    decreases |s|
  {
    var i := FirstBoundary(s, 0);
    if i == |s| then "" else s[..i + 2] + Consumed(s[i + 2..])
  }

  lemma {:induction false} ConsumedAndRest(s: string)
    ensures s == Consumed(s) + Split(s).rest
    decreases |s|
  {
    var i := FirstBoundary(s, 0);
    if i < |s| {
      var tail := s[i + 2..];
      calc {
        s;
        s[..i + 2] + tail;
        { ConsumedAndRest(tail); }
        s[..i + 2] + (Consumed(tail) + Split(tail).rest);
        { Associative(s[..i + 2], Consumed(tail), Split(tail).rest); }
        (s[..i + 2] + Consumed(tail)) + Split(tail).rest;
        { ConsumedUnfolds(s, i); }
        Consumed(s) + Split(tail).rest;
        { SplitUnfolds(s, i); }
        Consumed(s) + Split(s).rest;
      }
    }
  }

  predicate EndsBlock(c: string) {
    |c| >= 2 && c[|c| - 1] == c[|c| - 2] == '\n'
  }

  lemma {:induction false} ConsumedEndsBlock(s: string)
    ensures Consumed(s) == "" || EndsBlock(Consumed(s))
    decreases |s|
  {
    var i := FirstBoundary(s, 0);
    if i < |s| {
      ConsumedUnfolds(s, i);
      ConsumedEndsBlock(s[i + 2..]);
      assert EndsBlock(s[..i + 2]);
    }
  }

  /** Texts that agree up to the end of a first boundary have it in common. */
  lemma CommonBoundary(s: string, i: nat, t: string)
    requires i == FirstBoundary(s, 0) < |s|
    ensures FirstBoundary(s[..i + 2] + t, 0) == i
  {
    var whole := s[..i + 2] + t;
    forall k: nat | k <= i
      ensures BoundaryAt(whole, k) <==> BoundaryAt(s, k)
    {
      assert whole[k] == s[k] && whole[k + 1] == s[k + 1];
    }
  }

  lemma SplitAtFirst(s: string, i: nat, t: string)
    requires i == FirstBoundary(s, 0) < |s|
    ensures Split(s[..i + 2] + t) == Pieces([s[..i]] + Split(t).blocks, Split(t).rest)
  {
    CommonBoundary(s, i, t);
    var whole := s[..i + 2] + t;
    assert whole[..i] == s[..i] && whole[i + 2..] == t;
  }

  /** What was consumed can be consumed first. */
  lemma {:induction false} ConsumedFirst(s: string, more: string)
    ensures Split(Consumed(s) + more) == Pieces(Split(s).blocks + Split(more).blocks, Split(more).rest)
    decreases |s|
  {
    var i := FirstBoundary(s, 0);
    if i == |s| {
      assert "" + more == more;
      assert [] + Split(more).blocks == Split(more).blocks;
    } else {
      var tail := s[i + 2..];
      ConsumedUnfolds(s, i);
      SplitUnfolds(s, i);
      calc {
        Split(Consumed(s) + more);
        { Associative(s[..i + 2], Consumed(tail), more); }
        Split(s[..i + 2] + (Consumed(tail) + more));
        { SplitAtFirst(s, i, Consumed(tail) + more); }
        Pieces([s[..i]] + Split(Consumed(tail) + more).blocks, Split(Consumed(tail) + more).rest);
        { ConsumedFirst(tail, more); }
        Pieces([s[..i]] + (Split(tail).blocks + Split(more).blocks), Split(more).rest);
        { Associative([s[..i]], Split(tail).blocks, Split(more).blocks); }
        Pieces(Split(s).blocks + Split(more).blocks, Split(more).rest);
      }
    }
  }

  lemma ConsumedUnfolds(s: string, i: nat)
    requires i == FirstBoundary(s, 0) < |s|
    ensures Consumed(s) == s[..i + 2] + Consumed(s[i + 2..])
  {
  }

  lemma SplitUnfolds(s: string, i: nat)
    requires i == FirstBoundary(s, 0) < |s|
    ensures Split(s).blocks == [s[..i]] + Split(s[i + 2..]).blocks && Split(s).rest == Split(s[i + 2..]).rest
  {
  }

  lemma PrefixHasNoCrLf(a: string, b: string)
    requires !HasCrLf(a + b)
    ensures !HasCrLf(a)
  {
    forall k: nat
      ensures !CrLfAt(a, k)
    {
      assert !CrLfAt(a + b, k);
    }
  }

  /** Normalizing leaves alone what was consumed of normalized text. */
  lemma ConsumedStays(p: string, chunk: string)
    requires !HasCrLf(p)
    ensures Normalize(p + chunk) == Consumed(p) + Normalize(Split(p).rest + chunk)
  {
    var c, rest := Consumed(p), Split(p).rest;
    assert p == c + rest by {
      ConsumedAndRest(p);
    }
    assert c == "" || c[|c| - 1] != '\r' by {
      ConsumedEndsBlock(p);
    }
    assert Normalize(c) == c by {
      PrefixHasNoCrLf(c, rest);
      NormalizeFixes(c);
    }
    calc {
      Normalize(p + chunk);
      Normalize((c + rest) + chunk);
      { Associative(c, rest, chunk); }
      Normalize(c + (rest + chunk));
      { NormalizeSplits(c, rest + chunk); }
      Normalize(c) + Normalize(rest + chunk);
      c + Normalize(rest + chunk);
    }
  }

  /** One more chunk: the loop goes on as if it had the whole text. */
  lemma OneMoreChunk(text: string, chunk: string)
    requires !HasCrCrLf(text + chunk)
    ensures var before := Split(Normalize(text)); var now := Split(Normalize(before.rest + chunk));
            Split(Normalize(text + chunk)) == Pieces(before.blocks + now.blocks, now.rest)
  {
    var p := Normalize(text);
    PrefixHasNoCrCrLf(text, chunk);
    NormalizeLeavesNoCrLf(text);
    NormalizeAgain(text, chunk);
    ConsumedStays(p, chunk);
    ConsumedFirst(p, Normalize(Split(p).rest + chunk));
  }

  lemma PrefixHasNoCrCrLf(a: string, b: string)
    requires !HasCrCrLf(a + b)
    ensures !HasCrCrLf(a)
  {
    TailHasNoCrCrLf(a + b, |a|);
    assert (a + b)[..|a|] == a;
  }

  lemma {:induction false} PiecesAreAsTheWhole(chunks: seq<string>)
    requires !HasCrCrLf(Concat(chunks))
    ensures ReadPieces(chunks) == Split(Normalize(Concat(chunks)))
  {
    if chunks != [] {
      var front := chunks[..|chunks| - 1];
      PrefixHasNoCrCrLf(Concat(front), chunks[|chunks| - 1]);
      PiecesAreAsTheWhole(front);
      OneMoreChunk(Concat(front), chunks[|chunks| - 1]);
    }
  }

  /** Without CR CR LF the loop emits and leaves what one call on the whole normalized text does. */
  lemma ChunksAreAsTheWhole(chunks: seq<string>)
    requires !HasCrCrLf(Concat(chunks))
    ensures ReadChunks(chunks) == Consume(Normalize(Concat(chunks)))
  {
    PiecesAreAsTheWhole(chunks);
  }

  // --- The condition is exact ------------------------------------------------------------

  lemma {:induction false} NormalizeShortens(s: string)
    requires HasCrLf(s)
    ensures |Normalize(s)| < |s|
  {
    if !CrLfAt(s, 0) {
      var i: nat :| CrLfAt(s, i);
      assert CrLfAt(s[1..], i - 1);
      NormalizeShortens(s[1..]);
    }
  }

  lemma ReadOne(a: string)
    ensures Concat([a]) == a && ReadPieces([a]) == Split(Normalize(a))
  {
  }

  lemma ReadTwo(a: string, b: string)
    ensures Concat([a, b]) == a + b
    ensures var before := Split(Normalize(a)); var now := Split(Normalize(before.rest + b));
            ReadPieces([a, b]) == Pieces(before.blocks + now.blocks, now.rest)
  {
    ReadOne(a);
    assert [a, b][..1] == [a];
  }

  lemma OneCrIsLeft()
    ensures Normalize("\r\r\n") == "\r\n"
  {
  }

  /** Text that ends with CR LF, once normalized, is never consumed up to there. */
  lemma CrLfIsLeft(q: string)
    ensures HasCrLf(Split(q + "\r\n").rest)
  {
    var t := q + "\r\n";
    var c, rest := Consumed(t), Split(t).rest;
    assert t == c + rest by {
      ConsumedAndRest(t);
    }
    assert c == "" || EndsBlock(c) by {
      ConsumedEndsBlock(t);
    }
    assert |c| <= |t| - 2 by {
      if c != "" {
        assert t[|c| - 1] == c[|c| - 1] == '\n' && t[|c| - 2] == c[|c| - 2] == '\n';
      }
    }
    assert rest[|rest| - 1] == t[|t| - 1] && rest[|rest| - 2] == t[|t| - 2];
    assert CrLfAt(rest, |rest| - 2);
  }

  /** A text that ends with CR CR LF, and then nothing more: the second call changes what is left. */
  lemma AnEmptyChunkMatters(q: string)
    ensures Concat([q + "\r\r\n", ""]) == q + "\r\r\n"
    ensures ReadChunks([q + "\r\r\n", ""]) != Consume(Normalize(q + "\r\r\n"))
  {
    var s := q + "\r\r\n";
    OneCrIsLeft();
    NormalizeSplits(q, "\r\r\n");
    CrLfIsLeft(Normalize(q));
    var rest := Split(Normalize(s)).rest;
    NormalizeShortens(rest);
    ReadTwo(s, "");
    assert rest + "" == rest && s + "" == s;
  }

  /** However the stream, or any part from its start, is cut: the loop does what one call does. */
  ghost predicate CuttingNeverMatters(stream: string) {
    forall chunks :: Concat(chunks) <= stream ==> ReadChunks(chunks) == Consume(Normalize(Concat(chunks)))
  }

  lemma CrCrLfMatters(stream: string, i: nat)
    requires CrCrLfAt(stream, i)
    ensures exists chunks :: Concat(chunks) <= stream && ReadChunks(chunks) != Consume(Normalize(Concat(chunks)))
  {
    var p := stream[..i] + "\r\r\n";
    assert p == stream[..i + 3];
    var chunks := [p, ""];
    assert Concat(chunks) == p && ReadChunks(chunks) != Consume(Normalize(p)) by {
      AnEmptyChunkMatters(stream[..i]);
    }
  }

  lemma CuttingMattersExactlyForCrCrLf(stream: string)
    ensures CuttingNeverMatters(stream) <==> !HasCrCrLf(stream)
  {
    if HasCrCrLf(stream) {
      var i: nat :| CrCrLfAt(stream, i);
      CrCrLfMatters(stream, i);
    } else {
      forall chunks | Concat(chunks) <= stream
        ensures ReadChunks(chunks) == Consume(Normalize(Concat(chunks)))
      {
        TailHasNoCrCrLf(stream, |Concat(chunks)|);
        assert stream[..|Concat(chunks)|] == Concat(chunks);
        ChunksAreAsTheWhole(chunks);
      }
    }
  }

  /** A stream in which each CR is followed by LF is split the same way however it is cut. */
  lemma {:induction false} WellFormedStreamsAreSplitAlike(one: seq<string>, two: seq<string>)
    requires Concat(one) == Concat(two)
    requires forall i :: 0 <= i < |Concat(one)| && Concat(one)[i] == '\r' ==>
               i + 1 < |Concat(one)| && Concat(one)[i + 1] == '\n'
    ensures ReadChunks(one) == ReadChunks(two) == Consume(Normalize(Concat(one)))
  {
    forall i: nat
      ensures !CrCrLfAt(Concat(one), i)
    {
    }
    ChunksAreAsTheWhole(one);
    ChunksAreAsTheWhole(two);
  }

  lemma NoBoundary(s: string)
    requires forall k :: 0 <= k < |s| ==> !BoundaryAt(s, k)
    ensures Split(s) == Pieces([], s)
  {
  }

  lemma OneBoundary()
    ensures Split("a\n\nb") == Pieces(["a"], "b")
  {
    var t := "a\n\nb";
    assert FirstBoundary(t, 0) == 1;
    NoBoundary("b");
    assert t[..1] == "a" && t[3..] == "b";
  }

  lemma NormalizeShort()
    ensures Normalize("a\n") == "a\n" && Normalize("b") == "b" && Normalize("\r\nb") == "\nb"
  {
  }

  lemma FirstChunk()
    ensures Split(Normalize("a\n\r\r\n")) == Pieces([], "a\n\r\n")
  {
    OneCrIsLeft();
    NormalizeShort();
    NormalizeSplits("a\n", "\r\r\n");
    assert "a\n\r\r\n" == "a\n" + "\r\r\n" && "a\n\r\n" == "a\n" + "\r\n";
    NoBoundary("a\n\r\n");
  }

  lemma SecondChunk()
    ensures Split(Normalize("a\n\r\n" + "b")) == Pieces(["a"], "b")
  {
    NormalizeShort();
    NormalizeSplits("a\n", "\r\nb");
    assert "a\n\r\n" + "b" == "a\n" + "\r\nb" && "a\n" + "\nb" == "a\n\nb";
    OneBoundary();
  }

  lemma CutPieces()
    ensures ReadPieces(["a\n\r\r\n", "b"]) == Pieces(["a"], "b")
  {
    FirstChunk();
    SecondChunk();
    ReadTwo("a\n\r\r\n", "b");
  }

  lemma WholePieces()
    ensures Split(Normalize("a\n\r\r\nb")).blocks == []
  {
    OneCrIsLeft();
    NormalizeShort();
    NormalizeSplits("a\n", "\r\r\n");
    assert "a\n\r\r\n" == "a\n" + "\r\r\n";
    NormalizeSplits("a\n\r\r\n", "b");
    assert "a\n\r\r\nb" == "a\n\r\r\n" + "b";
    assert Normalize("a\n\r\r\nb") == "a\n\r\nb";
    NoBoundary("a\n\r\nb");
  }

  /** With CR CR LF an event may be seen by the loop that one call would not see. */
  lemma AnEventMayDependOnTheCut()
    ensures |ReadChunks(["a\n\r\r\n", "b"]).events| == 1
    ensures Consume(Normalize("a\n\r\r\nb")).events == []
  {
    CutPieces();
    WholePieces();
    assert ["a"][..0] == [];
    assert WithoutCr("a") == "a" && !IsJsSpace("a"[0]);
  }
}
