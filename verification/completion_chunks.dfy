// The clang backend's completion-chunk model and the two traversals of a
// native completion string that the chunk converter performs, stated as
// functions, with the shape properties they guarantee.

module CompletionChunks {
  import opened LibClang

  /** A converted chunk; `optionalChunks` is non-empty only for Optional chunks. */
  datatype CodeCompletionChunk = CodeCompletionChunk(kind: ChunkKind, text: string, optionalChunks: seq<CodeCompletionChunk>)

  /** The two-argument CodeCompletionChunk constructor: no nested chunks. */
  function Leaf(kind: ChunkKind, text: string): CodeCompletionChunk
  {
    CodeCompletionChunk(kind, text, [])
  }

  /** A chunk that holds no Optional chunk anywhere: not Optional itself, nothing nested. */
  predicate IsPlain(c: CodeCompletionChunk)
  {
    c.kind != Optional && c.optionalChunks == []
  }

  /** Flat extraction of the first `n` chunks of `cs`: every Optional chunk is
      replaced, in place, by the flat extraction of its nested string, and its own
      text is dropped; every other chunk becomes a leaf. */
  function FlatPrefix(cs: CompletionString, n: nat): (r: seq<CodeCompletionChunk>)
    requires n <= NumCompletionChunks(cs)
    ensures forall c :: c in r ==> IsPlain(c)
    decreases cs, n
  {
    if n == 0 then []
    else
      var i := n - 1;
      FlatPrefix(cs, i) + FlatChunk(cs, i)
  }

  /** What flat extraction emits for chunk `i` of `cs`. */
  function FlatChunk(cs: CompletionString, i: nat): (r: seq<CodeCompletionChunk>)
    requires i < NumCompletionChunks(cs)
    ensures forall c :: c in r ==> IsPlain(c)
    decreases cs, 0
  {
    if CompletionChunkKind(cs, i) == Optional then
      var nested := cs.chunks[i].completionString;
      assert nested == CompletionChunkCompletionString(cs, i);
      FlatPrefix(nested, NumCompletionChunks(nested))
    else
      [Leaf(CompletionChunkKind(cs, i), CompletionChunkText(cs, i))]
  }

  /** Flat extraction of a whole completion string: only plain chunks. */
  function Flat(cs: CompletionString): (r: seq<CodeCompletionChunk>)
    ensures forall c :: c in r ==> IsPlain(c)
  {
    FlatPrefix(cs, NumCompletionChunks(cs))
  }

  /** What structured extraction emits for chunk `i` of `cs`. */
  function StructuredChunk(cs: CompletionString, i: nat): CodeCompletionChunk
    requires i < NumCompletionChunks(cs)
  {
    var kind := CompletionChunkKind(cs, i);
    if kind == Optional then
      CodeCompletionChunk(kind, CompletionChunkText(cs, i), Flat(CompletionChunkCompletionString(cs, i)))
    else
      Leaf(kind, CompletionChunkText(cs, i))
  }

  /** Structured extraction of the first `n` chunks of `cs`: one chunk per index. */
  function StructuredPrefix(cs: CompletionString, n: nat): (r: seq<CodeCompletionChunk>)
    requires n <= NumCompletionChunks(cs)
    ensures |r| == n
  {
    if n == 0 then [] else StructuredPrefix(cs, n - 1) + [StructuredChunk(cs, n - 1)]
  }

  /** Structured extraction of a whole completion string. */
  function Structured(cs: CompletionString): (r: seq<CodeCompletionChunk>)
    ensures |r| == NumCompletionChunks(cs)
  {
    StructuredPrefix(cs, NumCompletionChunks(cs))
  }

  /** The number of non-Optional chunks in the tree of `cs`, Optional groups included. */
  function LeafCountPrefix(cs: CompletionString, n: nat): nat
    requires n <= NumCompletionChunks(cs)
    decreases cs, n
  {
    if n == 0 then 0
    else
      var i := n - 1;
      LeafCountPrefix(cs, i) +
        if cs.chunks[i].kind == Optional then
          var nested := cs.chunks[i].completionString;
          LeafCountPrefix(nested, NumCompletionChunks(nested))
        else 1
  }

  function LeafCount(cs: CompletionString): nat
  {
    LeafCountPrefix(cs, NumCompletionChunks(cs))
  }

  // ---------------------------------------------------------------------------
  // Structured extraction

  /** Structured extraction yields exactly one chunk per native index, in index
      order, with that index's kind and text; an Optional chunk keeps its text and
      nests the flat extraction of its string, every other chunk nests nothing. */
  lemma {:induction false} StructuredPrefixAt(cs: CompletionString, n: nat)
    requires n <= NumCompletionChunks(cs)
    ensures forall i :: 0 <= i < n ==> StructuredPrefix(cs, n)[i] == StructuredChunk(cs, i)
  {
    if n > 0 {
      StructuredPrefixAt(cs, n - 1);
    }
  }

  lemma StructuredShape(cs: CompletionString)
    ensures |Structured(cs)| == NumCompletionChunks(cs)
    ensures forall i :: 0 <= i < NumCompletionChunks(cs) ==>
      var c := Structured(cs)[i];
      && c.kind == CompletionChunkKind(cs, i)
      && c.text == CompletionChunkText(cs, i)
      && (c.kind == Optional ==> c.optionalChunks == Flat(CompletionChunkCompletionString(cs, i)))
      && (c.kind != Optional ==> c.optionalChunks == [])
  {
    StructuredPrefixAt(cs, NumCompletionChunks(cs));
  }

  /** The result of structured extraction nests at most one level: nothing inside
      an Optional chunk is Optional or has nested chunks of its own. */
  lemma StructuredNestsOneLevel(cs: CompletionString)
    ensures forall i, c :: 0 <= i < |Structured(cs)| && c in Structured(cs)[i].optionalChunks ==> IsPlain(c)
  {
    StructuredShape(cs);
  }

  /** A null handle converts to nothing in either traversal. */
  lemma NullHandleIsEmpty()
    ensures Structured(Null) == [] && Flat(Null) == []
  {
  }

  // ---------------------------------------------------------------------------
  // Flat extraction

  /** Flat extraction of a prefix emits exactly one chunk per non-Optional chunk
      of the tree below that prefix. */
  lemma {:induction false} FlatPrefixLength(cs: CompletionString, n: nat)
    requires n <= NumCompletionChunks(cs)
    ensures |FlatPrefix(cs, n)| == LeafCountPrefix(cs, n)
    decreases cs, n
  {
    if n > 0 {
      var i := n - 1;
      FlatPrefixLength(cs, i);
      if cs.chunks[i].kind == Optional {
        var nested := cs.chunks[i].completionString;
        FlatPrefixLength(nested, NumCompletionChunks(nested));
      }
    }
  }

  /** Flat extraction emits exactly one chunk per non-Optional chunk of the tree. */
  lemma FlatLength(cs: CompletionString)
    ensures |Flat(cs)| == LeafCount(cs)
  {
    FlatPrefixLength(cs, NumCompletionChunks(cs));
  }

  /** Flat extraction of a prefix only reads the chunks in that prefix. */
  lemma {:induction false} FlatPrefixAgree(a: CompletionString, b: CompletionString, n: nat)
    requires n <= NumCompletionChunks(a) && n <= NumCompletionChunks(b)
    requires Chunks(a)[..n] == Chunks(b)[..n]
    ensures FlatPrefix(a, n) == FlatPrefix(b, n)
  {
    if n > 0 {
      assert Chunks(a)[..n - 1] == Chunks(a)[..n][..n - 1];
      assert Chunks(b)[..n - 1] == Chunks(b)[..n][..n - 1];
      assert Chunks(a)[n - 1] == Chunks(a)[..n][n - 1];
      assert Chunks(b)[n - 1] == Chunks(b)[..n][n - 1];
      FlatPrefixAgree(a, b, n - 1);
    }
  }

  lemma {:induction false} FlatConcatPrefix(a: CompletionString, b: CompletionString, m: nat)
    requires m <= NumCompletionChunks(b)
    ensures NumCompletionChunks(Concat(a, b)) == NumCompletionChunks(a) + NumCompletionChunks(b)
    ensures FlatPrefix(Concat(a, b), NumCompletionChunks(a) + m) == Flat(a) + FlatPrefix(b, m)
  {
    var ab := Concat(a, b);
    var na := NumCompletionChunks(a);
    if m == 0 {
      assert Chunks(ab)[..na] == Chunks(a)[..na];
      FlatPrefixAgree(ab, a, na);
    } else {
      FlatConcatPrefix(a, b, m - 1);
      assert Chunks(ab)[na + m - 1] == Chunks(b)[m - 1];
    }
  }

  /** Flat extraction distributes over concatenation of completion strings. */
  lemma FlatConcat(a: CompletionString, b: CompletionString)
    ensures Flat(Concat(a, b)) == Flat(a) + Flat(b)
  {
    FlatConcatPrefix(a, b, NumCompletionChunks(b));
  }

  /** An Optional chunk at index |pre| is a single Optional chunk with its own text
      in structured extraction, and is replaced by the flat extraction of its
      nested string, with its text dropped, in flat extraction. */
  lemma OptionalChunkPlacement(pre: seq<NativeChunk>, opt: NativeChunk, post: seq<NativeChunk>)
    requires opt.kind == Optional
    ensures var cs := CompletionString(pre + [opt] + post);
      && Structured(cs)[|pre|] == CodeCompletionChunk(Optional, opt.text, Flat(opt.completionString))
      && Flat(cs) == Flat(CompletionString(pre)) + Flat(opt.completionString) + Flat(CompletionString(post))
  {
    var cs := CompletionString(pre + [opt] + post);
    StructuredShape(cs);
    var p, o, q := CompletionString(pre), CompletionString([opt]), CompletionString(post);
    assert Concat(Concat(p, o), q) == cs;
    FlatConcat(Concat(p, o), q);
    FlatConcat(p, o);
    assert Flat(o) == FlatPrefix(o, 0) + FlatChunk(o, 0);
  }

  /** Where no top-level chunk is Optional, the two traversals agree prefix by prefix. */
  lemma {:induction false} FlatPrefixIsStructured(cs: CompletionString, n: nat)
    requires n <= NumCompletionChunks(cs)
    requires forall i :: 0 <= i < n ==> CompletionChunkKind(cs, i) != Optional
    ensures FlatPrefix(cs, n) == StructuredPrefix(cs, n)
  {
    if n > 0 {
      FlatPrefixIsStructured(cs, n - 1);
    }
  }

  /** Flat and structured extraction give the same chunks exactly when no
      top-level chunk of the completion string is Optional. */
  lemma FlatIsStructuredIff(cs: CompletionString)
    ensures Flat(cs) == Structured(cs) <==>
      forall i :: 0 <= i < NumCompletionChunks(cs) ==> CompletionChunkKind(cs, i) != Optional
  {
    if forall i :: 0 <= i < NumCompletionChunks(cs) ==> CompletionChunkKind(cs, i) != Optional {
      FlatPrefixIsStructured(cs, NumCompletionChunks(cs));
    } else {
      var i :| 0 <= i < NumCompletionChunks(cs) && CompletionChunkKind(cs, i) == Optional;
      StructuredShape(cs);
      assert Structured(cs)[i] in Structured(cs);
      assert !IsPlain(Structured(cs)[i]);
    }
  }
}
