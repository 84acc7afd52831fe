// CodeCompletionChunkConverter of the clang backend: walks a native completion
// string index by index and appends converted chunks to its `chunks` vector.

module ClangBackEnd {
  import opened LibClang
  import opened CompletionChunks

  class CodeCompletionChunkConverter {
    var chunks: seq<CodeCompletionChunk>

    constructor()
      ensures chunks == []
    {
      chunks := [];
    }

    /** The native chunk's kind, unchanged. */
    static function ChunkKind(completionString: CompletionString, chunkIndex: nat): (kind: LibClang.ChunkKind)
      requires chunkIndex < NumCompletionChunks(completionString)
      ensures kind == Chunks(completionString)[chunkIndex].kind
    {
      CompletionChunkKind(completionString, chunkIndex)
    }

    /** The native chunk's text, unchanged. */
    static function ChunkText(completionString: CompletionString, chunkIndex: nat): (text: string)
      requires chunkIndex < NumCompletionChunks(completionString)
      ensures text == Chunks(completionString)[chunkIndex].text
    {
      CompletionChunkText(completionString, chunkIndex)
    }

    /** Appends one chunk per index of `completionString`; Optional chunks keep
        their text and carry their nested string's flat extraction. */
    method ExtractCompletionChunks(completionString: CompletionString)
      modifies this
      ensures chunks == old(chunks) + Structured(completionString)
    {
      var completionChunkCount := NumCompletionChunks(completionString);
      var chunkIndex := 0;
      while chunkIndex < completionChunkCount
        invariant chunkIndex <= completionChunkCount
        invariant chunks == old(chunks) + StructuredPrefix(completionString, chunkIndex)
      {
        var kind := ChunkKind(completionString, chunkIndex);
        if kind == Optional {
          var nested := OptionalChunks(completionString, chunkIndex);
          chunks := chunks + [CodeCompletionChunk(kind, ChunkText(completionString, chunkIndex), nested)];
        } else {
          chunks := chunks + [Leaf(kind, ChunkText(completionString, chunkIndex))];
        }
        chunkIndex := chunkIndex + 1;
      }
    }

    /** Appends the chunks of `completionString` with every Optional group spliced
        in place, recursively, and the Optional chunks themselves dropped. */
    method ExtractOptionalCompletionChunks(completionString: CompletionString)
      modifies this
      ensures chunks == old(chunks) + Flat(completionString)
      decreases completionString
    {
      var completionChunkCount := NumCompletionChunks(completionString);
      var chunkIndex := 0;
      while chunkIndex < completionChunkCount
        invariant chunkIndex <= completionChunkCount
        invariant chunks == old(chunks) + FlatPrefix(completionString, chunkIndex)
      {
        var kind := ChunkKind(completionString, chunkIndex);
        if kind == Optional {
          var nested := CompletionChunkCompletionString(completionString, chunkIndex);
          assert nested == completionString.chunks[chunkIndex].completionString;
          ExtractOptionalCompletionChunks(nested);
        } else {
          chunks := chunks + [Leaf(kind, ChunkText(completionString, chunkIndex))];
        }
        chunkIndex := chunkIndex + 1;
      }
    }

    /** Converts a native completion string with a fresh converter: one chunk per
        native index, nesting at most one level deep. */
    static method Extract(completionString: CompletionString) returns (r: seq<CodeCompletionChunk>)
      ensures r == Structured(completionString)
      ensures |r| == NumCompletionChunks(completionString)
      ensures forall i, c :: 0 <= i < |r| && c in r[i].optionalChunks ==> IsPlain(c)
    {
      var converter := new CodeCompletionChunkConverter();
      converter.ExtractCompletionChunks(completionString);
      r := converter.chunks;
      StructuredNestsOneLevel(completionString);
    }

    /** The nested chunks of Optional chunk `chunkIndex`, extracted flat with a
        fresh converter; none of them is Optional. */
    static method OptionalChunks(completionString: CompletionString, chunkIndex: nat) returns (r: seq<CodeCompletionChunk>)
      requires chunkIndex < NumCompletionChunks(completionString)
      ensures r == Flat(CompletionChunkCompletionString(completionString, chunkIndex))
      ensures forall c :: c in r ==> IsPlain(c)
    {
      var converter := new CodeCompletionChunkConverter();
      converter.ExtractOptionalCompletionChunks(CompletionChunkCompletionString(completionString, chunkIndex));
      r := converter.chunks;
    }
  }
}
