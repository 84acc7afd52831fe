// The part of libclang's code-completion interface that the clang backend's
// chunk converter reads. A native completion string is modelled as a finite
// tree: each chunk carries its kind, its text and, for Optional chunks, the
// nested completion string of the optional group. libclang's accessor calls
// become reads of that tree.

module LibClang {

  /** Completion chunk kinds, in the order of libclang's CXCompletionChunkKind. */
  datatype ChunkKind =
    | Optional | TypedText | Text | Placeholder | Informative | CurrentParameter
    | LeftParen | RightParen | LeftBracket | RightBracket | LeftBrace | RightBrace
    | LeftAngle | RightAngle | Comma | ResultType | Colon | SemiColon | Equal
    | HorizontalSpace | VerticalSpace

  /** One native chunk; `completionString` is only meaningful when `kind == Optional`. */
  datatype NativeChunk = NativeChunk(kind: ChunkKind, text: string, completionString: CompletionString)

  /** A native completion-string handle; `Null` is the null handle. */
  datatype CompletionString = Null | CompletionString(chunks: seq<NativeChunk>)

  /** clang_getNumCompletionChunks: a null handle has no chunks. */
  function NumCompletionChunks(cs: CompletionString): nat
  {
    if cs.Null? then 0 else |cs.chunks|
  }

  /** clang_getCompletionChunkKind */
  function CompletionChunkKind(cs: CompletionString, chunkIndex: nat): ChunkKind
    requires chunkIndex < NumCompletionChunks(cs)
  {
    cs.chunks[chunkIndex].kind
  }

  /** clang_getCompletionChunkText */
  function CompletionChunkText(cs: CompletionString, chunkIndex: nat): string
    requires chunkIndex < NumCompletionChunks(cs)
  {
    cs.chunks[chunkIndex].text
  }

  /** clang_getCompletionChunkCompletionString: the nested string of an Optional
      chunk, the null handle for every other kind. */
  function CompletionChunkCompletionString(cs: CompletionString, chunkIndex: nat): CompletionString
    requires chunkIndex < NumCompletionChunks(cs)
  {
    var chunk := cs.chunks[chunkIndex];
    if chunk.kind == Optional then chunk.completionString else Null
  }

  /** The chunks of a handle as a sequence (none for the null handle). */
  function Chunks(cs: CompletionString): (s: seq<NativeChunk>)
    ensures |s| == NumCompletionChunks(cs)
  {
    if cs.Null? then [] else cs.chunks
  }

  /** The completion string whose chunks are those of `a` followed by those of `b`. */
  function Concat(a: CompletionString, b: CompletionString): CompletionString
  {
    CompletionString(Chunks(a) + Chunks(b))
  }
}
