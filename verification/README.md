# Clang code-completion chunks and the completion test harness

This project models two pieces of Qt Creator's clang code model.

**The chunk converter of the clang backend** (`ClangBackEnd::CodeCompletionChunkConverter`).
libclang describes one completion proposal as a *completion string*: a sequence of
chunks, each with a kind (typed text, placeholder, parenthesis, ...) and a text. A
chunk of kind Optional carries a nested completion string of its own, for example
the defaulted trailing parameters of a function. The converter turns this into
Qt Creator's `CodeCompletionChunk` vector in two ways:

- `extract` is the structured traversal. It yields one chunk per top-level
  index. An Optional chunk keeps its text and nests the flat conversion of its
  optional group.
- the optional-group conversion is the flat traversal. It walks nested groups
  recursively and splices their chunks in place of the Optional chunk. It drops
  the Optional chunk itself.

The native completion string is modelled as a finite tree (`LibClang`), with a
`Null` handle that has no chunks. The two traversals are specified by recursive
functions (`CompletionChunks`). The converter class keeps its `chunks` vector as a
field that its loop-based methods append to. Each method is proved to produce
exactly the specifying function's result (`ClangBackEnd`).

**The IPC recording helpers of the clang code-completion test**
(`clangcodecompletion_test.cpp`):

- the text form the test gives each IPC command (`IpcLog`);
- the `IpcSenderSpy` that appends that text to its log for every command it is sent;
- the two checks of the backend-restart test;
- the proposal lookups `hasItem` and `hasSnippet`;
- the search for the ` /* COMPLETE HERE */` cursor marker, and the predicates on
  the resulting test document (`ClangCodeCompletionTest`).

`QFileInfo(path).fileName()` is passed as an uninterpreted function `fileName`.
Facts about particular files, such as `fileName(projectFilePath) ==
"qt-widgets-app.pro"`, are preconditions.

Files:

- `libclang.dfy`: the libclang accessors.
- `completion_chunks.dfy`: the chunk datatype, the traversal functions and their lemmas.
- `chunk_converter.dfy`: the converter class.
- `ipc_log.dfy`: the commands and their serialisation.
- `completion_test.dfy`: the spy, the scenario, the lookups and the cursor marker.
- `wrappers.dfy`: `Option`.

## Model

| member | source | states |
|---|---|---|
| ClangBackEnd.CodeCompletionChunkConverter.constructor | src/tools/clangbackend/ipcsource/codecompletionchunkconverter.cpp:76 | a new converter holds no chunks |
| ClangBackEnd.CodeCompletionChunkConverter.ExtractCompletionChunks | src/tools/clangbackend/ipcsource/codecompletionchunkconverter.cpp:37-53 | appends exactly the structured conversion of the string to the chunks already held (loop invariant: the structured conversion of the indices visited so far) |
| ClangBackEnd.CodeCompletionChunkConverter.ExtractOptionalCompletionChunks | src/tools/clangbackend/ipcsource/codecompletionchunkconverter.cpp:55-67 | appends exactly the flat conversion of the string, recursing into every nested Optional group in place |
| ClangBackEnd.CodeCompletionChunkConverter.Extract | src/tools/clangbackend/ipcsource/codecompletionchunkconverter.cpp:74-81 | a fresh converter returns the structured conversion: one chunk per native index, and nothing nested inside an Optional chunk is itself Optional or nests anything |
| ClangBackEnd.CodeCompletionChunkConverter.OptionalChunks | src/tools/clangbackend/ipcsource/codecompletionchunkconverter.cpp:88-95 | returns the flat conversion of chunk `chunkIndex`'s nested string; no chunk of it is Optional or nests anything |
| ClangBackEnd.CodeCompletionChunkConverter.ChunkKind | src/tools/clangbackend/ipcsource/codecompletionchunkconverter.cpp:69-72 | the kind of the native chunk at that index, passed on unchanged |
| ClangBackEnd.CodeCompletionChunkConverter.ChunkText | src/tools/clangbackend/ipcsource/codecompletionchunkconverter.cpp:83-86 | the text of the native chunk at that index, passed on unchanged |
| CompletionChunks.Flat | src/tools/clangbackend/ipcsource/codecompletionchunkconverter.cpp:55-67 | the reference for the flat traversal: every chunk of it is plain, neither Optional nor nesting anything |
| CompletionChunks.Structured | src/tools/clangbackend/ipcsource/codecompletionchunkconverter.cpp:37-53 | the reference for the structured traversal: exactly one chunk per native index |
| CompletionChunks.FlatPrefix | src/tools/clangbackend/ipcsource/codecompletionchunkconverter.cpp:55-67 | the flat conversion never contains an Optional chunk or a chunk with nested chunks, at any depth, proved by mutual induction with `FlatChunk` |
| CompletionChunks.StructuredShape | src/tools/clangbackend/ipcsource/codecompletionchunkconverter.cpp:42-52 | structured conversion has one chunk per index with that index's kind and text. An Optional chunk nests the flat conversion of its group. Every other kind nests nothing. |
| CompletionChunks.StructuredNestsOneLevel | src/tools/clangbackend/ipcsource/codecompletionchunkconverter.cpp:45-48 | the chunks nested in a structured result are all plain: nesting is at most one level deep |
| CompletionChunks.NullHandleIsEmpty | src/tools/clangbackend/ipcsource/codecompletionchunkconverter.cpp:39 | a null completion string converts to no chunks in either traversal |
| CompletionChunks.FlatLength | src/tools/clangbackend/ipcsource/codecompletionchunkconverter.cpp:59-66 | the flat conversion has exactly one chunk per non-Optional chunk of the whole tree |
| CompletionChunks.FlatPrefixAgree | src/tools/clangbackend/ipcsource/codecompletionchunkconverter.cpp:59-66 | converting the first n chunks only reads those n chunks |
| CompletionChunks.FlatConcat | src/tools/clangbackend/ipcsource/codecompletionchunkconverter.cpp:59-66 | flat conversion of two strings placed one after the other is the concatenation of their flat conversions |
| CompletionChunks.OptionalChunkPlacement | src/tools/clangbackend/ipcsource/codecompletionchunkconverter.cpp:45-48 | an Optional chunk at position p stays a single Optional chunk at p in the structured result. In the flat result its group is spliced between what precedes and what follows it, and its own text is dropped. |
| CompletionChunks.FlatIsStructuredIff | src/tools/clangbackend/ipcsource/codecompletionchunkconverter.cpp:37-67 | the two traversals give the same vector if and only if no top-level chunk is Optional |
| IpcLog.FileContainerToString | src/plugins/clangcodemodel/test/clangcodecompletion_test.cpp:264-271 | a file container is one line: the text ends with its only newline when the names hold none |
| IpcLog.FileContainersToString | src/plugins/clangcodemodel/test/clangcodecompletion_test.cpp:273-280 | empty exactly for no containers; otherwise it ends with a newline |
| IpcLog.ProjectPartContainerToString | src/plugins/clangcodemodel/test/clangcodecompletion_test.cpp:282-289 | 27 characters plus the id's file name, with a newline only if that name has one: the text is not line-terminated |
| IpcLog.ProjectPartContainersToString | src/plugins/clangcodemodel/test/clangcodecompletion_test.cpp:291-298 | empty exactly for no containers |
| IpcLog.Join | src/plugins/clangcodemodel/test/clangcodecompletion_test.cpp:338 | for n >= 1 ids, the joined text is their total length plus n - 1 separators; no ids give the empty text |
| IpcLog.ToString | src/plugins/clangcodemodel/test/clangcodecompletion_test.cpp:300-345 | every command's text starts with its header line and ends with a newline |
| IpcLog.Payload | src/plugins/clangcodemodel/test/clangcodecompletion_test.cpp:300-345 | End, UnregisterTranslationUnits and CompleteCode add nothing; both project-part commands add something; whatever is added ends with a newline |
| IpcLog.Log | src/plugins/clangcodemodel/test/clangcodecompletion_test.cpp:347-370 | the log is empty exactly when no command was recorded, and otherwise ends with a newline |
| IpcLog.CommandKindReadBack | src/plugins/clangcodemodel/test/clangcodecompletion_test.cpp:300-345 | the first line of every recorded command names its kind, and the kind is recovered from it uniquely |
| IpcLog.CommandNamesDistinct | src/plugins/clangcodemodel/test/clangcodecompletion_test.cpp:300-345 | different command kinds have different header lines |
| IpcLog.PayloadIgnored | src/plugins/clangcodemodel/test/clangcodecompletion_test.cpp:300-345 | End, UnregisterTranslationUnits and CompleteCode record only their header line, whatever their contents |
| IpcLog.FileContainersConcat | src/plugins/clangcodemodel/test/clangcodecompletion_test.cpp:273-280 | a list of file containers is recorded as the in-order concatenation of its entries |
| IpcLog.FileContainersLines | src/plugins/clangcodemodel/test/clangcodecompletion_test.cpp:264-280 | each file container takes exactly one line when its names hold no newline |
| IpcLog.ProjectPartContainersConcat | src/plugins/clangcodemodel/test/clangcodecompletion_test.cpp:291-298 | a list of project-part containers is recorded as the in-order concatenation of its entries, with no separator between them |
| IpcLog.ProjectPartContainersNoNewline | src/plugins/clangcodemodel/test/clangcodecompletion_test.cpp:282-298 | the project-part container text contains no newline at all |
| IpcLog.RegisterTranslationUnitLines | src/plugins/clangcodemodel/test/clangcodecompletion_test.cpp:305-315 | a RegisterTranslationUnit command takes 1 + (number of file containers) lines |
| IpcLog.RegisterProjectPartsLines | src/plugins/clangcodemodel/test/clangcodecompletion_test.cpp:322-330 | a RegisterProjectParts command always takes exactly two lines: all its containers share the second |
| IpcLog.RegisterProjectPartsExample | src/plugins/clangcodemodel/test/clangcodecompletion_test.cpp:282-330 | one project part registers as its header line plus `  ProjectPartContainer id: <name>` and a newline |
| IpcLog.RegisterTranslationUnitExample | src/plugins/clangcodemodel/test/clangcodecompletion_test.cpp:264-315 | one file outside any project registers as its header line plus `  Path: <name> ProjectPart: ` and a newline |
| IpcLog.SplitJoin | src/plugins/clangcodemodel/test/clangcodecompletion_test.cpp:332-340 | joining comma-free ids with ',' is undone by splitting at ',' |
| IpcLog.UnregisterProjectPartsReadBack | src/plugins/clangcodemodel/test/clangcodecompletion_test.cpp:332-340 | an UnregisterProjectParts text is its header, the comma-joined ids and a newline, and the ids are read back from it |
| IpcLog.LogConcat | src/plugins/clangcodemodel/test/clangcodecompletion_test.cpp:347-370 | the log of two batches of commands is the concatenation of their logs |
| IpcLog.LogAppend | src/plugins/clangcodemodel/test/clangcodecompletion_test.cpp:347-370 | recording one more command appends exactly its text to the log |
| ClangCodeCompletionTest.Compare | src/plugins/clangcodemodel/test/clangcodecompletion_test.cpp:146-152 | true exactly when the recorded log equals the expected one |
| ClangCodeCompletionTest.IpcSenderSpy.constructor | src/plugins/clangcodemodel/test/clangcodecompletion_test.cpp:347-370 | a new spy has an empty log, which is the log of no commands |
| ClangCodeCompletionTest.IpcSenderSpy.End | src/plugins/clangcodemodel/test/clangcodecompletion_test.cpp:350-351 | appends the End text to the log and keeps the log equal to the log of every command received |
| ClangCodeCompletionTest.IpcSenderSpy.RegisterTranslationUnitsForCodeCompletion | src/plugins/clangcodemodel/test/clangcodecompletion_test.cpp:353-354 | appends the command's text and keeps the log equal to the log of every command received |
| ClangCodeCompletionTest.IpcSenderSpy.UnregisterTranslationUnitsForCodeCompletion | src/plugins/clangcodemodel/test/clangcodecompletion_test.cpp:356-357 | appends the command's text and keeps the log equal to the log of every command received |
| ClangCodeCompletionTest.IpcSenderSpy.RegisterProjectPartsForCodeCompletion | src/plugins/clangcodemodel/test/clangcodecompletion_test.cpp:359-360 | appends the command's text and keeps the log equal to the log of every command received |
| ClangCodeCompletionTest.IpcSenderSpy.UnregisterProjectPartsForCodeCompletion | src/plugins/clangcodemodel/test/clangcodecompletion_test.cpp:362-363 | appends the command's text and keeps the log equal to the log of every command received |
| ClangCodeCompletionTest.IpcSenderSpy.CompleteCode | src/plugins/clangcodemodel/test/clangcodecompletion_test.cpp:365-366 | appends the command's text and keeps the log equal to the log of every command received |
| ClangCodeCompletionTest.IpcSenderSpy.ClearSenderLog | src/plugins/clangcodemodel/test/clangcodecompletion_test.cpp:1050 | clearing empties the log and restarts the record of commands |
| ClangCodeCompletionTest.BackendRestartScenario | src/plugins/clangcodemodel/test/clangcodecompletion_test.cpp:1040-1070 | with the three registrations sent, both `compare` checks of the restart test succeed: the six-line log, then the eight-line log after clearing and re-registration |
| ClangCodeCompletionTest.RegistrationLog | src/plugins/clangcodemodel/test/clangcodecompletion_test.cpp:1041-1049 | the texts of the project, header and UI-header registrations, in that order, are exactly the six expected lines |
| ClangCodeCompletionTest.ReinitializationLog | src/plugins/clangcodemodel/test/clangcodecompletion_test.cpp:1060-1070 | an empty project part ahead of the same registrations records exactly the eight expected lines |
| ClangCodeCompletionTest.HasItem | src/plugins/clangcodemodel/test/clangcodecompletion_test.cpp:590-602 | true if and only if the model is not null and some item's text equals `text` |
| ClangCodeCompletionTest.HasSnippet | src/plugins/clangcodemodel/test/clangcodecompletion_test.cpp:604-621 | true if and only if the model is not null and the first item whose text is `text` plus a space has a '$' in its data |
| ClangCodeCompletionTest.IndexOfFrom | src/plugins/clangcodemodel/test/clangcodecompletion_test.cpp:448-451 | the first occurrence at or after `from`, or -1 exactly when there is none there |
| ClangCodeCompletionTest.IndexOf | src/plugins/clangcodemodel/test/clangcodecompletion_test.cpp:448-451 | -1 if and only if the pattern does not occur; otherwise the first position where it occurs |
| ClangCodeCompletionTest.FindCursorMarkerPosition | src/plugins/clangcodemodel/test/clangcodecompletion_test.cpp:448-451 | -1 if and only if the contents hold no cursor marker; otherwise the offset of the first marker |
| ClangCodeCompletionTest.TestDocument.IsCreated | src/plugins/clangcodemodel/test/clangcodecompletion_test.cpp:453 | a document is created exactly when its path is not empty |
| ClangCodeCompletionTest.TestDocument.HasValidCursorPosition | src/plugins/clangcodemodel/test/clangcodecompletion_test.cpp:454 | the cursor is valid exactly when its offset is not negative |
| ClangCodeCompletionTest.TestDocument.IsCreatedAndHasValidCursorPosition | src/plugins/clangcodemodel/test/clangcodecompletion_test.cpp:455-456 | usable exactly when the path is not empty and the cursor offset is not negative |
| ClangCodeCompletionTest.FromResource | src/plugins/clangcodemodel/test/clangcodecompletion_test.cpp:420-437 | an empty name or a missing resource gives the default document (no path, cursor -1). Otherwise the cursor is the first marker offset in the contents, so it is valid if and only if the contents hold the marker. The document is created, with the written path, if and only if the contents are non-empty and were written. |
| ClangCodeCompletionTest.FromExistingFile | src/plugins/clangcodemodel/test/clangcodecompletion_test.cpp:439-446 | an empty path gives the default document (no path, cursor -1). Otherwise the document has that path and the first marker offset in the contents as its cursor, so it is usable by a completion test if and only if the file holds the marker. |

## Left out

- The libclang library is not part of this model. The completion string is a finite tree, and its accessors read that tree.
- The kind conversion reads libclang's kind unchanged. This matches the enumeration-value cast in the converter. The `CodeCompletionChunk` header is not part of this model.
- `chunks.reserve` and the `uint` width of the chunk count and index are not modelled. Their only effect is on capacity, and counts are unbounded here.
- Some parts of the commands are not serialised by the recorder, so they are not modelled:
  - a file container's unsaved content, document revision and arguments;
  - a project part's arguments.
- `fileName` (`QFileInfo::fileName`) is an uninterpreted parameter. Only the facts each lemma needs about it are assumed, as preconditions.
- `printDifference`, the diagnostic printed by `compare` on a mismatch, is left out because it only writes output. `Compare` only returns whether the texts are equal.
- The following are I/O, timing or editor machinery and are left out:
  - the editor, the project manager and the temporary directories;
  - the UI-file monitor;
  - the asynchronous completion wait;
  - `readFile` and `QResource`.
  `FromResource` and `FromExistingFile` take the contents read, and the path written, as parameters.
- The restart of the backend process is left out, and so is the IPC communicator. In the test, the communicator sends the initial registrations when the header, the project and the UI header are opened, and re-sends them after the restart. `BackendRestartScenario` sends both rounds of registrations, the initial three and the four after the restart, directly to the spy.
- FindCursorMarkerPosition: the C++ test searches a byte array, so its result is a byte offset. Here `contents` holds one `char` per byte, and the result is not an offset in code points into decoded text.
- HasSnippet: a null proposal item, which the C++ test skips with a soft assertion, is not modelled. The items are values here.
- The `TestDocument` default constructor is not a separate member. Its state (empty path, cursor -1) is what `FromResource` and `FromExistingFile` return on their early exits.
- The text form of a `ProjectPartContainer` ends without a newline. Several containers registered in one command therefore run together on a single line; `IpcLog.RegisterProjectPartsLines` states this. The test only ever registers one container per command, so it is not listed as a defect.
