// The helpers of the clang code-completion test harness: the IPC sender double
// that records every command it is given, the lookups the tests run over a
// completion proposal, and the search for the cursor marker in a test file.

module ClangCodeCompletionTest {
  import opened Wrappers
  import opened IpcLog

  /** compare(): whether the recorded log is the expected one. The diagnostic
      printing done on a mismatch is not modelled. */
  function Compare(actual: string, expected: string): (isEqual: bool)
    ensures isEqual <==> actual == expected
  {
    actual == expected
  }

  // ---------------------------------------------------------------------------
  // IpcSenderSpy

  /** The test double for the IPC sender: each send appends the command's text
      to `senderLog`. `sent` is the sequence of commands received since the log
      was last cleared. */
  class IpcSenderSpy {
    const fileName: string -> string
    var senderLog: string
    ghost var sent: seq<Command>

    ghost predicate Valid()
      reads this
    {
      senderLog == Log(fileName, sent)
    }

    constructor(fileName: string -> string)
      ensures Valid()
      ensures this.fileName == fileName && senderLog == "" && sent == []
    {
      this.fileName := fileName;
      senderLog := "";
      sent := [];
    }

    method End()
      requires Valid()
      modifies this
      ensures Valid()
      ensures sent == old(sent) + [EndCommand]
      ensures senderLog == old(senderLog) + ToString(fileName, EndCommand)
    {
      LogAppend(fileName, sent, EndCommand);
      senderLog := senderLog + ToString(fileName, EndCommand);
      sent := sent + [EndCommand];
    }

    method RegisterTranslationUnitsForCodeCompletion(command: Command)
      requires Valid()
      requires command.RegisterTranslationUnitForCodeCompletionCommand?
      modifies this
      ensures Valid()
      ensures sent == old(sent) + [command]
      ensures senderLog == old(senderLog) + ToString(fileName, command)
    {
      LogAppend(fileName, sent, command);
      senderLog := senderLog + ToString(fileName, command);
      sent := sent + [command];
    }

    method UnregisterTranslationUnitsForCodeCompletion(command: Command)
      requires Valid()
      requires command.UnregisterTranslationUnitsForCodeCompletionCommand?
      modifies this
      ensures Valid()
      ensures sent == old(sent) + [command]
      ensures senderLog == old(senderLog) + ToString(fileName, command)
    {
      LogAppend(fileName, sent, command);
      senderLog := senderLog + ToString(fileName, command);
      sent := sent + [command];
    }

    method RegisterProjectPartsForCodeCompletion(command: Command)
      requires Valid()
      requires command.RegisterProjectPartsForCodeCompletionCommand?
      modifies this
      ensures Valid()
      ensures sent == old(sent) + [command]
      ensures senderLog == old(senderLog) + ToString(fileName, command)
    {
      LogAppend(fileName, sent, command);
      senderLog := senderLog + ToString(fileName, command);
      sent := sent + [command];
    }

    method UnregisterProjectPartsForCodeCompletion(command: Command)
      requires Valid()
      requires command.UnregisterProjectPartsForCodeCompletionCommand?
      modifies this
      ensures Valid()
      ensures sent == old(sent) + [command]
      ensures senderLog == old(senderLog) + ToString(fileName, command)
    {
      LogAppend(fileName, sent, command);
      senderLog := senderLog + ToString(fileName, command);
      sent := sent + [command];
    }

    method CompleteCode(command: Command)
      requires Valid()
      requires command.CompleteCodeCommand?
      modifies this
      ensures Valid()
      ensures sent == old(sent) + [command]
      ensures senderLog == old(senderLog) + ToString(fileName, command)
    {
      LogAppend(fileName, sent, command);
      senderLog := senderLog + ToString(fileName, command);
      sent := sent + [command];
    }

    /** senderLog.clear() */
    method ClearSenderLog()
      modifies this
      ensures Valid()
      ensures senderLog == "" && sent == []
    {
      senderLog := "";
      sent := [];
    }
  }

  /** The two checks of the backend-restart test. With the project file, an
      unsaved header outside the project and the generated UI header registered,
      the spy's log is exactly the six lines the test expects. After the log is
      cleared and the restarted backend is sent an empty project part followed by
      the same three registrations, the log is exactly the eight lines expected
      then. */
  method BackendRestartScenario(fileName: string -> string, projectFilePath: string,
                                headerPath: string, uiHeaderPath: string)
    returns (registrationMatches: bool, reinitializationMatches: bool)
    requires fileName(projectFilePath) == "qt-widgets-app.pro"
    requires fileName(headerPath) == "myheader.h"
    requires fileName(uiHeaderPath) == "ui_mainwindow.h"
    requires fileName("") == ""
    ensures registrationMatches && reinitializationMatches
  {
    var spy := new IpcSenderSpy(fileName);
    var registerProject := RegisterProjectPartsForCodeCompletionCommand([ProjectPartContainer(projectFilePath)]);
    var registerHeader := RegisterTranslationUnitForCodeCompletionCommand([FileContainer(headerPath, "")]);
    var registerUiHeader := RegisterTranslationUnitForCodeCompletionCommand([FileContainer(uiHeaderPath, "")]);
    spy.RegisterProjectPartsForCodeCompletion(registerProject);
    spy.RegisterTranslationUnitsForCodeCompletion(registerHeader);
    spy.RegisterTranslationUnitsForCodeCompletion(registerUiHeader);

    RegistrationLog(fileName, projectFilePath, headerPath, uiHeaderPath);
    registrationMatches := Compare(spy.senderLog, ExpectedRegistrationLog);
    spy.ClearSenderLog();

    var registerEmptyProject := RegisterProjectPartsForCodeCompletionCommand([ProjectPartContainer("")]);
    spy.RegisterProjectPartsForCodeCompletion(registerEmptyProject);
    spy.RegisterProjectPartsForCodeCompletion(registerProject);
    spy.RegisterTranslationUnitsForCodeCompletion(registerHeader);
    spy.RegisterTranslationUnitsForCodeCompletion(registerUiHeader);

    ReinitializationLog(fileName, projectFilePath, headerPath, uiHeaderPath);
    reinitializationMatches := Compare(spy.senderLog, ExpectedReinitializationLog);
  }

  /** The log the backend-restart test expects after the initial registrations. */
  const ExpectedRegistrationLog :=
    "RegisterProjectPartsForCodeCompletionCommand\n"
    + "  ProjectPartContainer id: qt-widgets-app.pro\n"
    + "RegisterTranslationUnitForCodeCompletionCommand\n"
    + "  Path: myheader.h ProjectPart: \n"
    + "RegisterTranslationUnitForCodeCompletionCommand\n"
    + "  Path: ui_mainwindow.h ProjectPart: \n"

  /** The log the backend-restart test expects once the backend is reinitialized. */
  const ExpectedReinitializationLog :=
    "RegisterProjectPartsForCodeCompletionCommand\n"
    + "  ProjectPartContainer id: \n"
    + ExpectedRegistrationLog

  /** Registering the project, then the header, then the UI header, in that order,
      records exactly the expected log. */
  lemma RegistrationLog(fileName: string -> string, projectFilePath: string, headerPath: string, uiHeaderPath: string)
    requires fileName(projectFilePath) == "qt-widgets-app.pro"
    requires fileName(headerPath) == "myheader.h"
    requires fileName(uiHeaderPath) == "ui_mainwindow.h"
    requires fileName("") == ""
    ensures ""
      + ToString(fileName, RegisterProjectPartsForCodeCompletionCommand([ProjectPartContainer(projectFilePath)]))
      + ToString(fileName, RegisterTranslationUnitForCodeCompletionCommand([FileContainer(headerPath, "")]))
      + ToString(fileName, RegisterTranslationUnitForCodeCompletionCommand([FileContainer(uiHeaderPath, "")]))
      == ExpectedRegistrationLog
  {
    var c1 := RegisterProjectPartsForCodeCompletionCommand([ProjectPartContainer(projectFilePath)]);
    var c2 := RegisterTranslationUnitForCodeCompletionCommand([FileContainer(headerPath, "")]);
    var c3 := RegisterTranslationUnitForCodeCompletionCommand([FileContainer(uiHeaderPath, "")]);
    RegisterProjectPartsExample(fileName, projectFilePath, "qt-widgets-app.pro");
    RegisterTranslationUnitExample(fileName, headerPath, "myheader.h");
    RegisterTranslationUnitExample(fileName, uiHeaderPath, "ui_mainwindow.h");
    ProjectPathLine();
    HeaderPathLine();
    UiHeaderPathLine();
    Regroup(ToString(fileName, c1), ToString(fileName, c2), ToString(fileName, c3),
      "RegisterProjectPartsForCodeCompletionCommand\n", "  ProjectPartContainer id: qt-widgets-app.pro\n",
      "RegisterTranslationUnitForCodeCompletionCommand\n", "  Path: myheader.h ProjectPart: \n",
      "RegisterTranslationUnitForCodeCompletionCommand\n", "  Path: ui_mainwindow.h ProjectPart: \n");
  }

  /** Registering an empty project part ahead of the same three registrations
      records exactly the log expected after the restart. */
  lemma ReinitializationLog(fileName: string -> string, projectFilePath: string, headerPath: string, uiHeaderPath: string)
    requires fileName(projectFilePath) == "qt-widgets-app.pro"
    requires fileName(headerPath) == "myheader.h"
    requires fileName(uiHeaderPath) == "ui_mainwindow.h"
    requires fileName("") == ""
    ensures ""
      + ToString(fileName, RegisterProjectPartsForCodeCompletionCommand([ProjectPartContainer("")]))
      + ToString(fileName, RegisterProjectPartsForCodeCompletionCommand([ProjectPartContainer(projectFilePath)]))
      + ToString(fileName, RegisterTranslationUnitForCodeCompletionCommand([FileContainer(headerPath, "")]))
      + ToString(fileName, RegisterTranslationUnitForCodeCompletionCommand([FileContainer(uiHeaderPath, "")]))
      == ExpectedReinitializationLog
  {
    var c0 := RegisterProjectPartsForCodeCompletionCommand([ProjectPartContainer("")]);
    var c1 := RegisterProjectPartsForCodeCompletionCommand([ProjectPartContainer(projectFilePath)]);
    var c2 := RegisterTranslationUnitForCodeCompletionCommand([FileContainer(headerPath, "")]);
    var c3 := RegisterTranslationUnitForCodeCompletionCommand([FileContainer(uiHeaderPath, "")]);
    RegistrationLog(fileName, projectFilePath, headerPath, uiHeaderPath);
    RegisterProjectPartsExample(fileName, "", "");
    EmptyProjectPathLine();
    Prepend(ToString(fileName, c0), ToString(fileName, c1), ToString(fileName, c2), ToString(fileName, c3),
      "RegisterProjectPartsForCodeCompletionCommand\n", "  ProjectPartContainer id: \n", ExpectedRegistrationLog);
  }

  // ---------------------------------------------------------------------------
  // Proposal lookups

  /** One completion proposal item; `data` is its payload as text. */
  datatype ProposalItem = ProposalItem(text: string, data: string)

  /** A proposal model, or None for a null model pointer. */
  type ProposalModel = Option<seq<ProposalItem>>

  /** hasItem: whether some item of a non-null model has exactly `text`. */
  method HasItem(model: ProposalModel, text: string) returns (found: bool)
    ensures found <==> model.Some? && exists i :: 0 <= i < |model.value| && model.value[i].text == text
  {
    if model.None? {
      return false;
    }
    var items := model.value;
    var i, size := 0, |items|;
    while i < size
      invariant 0 <= i <= size
      invariant forall j :: 0 <= j < i ==> items[j].text != text
    {
      if items[i].text == text {
        return true;
      }
      i := i + 1;
    }
    return false;
  }

  /** hasSnippet: the first item whose text is `text` followed by a space decides,
      by whether its data contains '$'; later items with that text are ignored. */
  method HasSnippet(model: ProposalModel, text: string) returns (isSnippet: bool)
    ensures isSnippet <==> model.Some? && exists i ::
      && 0 <= i < |model.value|
      && model.value[i].text == text + " "
      && (forall j :: 0 <= j < i ==> model.value[j].text != text + " ")
      && '$' in model.value[i].data
  {
    if model.None? {
      return false;
    }
    var snippetText := text + " ";
    var items := model.value;
    var i, size := 0, |items|;
    while i < size
      invariant 0 <= i <= size
      invariant forall j :: 0 <= j < i ==> items[j].text != snippetText
    {
      if items[i].text == snippetText {
        return '$' in items[i].data;
      }
      i := i + 1;
    }
    return false;
  }

  // ---------------------------------------------------------------------------
  // Cursor marker

  const CursorMarker := " /* COMPLETE HERE */"

  predicate OccursAt(s: string, pattern: string, k: int)
  {
    0 <= k && k + |pattern| <= |s| && s[k..k + |pattern|] == pattern
  }

  /** The first occurrence of `pattern` in `s` at or after `from`, or -1. */
  function IndexOfFrom(s: string, pattern: string, from: nat): (r: int)
    requires from <= |s|
    ensures r == -1 || (from <= r && OccursAt(s, pattern, r))
    ensures r == -1 ==> forall k :: from <= k ==> !OccursAt(s, pattern, k)
    ensures r != -1 ==> forall k :: from <= k < r ==> !OccursAt(s, pattern, k)
    decreases |s| - from
  {
    if from + |pattern| > |s| then -1
    else if s[from..from + |pattern|] == pattern then from
    else if from == |s| then -1
    else IndexOfFrom(s, pattern, from + 1)
  }

  /** QByteArray::indexOf: the first occurrence of `pattern` in `s`, or -1. */
  function IndexOf(s: string, pattern: string): (r: int)
    ensures r == -1 <==> forall k :: !OccursAt(s, pattern, k)
    ensures r != -1 ==> OccursAt(s, pattern, r) && forall k :: 0 <= k < r ==> !OccursAt(s, pattern, k)
  {
    IndexOfFrom(s, pattern, 0)
  }

  /** The offset of the first cursor marker in a test file's contents, or -1. */
  function FindCursorMarkerPosition(contents: string): (position: int)
    ensures position == -1 <==> forall k :: !OccursAt(contents, CursorMarker, k)
    ensures position != -1 ==>
      OccursAt(contents, CursorMarker, position) && forall k :: 0 <= k < position ==> !OccursAt(contents, CursorMarker, k)
  {
    IndexOf(contents, CursorMarker)
  }

  /** A test document: the path it was written to ("" if none) and the cursor
      offset (-1 if none). */
  datatype TestDocument = TestDocument(filePath: string, cursorPosition: int)
  {
    /** Created: the document was written to a file. */
    function IsCreated(): (created: bool)
      ensures created <==> |filePath| > 0
    {
      filePath != ""
    }

    /** The cursor marker was found in the document's contents. */
    function HasValidCursorPosition(): (valid: bool)
      ensures valid <==> cursorPosition >= 0
    {
      cursorPosition >= 0
    }

    function IsCreatedAndHasValidCursorPosition(): (usable: bool)
      ensures usable <==> filePath != "" && cursorPosition >= 0
    {
      IsCreated() && HasValidCursorPosition()
    }
  }

  /** The TestDocument constructor: a document built from the test resource
      `fileName`. `resource` is the resource's contents (None when it does not
      exist) and `createdPath` the path the temporary directory wrote them to
      ("" when writing failed). The cursor is placed whenever the contents were
      read; the file is only written when they are not empty. */
  function FromResource(fileName: string, resource: Option<string>, createdPath: string): (d: TestDocument)
    ensures d.HasValidCursorPosition()
      <==> fileName != "" && resource.Some? && exists k :: OccursAt(resource.value, CursorMarker, k)
    ensures d.IsCreated() <==> fileName != "" && resource.Some? && resource.value != "" && createdPath != ""
    ensures d.IsCreatedAndHasValidCursorPosition()
      <==> fileName != "" && resource.Some? && createdPath != "" && exists k :: OccursAt(resource.value, CursorMarker, k)
    ensures fileName == "" || resource.None? ==> d == TestDocument("", -1)
    ensures fileName != "" && resource.Some? ==> d.cursorPosition == FindCursorMarkerPosition(resource.value)
    ensures d.IsCreated() ==> d.filePath == createdPath
  {
    if fileName == "" || resource.None? then TestDocument("", -1)
    else
      var contents := resource.value;
      var cursorPosition := FindCursorMarkerPosition(contents);
      if contents != "" then TestDocument(createdPath, cursorPosition)
      else TestDocument("", cursorPosition)
  }

  /** fromExistingFile: a document for a file already on disk, whose contents are
      `contents` (empty when the file cannot be read). It is usable by a
      completion test exactly when the path is not empty and the contents hold
      the marker. */
  function FromExistingFile(filePath: string, contents: string): (d: TestDocument)
    ensures d.IsCreated() <==> filePath != ""
    ensures d.HasValidCursorPosition() <==> filePath != "" && exists k :: OccursAt(contents, CursorMarker, k)
    ensures d.IsCreatedAndHasValidCursorPosition()
      <==> filePath != "" && exists k :: OccursAt(contents, CursorMarker, k)
    ensures filePath == "" ==> d == TestDocument("", -1)
    ensures filePath != "" ==> d == TestDocument(filePath, FindCursorMarkerPosition(contents))
  {
    if filePath == "" then TestDocument("", -1)
    else TestDocument(filePath, FindCursorMarkerPosition(contents))
  }

  // ---------------------------------------------------------------------------
  // Proof helpers: regrouping of concatenations and facts about string literals, kept apart so that each is checked on its own.

  lemma Regroup(t1: string, t2: string, t3: string, a: string, b: string, c: string, d: string, e: string, f: string)
    requires t1 == a + b && t2 == c + d && t3 == e + f
    ensures "" + t1 + t2 + t3 == a + b + c + d + e + f
  {
    assert "" + t1 == t1;
  }

  lemma Prepend(t0: string, t1: string, t2: string, t3: string, a: string, b: string, rest: string)
    requires t0 == a + b && "" + t1 + t2 + t3 == rest
    ensures "" + t0 + t1 + t2 + t3 == a + b + rest
  {
    assert "" + t0 == t0 && "" + t1 == t1;
  }

  lemma ProjectPathLine()
    ensures "  ProjectPartContainer id: " + "qt-widgets-app.pro" + "\n" == "  ProjectPartContainer id: qt-widgets-app.pro\n"
  {
  }

  lemma EmptyProjectPathLine()
    ensures "  ProjectPartContainer id: " + "" + "\n" == "  ProjectPartContainer id: \n"
  {
  }

  lemma HeaderPathLine()
    ensures "  Path: " + "myheader.h" + " ProjectPart: \n" == "  Path: myheader.h ProjectPart: \n"
  {
  }

  lemma UiHeaderPathLine()
    ensures "  Path: " + "ui_mainwindow.h" + " ProjectPart: \n" == "  Path: ui_mainwindow.h ProjectPart: \n"
  {
  }
}
