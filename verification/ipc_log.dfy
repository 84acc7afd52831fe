// The IPC commands an editor sends to the clang backend, and the text form the
// completion test harness gives each of them when it records what was sent.
// `fileName` stands for QFileInfo(path).fileName(), left uninterpreted: every
// serialiser takes it as a parameter.

module IpcLog {
  import opened Wrappers

  /** A tracked source file; its unsaved content is not part of the model. */
  datatype FileContainer = FileContainer(filePath: string, projectPartId: string)

  /** A compilation configuration; only its id is serialised. */
  datatype ProjectPartContainer = ProjectPartContainer(projectPartId: string)

  datatype Command =
    | EndCommand
    | RegisterTranslationUnitForCodeCompletionCommand(fileContainers: seq<FileContainer>)
    | UnregisterTranslationUnitsForCodeCompletionCommand(filePaths: seq<string>)
    | RegisterProjectPartsForCodeCompletionCommand(projectContainers: seq<ProjectPartContainer>)
    | UnregisterProjectPartsForCodeCompletionCommand(projectPartIds: seq<string>)
    | CompleteCodeCommand(filePath: string, line: nat, column: nat, projectPartId: string)

  datatype CommandKind =
    | End | RegisterTranslationUnits | UnregisterTranslationUnits
    | RegisterProjectParts | UnregisterProjectParts | CompleteCode

  function KindOf(command: Command): CommandKind
  {
    match command
    case EndCommand => End
    case RegisterTranslationUnitForCodeCompletionCommand(_) => RegisterTranslationUnits
    case UnregisterTranslationUnitsForCodeCompletionCommand(_) => UnregisterTranslationUnits
    case RegisterProjectPartsForCodeCompletionCommand(_) => RegisterProjectParts
    case UnregisterProjectPartsForCodeCompletionCommand(_) => UnregisterProjectParts
    case CompleteCodeCommand(_, _, _, _) => CompleteCode
  }

  /** The header line each command's text starts with (without its newline). */
  function CommandName(kind: CommandKind): string
  {
    match kind
    case End => "EndCommand"
    case RegisterTranslationUnits => "RegisterTranslationUnit" + ForCodeCompletion
    case UnregisterTranslationUnits => "UnregisterTranslationUnits" + ForCodeCompletion
    case RegisterProjectParts => "RegisterProjectParts" + ForCodeCompletion
    case UnregisterProjectParts => "UnregisterProjectParts" + ForCodeCompletion
    case CompleteCode => "CompleteCodeCommand"
  }

  /** The common ending of the registration headers. */
  const ForCodeCompletion := "ForCodeCompletionCommand"

  // ---------------------------------------------------------------------------
  // Serialisers

  /** One line per file container: its file name and its project part's name. */
  function FileContainerToString(fileName: string -> string, fileContainer: FileContainer): (line: string)
    ensures |line| > 0 && line[|line| - 1] == '\n'
    ensures '\n' !in fileName(fileContainer.filePath) && '\n' !in fileName(fileContainer.projectPartId)
      ==> '\n' !in line[..|line| - 1]
  {
    var path := "  Path: " + fileName(fileContainer.filePath);
    var projectPart := " ProjectPart: " + fileName(fileContainer.projectPartId);
    assert '\n' !in "  Path: " && '\n' !in " ProjectPart: ";
    assert (path + projectPart + "\n")[..|path + projectPart|] == path + projectPart;
    path + projectPart + "\n"
  }

  function FileContainersToString(fileName: string -> string, fileContainers: seq<FileContainer>): (text: string)
    ensures text == "" <==> fileContainers == []
    ensures fileContainers != [] ==> text[|text| - 1] == '\n'
  {
    if fileContainers == [] then ""
    else FileContainerToString(fileName, fileContainers[0]) + FileContainersToString(fileName, fileContainers[1..])
  }

  /** No newline: containers of one command run together on a single line. */
  function ProjectPartContainerToString(fileName: string -> string, container: ProjectPartContainer): (text: string)
    ensures |text| == 27 + |fileName(container.projectPartId)|
    ensures '\n' in text <==> '\n' in fileName(container.projectPartId)
  {
    assert '\n' !in "  ProjectPartContainer" && '\n' !in " id: ";
    "  ProjectPartContainer" + " id: " + fileName(container.projectPartId)
  }

  function ProjectPartContainersToString(fileName: string -> string, containers: seq<ProjectPartContainer>): (text: string)
    ensures text == "" <==> containers == []
  {
    if containers == [] then ""
    else ProjectPartContainerToString(fileName, containers[0]) + ProjectPartContainersToString(fileName, containers[1..])
  }

  /** The total length of `ids`. */
  function TotalLength(ids: seq<string>): nat
  {
    if ids == [] then 0 else |ids[0]| + TotalLength(ids[1..])
  }

  /** The ids joined with `separator` between consecutive ones. */
  function Join(ids: seq<string>, separator: char): (joined: string)
    ensures |ids| >= 1 ==> |joined| == TotalLength(ids) + |ids| - 1
    ensures |ids| == 0 ==> joined == ""
  {
    if |ids| == 0 then ""
    else if |ids| == 1 then ids[0]
    else ids[0] + [separator] + Join(ids[1..], separator)
  }

  /** The text the test harness records for one command: its header line, then
      what the command's own serialiser adds; it always ends with a newline. */
  function ToString(fileName: string -> string, command: Command): (text: string)
    ensures var header := CommandName(KindOf(command)) + "\n";
      |header| <= |text| && text[..|header|] == header
    ensures text[|text| - 1] == '\n'
  {
    var header := CommandName(KindOf(command)) + "\n";
    assert (header + Payload(fileName, command))[..|header|] == header;
    header + Payload(fileName, command)
  }

  /** End, UnregisterTranslationUnits and CompleteCode add nothing, whatever their
      payload; whatever is added ends with a newline. */
  function Payload(fileName: string -> string, command: Command): (payload: string)
    ensures (command.EndCommand? || command.UnregisterTranslationUnitsForCodeCompletionCommand?
             || command.CompleteCodeCommand?) ==> payload == ""
    ensures (command.RegisterProjectPartsForCodeCompletionCommand?
             || command.UnregisterProjectPartsForCodeCompletionCommand?) ==> payload != ""
    ensures payload != "" ==> payload[|payload| - 1] == '\n'
  {
    match command
    case EndCommand => ""
    case RegisterTranslationUnitForCodeCompletionCommand(fileContainers) =>
      FileContainersToString(fileName, fileContainers)
    case UnregisterTranslationUnitsForCodeCompletionCommand(_) => ""
    case RegisterProjectPartsForCodeCompletionCommand(projectContainers) =>
      ProjectPartContainersToString(fileName, projectContainers) + "\n"
    case UnregisterProjectPartsForCodeCompletionCommand(projectPartIds) =>
      Join(projectPartIds, ',') + "\n"
    case CompleteCodeCommand(_, _, _, _) => ""
  }

  /** The texts of `commands`, in order, with nothing between them. */
  function Log(fileName: string -> string, commands: seq<Command>): (log: string)
    ensures log == "" <==> commands == []
    ensures commands != [] ==> log[|log| - 1] == '\n'
  {
    if commands == [] then ""
    else ToString(fileName, commands[0]) + Log(fileName, commands[1..])
  }

  // ---------------------------------------------------------------------------
  // Reading a log back

  /** The text before the first newline (all of it if there is none). */
  function FirstLine(s: string): string
  {
    if s == [] || s[0] == '\n' then "" else [s[0]] + FirstLine(s[1..])
  }

  /** The kind whose header equals `line`, if any. */
  function KindNamed(line: string): (r: Option<CommandKind>)
    ensures r.Some? ==> CommandName(r.value) == line
  {
    if line == CommandName(End) then Some(End)
    else if line == CommandName(RegisterTranslationUnits) then Some(RegisterTranslationUnits)
    else if line == CommandName(UnregisterTranslationUnits) then Some(UnregisterTranslationUnits)
    else if line == CommandName(RegisterProjectParts) then Some(RegisterProjectParts)
    else if line == CommandName(UnregisterProjectParts) then Some(UnregisterProjectParts)
    else if line == CommandName(CompleteCode) then Some(CompleteCode)
    else None
  }

  /** The text up to each `separator`, and after the last one. */
  function Split(s: string, separator: char): (parts: seq<string>)
    ensures |parts| >= 1
  {
    if s == [] then [""]
    else
      var rest := Split(s[1..], separator);
      if s[0] == separator then [""] + rest
      else [[s[0]] + rest[0]] + rest[1..]
  }

  /** Number of newlines in `s`. */
  function Lines(s: string): nat
  {
    if s == [] then 0 else (if s[0] == '\n' then 1 else 0) + Lines(s[1..])
  }

  // ---------------------------------------------------------------------------
  // Properties

  lemma {:induction false} FirstLineOf(line: string, rest: string)
    requires '\n' !in line
    ensures FirstLine(line + "\n" + rest) == line
  {
    if line != [] {
      assert (line + "\n" + rest)[1..] == line[1..] + "\n" + rest;
      FirstLineOf(line[1..], rest);
    }
  }

  /** No header contains a newline. */
  lemma CommandNameIsOneLine(kind: CommandKind)
    ensures '\n' !in CommandName(kind)
  {
    RegistrationStemsAreOneLine();
    UnregistrationStemsAreOneLine();
  }

  /** Different kinds have different headers. */
  lemma CommandNamesDistinct(k1: CommandKind, k2: CommandKind)
    ensures CommandName(k1) == CommandName(k2) ==> k1 == k2
  {
    // the six headers have six different lengths
    assert |ForCodeCompletion| == 24;
  }

  /** Every recorded command starts with a header line from which its kind is read back. */
  lemma CommandKindReadBack(fileName: string -> string, command: Command)
    ensures KindNamed(FirstLine(ToString(fileName, command))) == Some(KindOf(command))
  {
    var kind := KindOf(command);
    CommandNameIsOneLine(kind);
    FirstLineOf(CommandName(kind), Payload(fileName, command));
    forall k | k != kind ensures CommandName(k) != CommandName(kind) {
      CommandNamesDistinct(k, kind);
    }
  }

  /** End, UnregisterTranslationUnits and CompleteCode record their header and
      nothing of their payload. */
  lemma PayloadIgnored(fileName: string -> string, command: Command)
    requires command.EndCommand? || command.UnregisterTranslationUnitsForCodeCompletionCommand?
      || command.CompleteCodeCommand?
    ensures ToString(fileName, command) == CommandName(KindOf(command)) + "\n"
  {
  }

  /** A list of file containers is recorded as the in-order concatenation of its
      entries, each one line. */
  lemma {:induction false} FileContainersConcat(fileName: string -> string, a: seq<FileContainer>, b: seq<FileContainer>)
    ensures FileContainersToString(fileName, a + b)
      == FileContainersToString(fileName, a) + FileContainersToString(fileName, b)
  {
    if a != [] {
      assert a + b == [a[0]] + (a[1..] + b);
      FileContainersConcat(fileName, a[1..], b);
    } else {
      assert a + b == b;
    }
  }

  /** A list of project-part containers is recorded as the in-order
      concatenation of its entries, with nothing between them. */
  lemma {:induction false} ProjectPartContainersConcat(fileName: string -> string, a: seq<ProjectPartContainer>, b: seq<ProjectPartContainer>)
    ensures ProjectPartContainersToString(fileName, a + b)
      == ProjectPartContainersToString(fileName, a) + ProjectPartContainersToString(fileName, b)
  {
    if a != [] {
      assert a + b == [a[0]] + (a[1..] + b);
      ProjectPartContainersConcat(fileName, a[1..], b);
    } else {
      assert a + b == b;
    }
  }

  lemma {:induction false} LinesConcat(a: string, b: string)
    ensures Lines(a + b) == Lines(a) + Lines(b)
  {
    if a == [] {
      assert a + b == b;
    } else {
      assert (a + b)[1..] == a[1..] + b;
      LinesConcat(a[1..], b);
    }
  }

  lemma {:induction false} NoLines(s: string)
    requires '\n' !in s
    ensures Lines(s) == 0
  {
    if s != [] {
      NoLines(s[1..]);
    }
  }

  lemma FileContainerLine(fileName: string -> string, fc: FileContainer)
    requires '\n' !in fileName(fc.filePath) && '\n' !in fileName(fc.projectPartId)
    ensures Lines(FileContainerToString(fileName, fc)) == 1
  {
    var line := FileContainerToString(fileName, fc);
    var body := line[..|line| - 1];
    assert line == body + "\n";
    NoLines(body);
    assert Lines("\n") == 1;
    LinesConcat(body, "\n");
  }

  lemma {:induction false} FileContainersLines(fileName: string -> string, fileContainers: seq<FileContainer>)
    requires forall fc :: fc in fileContainers ==>
      '\n' !in fileName(fc.filePath) && '\n' !in fileName(fc.projectPartId)
    ensures Lines(FileContainersToString(fileName, fileContainers)) == |fileContainers|
  {
    if fileContainers != [] {
      FileContainersLines(fileName, fileContainers[1..]);
      FileContainerLine(fileName, fileContainers[0]);
      LinesConcat(FileContainerToString(fileName, fileContainers[0]), FileContainersToString(fileName, fileContainers[1..]));
    }
  }

  lemma {:induction false} ProjectPartContainersNoNewline(fileName: string -> string, containers: seq<ProjectPartContainer>)
    requires forall c :: c in containers ==> '\n' !in fileName(c.projectPartId)
    ensures '\n' !in ProjectPartContainersToString(fileName, containers)
  {
    if containers != [] {
      ProjectPartContainersNoNewline(fileName, containers[1..]);
      assert '\n' !in "  ProjectPartContainer" && '\n' !in " id: ";
    }
  }

  /** A RegisterTranslationUnit command is recorded as its header line followed by
      one line per file container. */
  lemma RegisterTranslationUnitLines(fileName: string -> string, fileContainers: seq<FileContainer>)
    requires forall fc :: fc in fileContainers ==>
      '\n' !in fileName(fc.filePath) && '\n' !in fileName(fc.projectPartId)
    ensures Lines(ToString(fileName, RegisterTranslationUnitForCodeCompletionCommand(fileContainers)))
      == 1 + |fileContainers|
  {
    var header := CommandName(RegisterTranslationUnits);
    CommandNameIsOneLine(RegisterTranslationUnits);
    NoLines(header);
    assert Lines("\n") == 1;
    LinesConcat(header, "\n");
    FileContainersLines(fileName, fileContainers);
    LinesConcat(header + "\n", FileContainersToString(fileName, fileContainers));
  }

  /** A RegisterProjectParts command is recorded as exactly two lines whatever the
      number of containers: all containers share the second line. */
  lemma RegisterProjectPartsLines(fileName: string -> string, containers: seq<ProjectPartContainer>)
    requires forall c :: c in containers ==> '\n' !in fileName(c.projectPartId)
    ensures Lines(ToString(fileName, RegisterProjectPartsForCodeCompletionCommand(containers))) == 2
  {
    var header := CommandName(RegisterProjectParts);
    var parts := ProjectPartContainersToString(fileName, containers);
    CommandNameIsOneLine(RegisterProjectParts);
    ProjectPartContainersNoNewline(fileName, containers);
    NoLines(header);
    NoLines(parts);
    assert Lines("\n") == 1;
    LinesConcat(header, "\n");
    LinesConcat(parts, "\n");
    LinesConcat(header + "\n", parts + "\n");
  }

  /** One registered project part is recorded as a header line and an `id:` line
      holding the file name of its id. */
  lemma RegisterProjectPartsExample(fileName: string -> string, projectPartId: string, name: string)
    requires fileName(projectPartId) == name
    ensures ToString(fileName, RegisterProjectPartsForCodeCompletionCommand([ProjectPartContainer(projectPartId)]))
      == "RegisterProjectPartsForCodeCompletionCommand\n"
       + ("  ProjectPartContainer id: " + name + "\n")
  {
    var containers := [ProjectPartContainer(projectPartId)];
    assert containers[1..] == [];
    assert ProjectPartContainersToString(fileName, containers) + "\n" == "  ProjectPartContainer" + " id: " + name + "\n";
    RegisterProjectPartsHeader();
    ProjectPartLine(name);
  }

  /** One registered file outside any project is recorded as a header line and a
      `Path:` line with an empty project part. */
  lemma RegisterTranslationUnitExample(fileName: string -> string, filePath: string, name: string)
    requires fileName(filePath) == name
    requires fileName("") == ""
    ensures ToString(fileName, RegisterTranslationUnitForCodeCompletionCommand([FileContainer(filePath, "")]))
      == "RegisterTranslationUnitForCodeCompletionCommand\n"
       + ("  Path: " + name + " ProjectPart: \n")
  {
    var line := "  Path: " + name + " ProjectPart: \n";
    OutsideProjectLine(fileName, filePath, name);
    assert Payload(fileName, RegisterTranslationUnitForCodeCompletionCommand([FileContainer(filePath, "")])) == line;
    RegisterTranslationUnitHeader();
  }

  /** A file registered with no project part serialises with an empty project part. */
  lemma OutsideProjectLine(fileName: string -> string, filePath: string, name: string)
    requires fileName(filePath) == name
    requires fileName("") == ""
    ensures FileContainersToString(fileName, [FileContainer(filePath, "")]) == "  Path: " + name + " ProjectPart: \n"
  {
    var fileContainers := [FileContainer(filePath, "")];
    assert fileContainers[1..] == [];
    assert " ProjectPart: " + fileName("") + "\n" == " ProjectPart: \n";
  }

  lemma {:induction false} SplitNoSeparator(s: string, separator: char)
    requires separator !in s
    ensures Split(s, separator) == [s]
  {
    if s != [] {
      SplitNoSeparator(s[1..], separator);
      assert [s[0]] + s[1..] == s;
    }
  }

  lemma {:induction false} SplitAtSeparator(a: string, separator: char, b: string)
    requires separator !in a
    ensures Split(a + [separator] + b, separator) == [a] + Split(b, separator)
  {
    if a != [] {
      var s := a + [separator] + b;
      assert s[0] == a[0] && s[0] != separator;
      assert s[1..] == a[1..] + [separator] + b;
      SplitAtSeparator(a[1..], separator, b);
      assert [a[0]] + a[1..] == a;
    } else {
      assert a + [separator] + b == [separator] + b;
    }
  }

  /** Joining ids that contain no separator can be undone by splitting. */
  lemma {:induction false} SplitJoin(ids: seq<string>, separator: char)
    requires |ids| >= 1
    requires forall id :: id in ids ==> separator !in id
    ensures Split(Join(ids, separator), separator) == ids
  {
    if |ids| == 1 {
      SplitNoSeparator(ids[0], separator);
    } else {
      SplitAtSeparator(ids[0], separator, Join(ids[1..], separator));
      SplitJoin(ids[1..], separator);
    }
  }

  /** The project-part ids of an UnregisterProjectParts command are read back from
      the second line of its text when they contain no comma. */
  lemma UnregisterProjectPartsReadBack(fileName: string -> string, projectPartIds: seq<string>)
    requires |projectPartIds| >= 1
    requires forall id :: id in projectPartIds ==> ',' !in id
    ensures var text := ToString(fileName, UnregisterProjectPartsForCodeCompletionCommand(projectPartIds));
      var header := CommandName(UnregisterProjectParts) + "\n";
      && |header| < |text|
      && text[..|header|] == header
      && text[|text| - 1] == '\n'
      && Split(text[|header|..|text| - 1], ',') == projectPartIds
  {
    var text := ToString(fileName, UnregisterProjectPartsForCodeCompletionCommand(projectPartIds));
    var header := CommandName(UnregisterProjectParts) + "\n";
    assert text == header + Join(projectPartIds, ',') + "\n";
    assert text[|header|..|text| - 1] == Join(projectPartIds, ',');
    SplitJoin(projectPartIds, ',');
  }

  /** The log of several batches of commands is the concatenation of their logs. */
  lemma {:induction false} LogConcat(fileName: string -> string, a: seq<Command>, b: seq<Command>)
    ensures Log(fileName, a + b) == Log(fileName, a) + Log(fileName, b)
  {
    if a == [] {
      assert a + b == b;
    } else {
      assert (a + b)[1..] == a[1..] + b;
      LogConcat(fileName, a[1..], b);
    }
  }

  /** Recording one more command appends its text to the log. */
  lemma LogAppend(fileName: string -> string, commands: seq<Command>, command: Command)
    ensures Log(fileName, commands + [command]) == Log(fileName, commands) + ToString(fileName, command)
  {
    LogConcat(fileName, commands, [command]);
    assert [command][1..] == [];
  }

  // ---------------------------------------------------------------------------
  // Proof helpers: facts about string literals, kept apart so that each is checked on its own.

  lemma RegistrationStemsAreOneLine()
    ensures '\n' !in ForCodeCompletion
    ensures '\n' !in "RegisterTranslationUnit" && '\n' !in "RegisterProjectParts"
  {
  }

  lemma UnregistrationStemsAreOneLine()
    ensures '\n' !in "UnregisterTranslationUnits" && '\n' !in "UnregisterProjectParts"
  {
  }

  lemma RegisterProjectPartsHeader()
    ensures CommandName(RegisterProjectParts) + "\n" == "RegisterProjectPartsForCodeCompletionCommand\n"
  {
  }

  lemma RegisterTranslationUnitHeader()
    ensures CommandName(RegisterTranslationUnits) + "\n" == "RegisterTranslationUnitForCodeCompletionCommand\n"
  {
  }

  lemma ProjectPartLine(id: string)
    ensures "  ProjectPartContainer" + " id: " + id + "\n" == "  ProjectPartContainer id: " + id + "\n"
  {
  }
}
