/** The inbound dispatch of the two copies of the client: what a received
    message makes the client send back and ask of the editor, before its
    pending request (if any) is completed.

    A handler's reply is a frame with the message's own type. A handler that
    casts a field of `data` to the wrong kind throws inside the coroutine that
    handles the message; the message then has no effect at all, which is the
    `Aborted` reaction. */
module Dispatch {
  import opened JsonValues
  import opened MachineId

  /** Which copy of the client: continuedev (eleven handled types) or
      bishwenduk029 (two stubbed queries). */
  datatype Edition = Continuedev | Bishwenduk029

  /** What the editor host can be asked, at the time a message is handled. */
  datatype Ide = Ide(
    interfaces: seq<Option<seq<JByte>>>,  // hardware address of each network interface, if it has one
    files: map<string, Option<string>>,   // paths the local file system resolves, with the text of their document if there is one
    openFiles: seq<string>)               // paths of the files open in editors

  /** Calls into the editor, the web view and the event listeners. */
  datatype Effect =
    | ShowDiff(filepath: string, replacement: string, stepIndex: Int32)
    | SaveDocument(filepath: string)
    | ShowVirtualFile(name: string, contents: string)
    | ShowMessage(message: string)
    | OpenFile(filepath: string)
    | CloseFile(filepath: string)
    | HighlightCode(rangeInFile: Json, color: string)
    | Webview(eventName: string, payload: Json)

  datatype Reaction = Aborted | Handled(reply: Option<Json>, effects: seq<Effect>)

  /** How the continuedev `showDiff` handler reads `step_index`: as the code is
      written (`as Int`), or as evidently intended (as a number). */
  datatype Reading = AsWritten | Corrected

  /** The query types answered with a reply. */
  const ReplyingTypes: set<string> := {"workspaceDirectory", "uniqueId", "readFile", "visibleFiles"}

  /** The command types that call into the editor and send nothing. */
  const CommandTypes: set<string> :=
    {"showDiff", "saveFile", "showVirtualFile", "showMessage", "setFileOpen", "highlightCode"}

  /** The types whose handler casts fields of `data`. */
  const CastingTypes: set<string> := CommandTypes + {"readFile"}

  const Silent := Handled(None, [])

  predicate IsString(data: map<string, Json>, key: string) {
    key in data && data[key].JStr?
  }

  /** The kinds of number each reading of `showDiff` accepts as the step index. */
  predicate StepIndexFits(reading: Reading, j: Json) {
    match reading
    case AsWritten => j.JInt? && -0x8000_0000 <= j.i < 0x8000_0000
    case Corrected => j.JDouble? || (j.JInt? && -0x8000_0000 <= j.i < 0x8000_0000)
  }

  /** The kinds of `data` field that each continuedev handler casts to; a
      handler whose fields are of these kinds runs without a failed cast. */
  predicate ArgumentsFit(reading: Reading, messageType: string, data: map<string, Json>) {
    if messageType == "showDiff" then
      IsString(data, "filepath") && IsString(data, "replacement")
      && "step_index" in data && StepIndexFits(reading, data["step_index"])
    else if messageType == "readFile" || messageType == "saveFile" then
      IsString(data, "filepath")
    else if messageType == "showVirtualFile" then
      IsString(data, "name") && IsString(data, "contents")
    else if messageType == "showMessage" then
      IsString(data, "message")
    else if messageType == "setFileOpen" then
      IsString(data, "filepath") && "open" in data && data["open"].JBool?
    else if messageType == "highlightCode" then
      "rangeInFile" in data && data["rangeInFile"].JObj? && IsString(data, "color")
    else
      true
  }

  function Reply(messageType: string, data: Json): (r: Reaction)
    ensures r.Handled? && r.effects == [] && r.reply.Some?
    ensures FrameType(r.reply.value) == Some(messageType)
  {
    Handled(Some(Frame(messageType, data)), [])
  }

  /** `readFile`: the text of the path's document, or the empty string when the
      path resolves to no file or the file has no document. The contract spells
      out both outcomes; `ReadFileReply` ties them to the inbound message. */
  function ReadFileText(ide: Ide, filepath: string): (r: string)
    ensures filepath !in ide.files || ide.files[filepath].None? ==> r == ""
    ensures filepath in ide.files && ide.files[filepath].Some? ==> r == ide.files[filepath].value
  {
    if filepath in ide.files && ide.files[filepath].Some? then ide.files[filepath].value else ""
  }

  /** `saveFile`: saves the path's document, if the path resolves to a file
      that has one; otherwise it returns without a call. */
  function SaveFileEffects(ide: Ide, filepath: string): (r: seq<Effect>)
    ensures r == [SaveDocument(filepath)] <==> filepath in ide.files && ide.files[filepath].Some?
    ensures r == [] <==> filepath !in ide.files || ide.files[filepath].None?
  {
    if filepath in ide.files && ide.files[filepath].Some? then [SaveDocument(filepath)] else []
  }

  /** `setFileOpen`: opens or closes the path's editor, if the path resolves;
      otherwise it does nothing. Whether there is a document does not matter. */
  function SetFileOpenEffects(ide: Ide, filepath: string, open: bool): (r: seq<Effect>)
    ensures r == [] <==> filepath !in ide.files
    ensures open && filepath in ide.files ==> r == [OpenFile(filepath)]
    ensures !open && filepath in ide.files ==> r == [CloseFile(filepath)]
  {
    if filepath in ide.files then [if open then OpenFile(filepath) else CloseFile(filepath)] else []
  }

  /** The arguments of `showDiff` AS WRITTEN: `data["step_index"] as Int`
      succeeds only on a boxed `Int`. */
  function ShowDiffAsWritten(data: map<string, Json>): (r: Option<Effect>)
    ensures r.Some? ==> "step_index" in data && data["step_index"].JInt?
  {
    match (StringField(data, "filepath"), StringField(data, "replacement"), Get(data, "step_index"))
    case (Some(path), Some(replacement), Some(JInt(i))) =>
      if -0x8000_0000 <= i < 0x8000_0000 then Some(ShowDiff(path, replacement, i)) else None
    case _ => None
  }

  /** The parser never yields a boxed `Int`, so as written every `showDiff`
      the server sends fails its cast. */
  lemma ShowDiffAsWrittenAlwaysFails(data: map<string, Json>)
    requires FromParser(JObj(data))
    ensures ShowDiffAsWritten(data) == None
  {
    if "step_index" in data {
      assert FromParser(data["step_index"]);
    }
  }

  /** A concrete `showDiff` push: `{"filepath": "/a", "replacement": "x",
      "step_index": 0}` parses with `step_index` as the double 0.0. */
  lemma ShowDiffCounterexample()
    ensures var data := map["filepath" := JStr("/a"), "replacement" := JStr("x"), "step_index" := JDouble(0.0)];
      && FromParser(JObj(data))
      && ShowDiffAsWritten(data) == None
      && ShowDiffArgs(data) == Some(ShowDiff("/a", "x", 0))
  {
    var data := map["filepath" := JStr("/a"), "replacement" := JStr("x"), "step_index" := JDouble(0.0)];
    assert forall k | k in data :: FromParser(data[k]);
  }

  /** `(x as Number).toInt()`: a double is truncated toward zero and saturated
      to the range of `Int`. */
  function NumberToInt(j: Json): (r: Option<Int32>)
    ensures j.JInt? && -0x8000_0000 <= j.i < 0x8000_0000 ==> r == Some(j.i)
    ensures j.JDouble? && -2147483648.0 <= j.d < 2147483648.0 && j.d == j.d.Floor as real ==> r == Some(j.d.Floor)
  {
    match j
    case JInt(i) => if -0x8000_0000 <= i < 0x8000_0000 then Some(i) else None
    case JDouble(d) =>
      var t := if d >= 0.0 then d.Floor else -((-d).Floor);
      Some(if t < -0x8000_0000 then -0x8000_0000 else if t >= 0x8000_0000 then 0x7fff_ffff else t)
    case _ => None
  }

  /** The arguments of `showDiff` as intended: the step index read as a
      number, so that the doubles the parser produces are accepted. */
  function ShowDiffArgs(data: map<string, Json>): (r: Option<Effect>)
    ensures r.Some? <==> StringField(data, "filepath").Some? && StringField(data, "replacement").Some?
                         && "step_index" in data && (data["step_index"].JDouble? || (data["step_index"].JInt? && -0x8000_0000 <= data["step_index"].i < 0x8000_0000))
    ensures r.Some? ==> r.value.ShowDiff? && JStr(r.value.filepath) == data["filepath"] && JStr(r.value.replacement) == data["replacement"]
  {
    match (StringField(data, "filepath"), StringField(data, "replacement"), Get(data, "step_index"))
    case (Some(path), Some(replacement), Some(step)) =>
      (match NumberToInt(step)
       case Some(i) => Some(ShowDiff(path, replacement, i))
       case None => None)
    case _ => None
  }

  /** A step index that is a whole number in range reaches the diff view
      unchanged, whichever kind of number carries it. */
  lemma ShowDiffPassesStepIndex(path: string, replacement: string, step: Int32)
    ensures ShowDiffArgs(map["filepath" := JStr(path), "replacement" := JStr(replacement), "step_index" := JDouble(step as real)])
            == Some(ShowDiff(path, replacement, step))
    ensures ShowDiffArgs(map["filepath" := JStr(path), "replacement" := JStr(replacement), "step_index" := JInt(step)])
            == Some(ShowDiff(path, replacement, step))
  {
    assert (step as real).Floor == step;
  }

  /** The `when` of the continuedev copy, once `data` is known to be a map. */
  function ContinuedevHandle(reading: Reading, workspacePath: string, ide: Ide, t: Option<string>, data: map<string, Json>): Reaction {
    if t.None? then Silent
    else
      var ty := t.value;
      if ty == "workspaceDirectory" then
        Reply(ty, JObj(map["workspaceDirectory" := JStr(workspacePath)]))
      else if ty == "uniqueId" then
        Reply(ty, JObj(map["uniqueId" := JStr(MachineIdOf(ide.interfaces))]))
      else if ty == "showDiff" then
        (match (if reading == AsWritten then ShowDiffAsWritten(data) else ShowDiffArgs(data))
         case Some(e) => Handled(None, [e])
         case None => Aborted)
      else if ty == "readFile" then
        (match StringField(data, "filepath")
         case Some(path) => Reply(ty, JObj(map["contents" := JStr(ReadFileText(ide, path))]))
         case None => Aborted)
      else if ty == "visibleFiles" then
        Reply(ty, JObj(map["visibleFiles" := Strings(ide.openFiles)]))
      else if ty == "saveFile" then
        (match StringField(data, "filepath")
         case Some(path) => Handled(None, SaveFileEffects(ide, path))
         case None => Aborted)
      else if ty == "showVirtualFile" then
        (match (StringField(data, "name"), StringField(data, "contents"))
         case (Some(name), Some(contents)) => Handled(None, [ShowVirtualFile(name, contents)])
         case _ => Aborted)
      else if ty == "connected" then
        Silent
      else if ty == "showMessage" then
        (match StringField(data, "message")
         case Some(m) => Handled(None, [ShowMessage(m)])
         case None => Aborted)
      else if ty == "setFileOpen" then
        (match (StringField(data, "filepath"), BoolField(data, "open"))
         case (Some(path), Some(open)) => Handled(None, SetFileOpenEffects(ide, path, open))
         case _ => Aborted)
      else if ty == "highlightCode" then
        (match (Get(data, "rangeInFile"), StringField(data, "color"))
         case (Some(JObj(rangeInFile)), Some(color)) => Handled(None, [HighlightCode(JObj(rangeInFile), color)])
         case _ => Aborted)
      else
        Silent
  }

  /** The continuedev dispatch table. A reply is sent exactly for the four
      query types and carries the message's own type; a command sends
      nothing and makes at most one call into the editor; a null, unknown or
      `connected` type does nothing; only a failed cast aborts. */
  function ContinuedevReaction(reading: Reading, workspacePath: string, ide: Ide, message: map<string, Json>): (r: Reaction)
    ensures DataObject(message).None? ==> r.Aborted?
    ensures r.Handled? ==>
      (r.reply.Some? <==> MessageType(message).Some? && MessageType(message).value in ReplyingTypes)
    ensures r.Handled? && r.reply.Some? ==> FrameType(r.reply.value) == MessageType(message)
    ensures r.Handled? && r.effects != [] ==>
      |r.effects| == 1 && r.reply.None? && MessageType(message).Some? && MessageType(message).value in CommandTypes
    ensures DataObject(message).Some? && (MessageType(message).None? || MessageType(message).value !in ReplyingTypes + CommandTypes)
      ==> r == Silent
    ensures r.Aborted? ==>
      DataObject(message).None? || (MessageType(message).Some? && MessageType(message).value in CastingTypes)
    ensures r.Aborted? <==>
      || DataObject(message).None?
      || (MessageType(message).Some? && MessageType(message).value in CastingTypes
          && !ArgumentsFit(reading, MessageType(message).value, DataObject(message).value))
  {
    match DataObject(message)
    case Some(data) => ContinuedevHandle(reading, workspacePath, ide, MessageType(message), data)
    case None => Aborted
  }

  /** `readFile` answers with the document's text, or with the empty string
      when there is no such file or document. */
  lemma ReadFileReply(reading: Reading, workspacePath: string, ide: Ide, message: map<string, Json>, path: string)
    requires MessageType(message) == Some("readFile")
    requires DataObject(message).Some? && StringField(DataObject(message).value, "filepath") == Some(path)
    ensures ContinuedevReaction(reading, workspacePath, ide, message)
            == Reply("readFile", JObj(map["contents" := JStr(ReadFileText(ide, path))]))
    ensures path !in ide.files || ide.files[path].None? ==> ReadFileText(ide, path) == ""
  {
  }

  /** The other three queries: the workspace path given to the client, the
      machine identifier, and the paths of the open files, in order. */
  lemma ContinuedevQueryReplies(reading: Reading, workspacePath: string, ide: Ide, message: map<string, Json>)
    requires DataObject(message).Some?
    ensures MessageType(message) == Some("workspaceDirectory") ==>
      ContinuedevReaction(reading, workspacePath, ide, message)
        == Reply("workspaceDirectory", JObj(map["workspaceDirectory" := JStr(workspacePath)]))
    ensures MessageType(message) == Some("uniqueId") ==>
      ContinuedevReaction(reading, workspacePath, ide, message)
        == Reply("uniqueId", JObj(map["uniqueId" := JStr(MachineIdOf(ide.interfaces))]))
    ensures MessageType(message) == Some("visibleFiles") ==>
      ContinuedevReaction(reading, workspacePath, ide, message)
        == Reply("visibleFiles", JObj(map["visibleFiles" := Strings(ide.openFiles)]))
  {
  }

  /** The commands other than `showDiff`: each sends nothing and makes exactly
      the editor call its arguments name, or none where `saveFile` and
      `setFileOpen` find no file. */
  lemma CommandEffects(reading: Reading, workspacePath: string, ide: Ide, message: map<string, Json>)
    requires DataObject(message).Some?
    ensures var data, r := DataObject(message).value, ContinuedevReaction(reading, workspacePath, ide, message);
      && (MessageType(message) == Some("saveFile") && StringField(data, "filepath").Some? ==>
            r == Handled(None, SaveFileEffects(ide, StringField(data, "filepath").value)))
      && (MessageType(message) == Some("setFileOpen") && StringField(data, "filepath").Some? && BoolField(data, "open").Some? ==>
            r == Handled(None, SetFileOpenEffects(ide, StringField(data, "filepath").value, BoolField(data, "open").value)))
      && (MessageType(message) == Some("showVirtualFile") && StringField(data, "name").Some? && StringField(data, "contents").Some? ==>
            r == Handled(None, [ShowVirtualFile(StringField(data, "name").value, StringField(data, "contents").value)]))
      && (MessageType(message) == Some("showMessage") && StringField(data, "message").Some? ==>
            r == Handled(None, [ShowMessage(StringField(data, "message").value)]))
      && (MessageType(message) == Some("highlightCode") && "rangeInFile" in data && data["rangeInFile"].JObj?
          && StringField(data, "color").Some? ==>
            r == Handled(None, [HighlightCode(data["rangeInFile"], StringField(data, "color").value)]))
  {
  }

  /** As written, every `showDiff` the server can send aborts its handler, so
      it shows no diff and never reaches the completion step. */
  lemma ShowDiffAsWrittenAborts(workspacePath: string, ide: Ide, message: map<string, Json>)
    requires FromParser(JObj(message)) && MessageType(message) == Some("showDiff")
    ensures ContinuedevReaction(AsWritten, workspacePath, ide, message) == Aborted
  {
    if DataObject(message).Some? {
      assert FromParser(message[DataKey]);
      ShowDiffAsWrittenAlwaysFails(DataObject(message).value);
    }
  }

  /** Under the corrected reading, a `showDiff` with two strings and a number
      shows the diff and sends nothing. */
  lemma ShowDiffCorrectedShows(workspacePath: string, ide: Ide, message: map<string, Json>)
    requires MessageType(message) == Some("showDiff")
    requires DataObject(message).Some? && ShowDiffArgs(DataObject(message).value).Some?
    ensures ContinuedevReaction(Corrected, workspacePath, ide, message)
            == Handled(None, [ShowDiffArgs(DataObject(message).value).value])
  {
  }

  /** The two readings differ on `showDiff` alone. */
  lemma ReadingsAgreeElsewhere(workspacePath: string, ide: Ide, message: map<string, Json>)
    requires MessageType(message) != Some("showDiff")
    ensures ContinuedevReaction(AsWritten, workspacePath, ide, message)
            == ContinuedevReaction(Corrected, workspacePath, ide, message)
  {
  }

  const FakeWorkspace := "/fake/path"
  const NotUnique := "NOT_UNIQUE"

  /** The bishwenduk029 dispatch: `workspaceDirectory` and `uniqueId` are
      answered with fixed stubs, everything else sends nothing; nothing aborts
      and nothing reaches the editor. */
  function BishwendukReaction(message: map<string, Json>): (r: Reaction)
    ensures r.Handled? && r.effects == []
    ensures r.reply.Some? <==> MessageType(message) in {Some("workspaceDirectory"), Some("uniqueId")}
    ensures MessageType(message) == Some("workspaceDirectory") ==>
      r.reply == Some(Frame("workspaceDirectory", JObj(map["workspaceDirectory" := JStr(FakeWorkspace)])))
    ensures MessageType(message) == Some("uniqueId") ==>
      r.reply == Some(Frame("uniqueId", JObj(map["uniqueId" := JStr(NotUnique)])))
  {
    match MessageType(message)
    case Some(t) =>
      if t == "workspaceDirectory" then Reply(t, JObj(map["workspaceDirectory" := JStr(FakeWorkspace)]))
      else if t == "uniqueId" then Reply(t, JObj(map["uniqueId" := JStr(NotUnique)]))
      else Silent
    case None => Silent
  }

  /** The dispatch table of the given copy. */
  function React(edition: Edition, reading: Reading, workspacePath: string, ide: Ide, message: map<string, Json>): (r: Reaction)
    ensures r.Handled? && r.reply.Some? ==> FrameType(r.reply.value) == MessageType(message)
    ensures MessageType(message).None? && r.Handled? ==> r == Silent
  {
    match edition
    case Continuedev => ContinuedevReaction(reading, workspacePath, ide, message)
    case Bishwenduk029 => BishwendukReaction(message)
  }
}
