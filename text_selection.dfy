/** `DefaultTextSelectionStrategy.handleTextSelection` of the two copies of the
    client: the payload announcing the text the user selected in an editor.
    Both nest the selected range as `{start: {line, character}, end: {line,
    character}}`; they differ in where the path and the text go. */
module TextSelection {
  import opened JsonValues

  /** The arguments of `handleTextSelection`. */
  datatype Selection = Selection(
    selectedText: string,
    filepath: string,
    startLine: Int32,
    startCharacter: Int32,
    endLine: Int32,
    endCharacter: Int32)

  function PositionJson(line: Int32, character: Int32): Json {
    JObj(map["line" := JInt(line), "character" := JInt(character)])
  }

  function RangeJson(sel: Selection): Json {
    JObj(map["start" := PositionJson(sel.startLine, sel.startCharacter),
             "end" := PositionJson(sel.endLine, sel.endCharacter)])
  }

  /** continuedev: `{highlightedCode: [ {filepath, contents, range} ]}`. */
  function ContinuedevPayload(sel: Selection): (r: map<string, Json>)
    ensures r.Keys == {"highlightedCode"}
    ensures r["highlightedCode"].JArr? && |r["highlightedCode"].items| == 1
    ensures r["highlightedCode"].items[0].JObj?
    ensures r["highlightedCode"].items[0].fields.Keys == {"filepath", "contents", "range"}
    ensures r["highlightedCode"].items[0].fields["contents"] == JStr(sel.selectedText)
  {
    map["highlightedCode" := JArr([
      JObj(map["filepath" := JStr(sel.filepath),
               "contents" := JStr(sel.selectedText),
               "range" := RangeJson(sel)])])]
  }

  /** bishwenduk029: `{type: "highlightedCode", rangeInFile: {filepath, range},
      filesystem: {filepath: selectedText}}`. */
  function BishwendukPayload(sel: Selection): (r: map<string, Json>)
    ensures r.Keys == {"type", "rangeInFile", "filesystem"}
    ensures r["type"] == JStr("highlightedCode")
    ensures r["filesystem"].JObj? && r["filesystem"].fields.Keys == {sel.filepath}
    ensures r["filesystem"].fields[sel.filepath] == JStr(sel.selectedText)
  {
    map["type" := JStr("highlightedCode"),
        "rangeInFile" := JObj(map["filepath" := JStr(sel.filepath), "range" := RangeJson(sel)]),
        "filesystem" := JObj(map[sel.filepath := JStr(sel.selectedText)])]
  }

  function IntField(m: map<string, Json>, key: string): Option<Int32> {
    if key in m && m[key].JInt? && -0x8000_0000 <= m[key].i < 0x8000_0000
    then Some(m[key].i) else None
  }

  /** Reads a `{start, end}` range back into its four numbers; a range or a
      position with any other key is rejected. */
  function ReadRange(j: Json): Option<(Int32, Int32, Int32, Int32)> {
    if j.JObj? && j.fields.Keys == {"start", "end"}
       && j.fields["start"].JObj? && j.fields["end"].JObj?
       && j.fields["start"].fields.Keys == {"line", "character"}
       && j.fields["end"].fields.Keys == {"line", "character"}
    then
      var s, e := j.fields["start"].fields, j.fields["end"].fields;
      match (IntField(s, "line"), IntField(s, "character"), IntField(e, "line"), IntField(e, "character"))
      case (Some(a), Some(b), Some(c), Some(d)) => Some((a, b, c, d))
      case _ => None
    else None
  }

  /** Recovers the selection from a continuedev payload; any key beyond those
      the payload is built with is rejected. */
  function ReadContinuedevPayload(p: map<string, Json>): Option<Selection> {
    if p.Keys == {"highlightedCode"} && p["highlightedCode"].JArr? && |p["highlightedCode"].items| == 1
       && p["highlightedCode"].items[0].JObj?
       && p["highlightedCode"].items[0].fields.Keys == {"filepath", "contents", "range"}
    then
      var h := p["highlightedCode"].items[0].fields;
      match (StringField(h, "filepath"), StringField(h, "contents"), Get(h, "range"))
      case (Some(path), Some(text), Some(range)) =>
        (match ReadRange(range)
         case Some((a, b, c, d)) => Some(Selection(text, path, a, b, c, d))
         case None => None)
      case _ => None
    else None
  }

  /** Recovers the selection from a bishwenduk029 payload: the path from
      `rangeInFile`, the text from the `filesystem` entry under that path,
      which must be its only entry. Any other key is rejected. */
  function ReadBishwendukPayload(p: map<string, Json>): Option<Selection> {
    if p.Keys == {"type", "rangeInFile", "filesystem"} && p["type"] == JStr("highlightedCode")
       && p["rangeInFile"].JObj? && p["filesystem"].JObj?
       && p["rangeInFile"].fields.Keys == {"filepath", "range"}
    then
      var rif := p["rangeInFile"].fields;
      match (StringField(rif, "filepath"), Get(rif, "range"))
      case (Some(path), Some(range)) =>
        (match (if p["filesystem"].fields.Keys == {path} then StringField(p["filesystem"].fields, path) else None, ReadRange(range))
         case (Some(text), Some((a, b, c, d))) => Some(Selection(text, path, a, b, c, d))
         case _ => None)
      case _ => None
    else None
  }

  /** The continuedev payload carries every argument: text, path and the four
      coordinates can all be read back. */
  lemma ContinuedevPayloadComplete(sel: Selection)
    ensures ReadContinuedevPayload(ContinuedevPayload(sel)) == Some(sel)
  {
  }

  /** So does the bishwenduk029 payload. */
  lemma BishwendukPayloadComplete(sel: Selection)
    ensures ReadBishwendukPayload(BishwendukPayload(sel)) == Some(sel)
  {
  }
}
