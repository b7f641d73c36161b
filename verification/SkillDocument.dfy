/** SKILL.md documents: the renderer `render_agent_skill` and the reader `_parse_skill_md`. */
module SkillDocument {
  import opened Prelude
  import opened Text
  import opened SkillScalar
  import opened Sorting

  datatype SkillError =
    | NameViolation
    | BadLength(what: string)
    | EmptyInstructions
    | EmptyLicense
    | BadExportMetadata
    | MissingFrontmatter
    | UnclosedFrontmatter
    | UnsupportedFields
    | NotText(key: string)
    | MetadataNotTable
    | UnexpectedNested(line: nat)
    | InvalidEntry(line: nat)
    | RepeatedEntry
    | InvalidLine(line: nat)
    | RepeatedKey
    | EmptyValue(key: string)
    | ComplexScalar

  /** `NativeSkillExport`. */
  datatype Native = Native(
    skillId: string, name: string, description: string, instructions: string,
    license: Option<string>, compatibility: Option<string>, metadata: map<string, string>)

  /** `AgentSkillMetadata`. */
  datatype Metadata = Metadata(
    name: string, description: string, license: Option<string>, compatibility: Option<string>,
    entries: map<string, string>, declaredAllowedTools: Option<string>)

  datatype Skill = Skill(metadata: Metadata, instructions: string)

  /** A value of the frontmatter dictionary. */
  datatype Field = Scalar(text: string) | Table(entries: map<string, string>)

  /** Reader state: the dictionary so far, and whether the metadata table is still open. */
  datatype Doc = Doc(fields: map<string, Field>, open: bool) {
    function Entries(): map<string, string> {
      if "metadata" in fields && fields["metadata"].Table? then fields["metadata"].entries else map[]
    }
  }

  const SKILL_ID := "ilaios.skill-id"
  const AUTHORITY := "ilaios.authority"
  const PORTABLE_ONLY := "portable-instructions-only"
  const TOP_LEVEL := {"name", "description", "license", "compatibility", "metadata", "allowed-tools"}

  // ----- validation -----

  predicate NameChar(c: char) {
    'a' <= c <= 'z' || '0' <= c <= '9' || c == '-'
  }

  predicate ValidName(name: string) {
    && 1 <= |name| <= 64
    && (forall i :: 0 <= i < |name| ==> NameChar(name[i]))
    && name[0] != '-' && name[|name| - 1] != '-'
    && (forall i :: 0 < i < |name| ==> !(name[i - 1] == '-' && name[i] == '-'))
  }

  predicate ValidText(value: string, maximum: nat) {
    !Blank(value) && |value| <= maximum
  }

  // ----- rendering -----

  /** The exported metadata: the two ILAIOS keys override the author's. */
  function ExportedEntries(n: Native): map<string, string> {
    n.metadata[SKILL_ID := n.skillId][AUTHORITY := PORTABLE_ONLY]
  }

  function FieldLine(key: string, value: string): string {
    key + ": " + YamlScalar(value)
  }

  function EntryLine(key: string, value: string): string {
    "  " + FieldLine(key, value)
  }

  function EntryLines(keys: seq<string>, entries: map<string, string>): (lines: seq<string>)
    requires forall k :: k in keys ==> k in entries
    ensures |lines| == |keys|
    ensures forall i :: 0 <= i < |keys| ==> lines[i] == EntryLine(keys[i], entries[keys[i]])
  {
    if keys == [] then [] else [EntryLine(keys[0], entries[keys[0]])] + EntryLines(keys[1..], entries)
  }

  function OptionalLine(key: string, value: Option<string>): seq<string> {
    if value.Some? then [FieldLine(key, value.value)] else []
  }

  function RequiredLines(n: Native): seq<string> {
    [FieldLine("name", n.name), FieldLine("description", n.description)]
  }

  /** The lines before the metadata table's entries. */
  function HeadLines(n: Native): seq<string> {
    RequiredLines(n)
    + OptionalLine("license", n.license)
    + OptionalLine("compatibility", n.compatibility)
    + ["metadata:"]
  }

  /** Every line between the two `---` markers. */
  function FrontmatterLines(n: Native): seq<string> {
    HeadLines(n) + EntryLines(SortedKeys(ExportedEntries(n).Keys), ExportedEntries(n))
  }

  function RenderCheck(n: Native): Option<SkillError> {
    if !ValidName(n.name) then Some(NameViolation)
    else if !ValidText(n.description, 1024) then Some(BadLength("description"))
    else if Blank(n.instructions) then Some(EmptyInstructions)
    else if n.compatibility.Some? && !ValidText(n.compatibility.value, 500) then Some(BadLength("compatibility"))
    else if n.license.Some? && Blank(n.license.value) then Some(EmptyLicense)
    else if exists key :: key in ExportedEntries(n) && Blank(key) then Some(BadExportMetadata)
    else None
  }

  /** The rendered document as a function of the export. */
  function Rendered(n: Native): Result<string, SkillError> {
    match RenderCheck(n)
    case Some(error) => Err(error)
    case None => Ok(Join(["---"] + FrontmatterLines(n) + Closing(n)))
  }

  /** The closing marker and the body. */
  function Closing(n: Native): seq<string> {
    ["---", "", Strip(n.instructions), ""]
  }

  /** The lines of the metadata table, appended key by key. */
  method AppendEntries(head: seq<string>, keys: seq<string>, entries: map<string, string>)
    returns (lines: seq<string>)
    requires forall k :: k in keys ==> k in entries
    ensures lines == head + EntryLines(keys, entries)
  {
    lines := head;
    ghost var all := EntryLines(keys, entries);
    for i := 0 to |keys|
      invariant lines == head + all[..i]
    {
      var line := EntryLine(keys[i], entries[keys[i]]);
      assert all[..i + 1] == all[..i] + [line];
      lines := lines + [line];
    }
    assert all[..|keys|] == all;
  }

  method AppendOptional(lines: seq<string>, key: string, value: Option<string>) returns (r: seq<string>)
    ensures r == lines + OptionalLine(key, value)
  {
    r := lines;
    if value.Some? {
      r := r + [FieldLine(key, value.value)];
    }
  }

  /** `render_agent_skill`, appending line by line. */
  method RenderAgentSkill(n: Native) returns (r: Result<string, SkillError>)
    ensures r == Rendered(n)
  {
    var check := RenderCheck(n);
    if check.Some? {
      return Err(check.value);
    }
    var entries := n.metadata;
    entries := entries[SKILL_ID := n.skillId];
    entries := entries[AUTHORITY := PORTABLE_ONLY];
    var lines := RequiredLines(n);
    lines := AppendOptional(lines, "license", n.license);
    lines := AppendOptional(lines, "compatibility", n.compatibility);
    lines := lines + ["metadata:"];
    lines := AppendEntries(lines, SortedKeys(entries.Keys), entries);
    r := Ok(Join(["---"] + lines + Closing(n)));
  }

  // ----- reading -----

  predicate Skipped(raw: string) {
    Blank(raw) || "#" <= LStrip(raw)
  }

  function ParseEntry(doc: Doc, number: nat, raw: string): Result<Doc, SkillError> {
    if !doc.open then Err(UnexpectedNested(number))
    else
      var nested := Strip(raw);
      var colon := IndexOf(nested, ':');
      if colon < 0 then Err(InvalidEntry(number))
      else
        var key := Strip(nested[..colon]);
        if key == "" || key in doc.Entries() then Err(RepeatedEntry)
        else
          match DecodeScalar(Strip(nested[colon + 1..]))
          case Ok(v) => Ok(doc.(fields := doc.fields["metadata" := Table(doc.Entries()[key := v])]))
          case Err(_) => Err(ComplexScalar)
  }

  function ParseField(doc: Doc, number: nat, raw: string): Result<Doc, SkillError> {
    var colon := IndexOf(raw, ':');
    if colon < 0 || IsSpace(raw[0]) then Err(InvalidLine(number))
    else
      var key := Strip(raw[..colon]);
      var value := Strip(raw[colon + 1..]);
      if key == "" || key in doc.fields then Err(RepeatedKey)
      else if value == "" then
        if key != "metadata" then Err(EmptyValue(key))
        else Ok(Doc(doc.fields[key := Table(map[])], true))
      else
        match DecodeScalar(value)
        case Ok(v) => Ok(Doc(doc.fields[key := Scalar(v)], false))
        case Err(_) => Err(ComplexScalar)
  }

  function ParseLine(doc: Doc, number: nat, raw: string): Result<Doc, SkillError> {
    if Skipped(raw) then Ok(doc)
    else if "  " <= raw then ParseEntry(doc, number, raw)
    else ParseField(doc, number, raw)
  }

  function ParseLines(doc: Doc, number: nat, lines: seq<string>): Result<Doc, SkillError>
    decreases |lines|
  {
    if lines == [] then Ok(doc)
    else
      match ParseLine(doc, number, lines[0])
      case Err(error) => Err(error)
      case Ok(next) => ParseLines(next, number + 1, lines[1..])
  }

  const EMPTY_DOC := Doc(map[], false)

  /** `_parse_frontmatter`, filling the dictionary line by line. */
  method ParseFrontmatter(frontmatter: string) returns (r: Result<Doc, SkillError>)
    ensures r == ParseLines(EMPTY_DOC, 1, SplitLines(frontmatter))
  {
    var lines := SplitLines(frontmatter);
    var doc := EMPTY_DOC;
    var i := 0;
    while i < |lines|
      invariant 0 <= i <= |lines|
      invariant ParseLines(EMPTY_DOC, 1, lines) == ParseLines(doc, i + 1, lines[i..])
    {
      var step := ParseLine(doc, i + 1, lines[i]);
      if step.Err? {
        return Err(step.error);
      }
      doc := step.value;
      assert lines[i..][1..] == lines[i + 1..];
      i := i + 1;
    }
    r := Ok(doc);
  }

  function RequiredText(fields: map<string, Field>, key: string): Result<string, SkillError> {
    if key in fields && fields[key].Scalar? && !Blank(fields[key].text) then Ok(fields[key].text)
    else Err(NotText(key))
  }

  function OptionalText(fields: map<string, Field>, key: string): Result<Option<string>, SkillError> {
    if key !in fields then Ok(None)
    else if fields[key].Scalar? && !Blank(fields[key].text) then Ok(Some(fields[key].text))
    else Err(NotText(key))
  }

  /** The checks of `_parse_skill_md` on the filled dictionary, in source order. */
  function Interpret(fields: map<string, Field>, instructions: string): Result<Skill, SkillError> {
    if !(fields.Keys <= TOP_LEVEL) then Err(UnsupportedFields)
    else
      var name := RequiredText(fields, "name");
      var description := RequiredText(fields, "description");
      var license := OptionalText(fields, "license");
      var compatibility := OptionalText(fields, "compatibility");
      var tools := OptionalText(fields, "allowed-tools");
      if name.Err? then Err(name.error)
      else if description.Err? then Err(description.error)
      else if !ValidName(name.value) then Err(NameViolation)
      else if !ValidText(description.value, 1024) then Err(BadLength("description"))
      else if license.Err? then Err(license.error)
      else if compatibility.Err? then Err(compatibility.error)
      else if compatibility.value.Some? && !ValidText(compatibility.value.value, 500) then Err(BadLength("compatibility"))
      else if tools.Err? then Err(tools.error)
      else if "metadata" in fields && fields["metadata"].Scalar? then Err(MetadataNotTable)
      else
        var entries := if "metadata" in fields then fields["metadata"].entries else map[];
        Ok(Skill(Metadata(name.value, description.value, license.value, compatibility.value, entries, tools.value), instructions))
  }

  const CLOSING := "\n---\n"

  /** `_parse_skill_md`. */
  function Parse(text: string): Result<Skill, SkillError> {
    if !("---\n" <= text) then Err(MissingFrontmatter)
    else
      var marker := Find(text, CLOSING, 4);
      if marker < 0 then Err(UnclosedFrontmatter)
      else
        match ParseLines(EMPTY_DOC, 1, SplitLines(text[4..marker]))
        case Err(error) => Err(error)
        case Ok(doc) => Interpret(doc.fields, text[marker + 5..])
  }
}
