/** SKILL.md documents as people write them: bare, single-quoted and double-quoted values, comments, and any order of fields. */
module SkillReading {
  import opened Prelude
  import opened Text
  import opened SkillScalar
  import opened Sorting
  import opened SkillDocument
  import opened SkillRoundTrip

  // ----- values -----

  /** How a text is written: as it stands, with each single quote doubled, or as the renderer prints it. */
  datatype Value = Bare(text: string) | SingleQuoted(text: string) | DoubleQuoted(text: string)

  function Doubled(t: string): string {
    if t == [] then [] else (if t[0] == '\'' then ['\'', '\''] else [t[0]]) + Doubled(t[1..])
  }

  function Spell(v: Value): string {
    match v
    case Bare(t) => t
    case SingleQuoted(t) => ['\''] + Doubled(t) + ['\'']
    case DoubleQuoted(t) => YamlScalar(t)
  }

  /** What the writer meant; a double-quoted text loses the backslashes that `Garbled` describes. */
  function Meaning(v: Value): string {
    match v
    case Bare(t) => t
    case SingleQuoted(t) => t
    case DoubleQuoted(t) => Garbled(t)
  }

  predicate InQuotes(t: string) {
    |t| >= 2 && t[0] == t[|t| - 1] && (t[0] == '"' || t[0] == '\'')
  }

  /** The values a line can hold. */
  predicate Writable(v: Value) {
    match v
    case Bare(t) => t != "" && Trimmed(t) && BreakFree(t) && !InQuotes(t) && t[0] !in "[{&*!|>"
    case SingleQuoted(t) => BreakFree(t)
    case DoubleQuoted(t) => NoForeignBreak(t)
  }

  lemma {:induction false} HalvedDoubled(t: string)
    ensures ReplaceAll(Doubled(t), "''", "'") == t
  {
    if t != [] {
      HalvedDoubled(t[1..]);
      var d, rest := Doubled(t), Doubled(t[1..]);
      assert t == [t[0]] + t[1..];
      if t[0] == '\'' {
        assert d[..2] == "''" && d[2..] == rest;
      } else {
        assert d[1..] == rest;
        if |d| == 1 { assert rest == []; }
      }
    }
  }

  /** Bare and single-quoted text is read as written, printed text as garbled. */
  lemma ReadsValue(v: Value)
    requires Writable(v)
    ensures DecodeScalar(Spell(v)) == Ok(Meaning(v))
  {
    match v {
      case Bare(t) => hide ReplaceAll;
      case SingleQuoted(t) =>
        HalvedDoubled(t);
        assert Spell(v)[1..|Spell(v)| - 1] == Doubled(t);
        hide ReplaceAll, Doubled;
      case DoubleQuoted(t) => DecodeEncoded(t);
    }
  }

  /** A scalar is refused exactly if it begins with one of the seven YAML indicators; outside quotes the rest stands for itself. */
  lemma RefusesExactly(t: string)
    ensures DecodeScalar(t).Err? <==> t != "" && t[0] in "[{&*!|>"
    ensures DecodeScalar(t).Ok? && !InQuotes(t) ==> DecodeScalar(t).value == t
  {
    hide ReplaceAll;
  }

  lemma {:induction false} DoubledBreakFree(t: string)
    requires BreakFree(t)
    ensures BreakFree(Doubled(t))
  {
    if t != [] { DoubledBreakFree(t[1..]); }
  }

  lemma SpelledShape(v: Value)
    requires Writable(v)
    ensures Spell(v) != "" && Trimmed(Spell(v)) && BreakFree(Spell(v))
  {
    match v {
      case Bare(_) =>
      case SingleQuoted(t) => DoubledBreakFree(t);
      case DoubleQuoted(t) =>
        QuotedShape(t);
        YamlScalarIsEncode(t);
        EncodeBreakFree(t);
        hide YamlScalar, ReplaceAll;
    }
  }

  // ----- lines -----

  datatype Line = Property(key: string, value: Value) | Header | Entry(key: string, value: Value) | Note(text: string)

  function Written(l: Line): string {
    match l
    case Property(key, value) => key + ": " + Spell(value)
    case Header => "metadata:"
    case Entry(key, value) => "  " + key + ": " + Spell(value)
    case Note(text) => text
  }

  predicate Sound(l: Line) {
    match l
    case Property(key, value) => CleanKey(key) && key[0] != '-' && Writable(value)
    case Header => true
    case Entry(key, value) => CleanKey(key) && Writable(value)
    case Note(text) => text != "" && BreakFree(text) && (Blank(text) || (LStrip(text) != "" && LStrip(text)[0] == '#'))
  }

  function Texts(lines: seq<Line>): (texts: seq<string>)
    ensures |texts| == |lines| && forall i :: 0 <= i < |lines| ==> texts[i] == Written(lines[i])
  {
    if lines == [] then [] else Texts(lines[..|lines| - 1]) + [Written(lines[|lines| - 1])]
  }

  lemma LineParts(key: string, raw: string)
    requires ':' !in key && raw != "" && Trimmed(raw)
    ensures var line := key + ": " + raw;
            IndexOf(line, ':') == |key| && line[..|key|] == key && Strip(line[|key| + 1..]) == raw
  {
    var line := key + ": " + raw;
    assert line == key + [':'] + (" " + raw);
    IndexOfFirst(key, ':', " " + raw);
    StripSpaced(raw, 1);
    assert line[|key| + 1..] == Spaces(1) + raw;
  }

  /** `key: value` with a new key adds the value, or is refused with it. */
  lemma PropertyStep(doc: Doc, number: nat, key: string, raw: string)
    requires CleanKey(key) && key !in doc.fields && raw != "" && Trimmed(raw)
    ensures ParseLine(doc, number, key + ": " + raw) ==
            match DecodeScalar(raw) case Ok(v) => Ok(Doc(doc.fields[key := Scalar(v)], false)) case Err(_) => Err(ComplexScalar)
  {
    hide DecodeScalar, Skipped, Strip, IndexOf, IsSpace, BreakFree;
    var line := key + ": " + raw;
    LineParts(key, raw);
    StripTrimmed(key);
    assert line[0] == key[0];
    NotSkipped(line);
  }

  /** The same inside the table. */
  lemma EntryStepOf(doc: Doc, number: nat, key: string, raw: string)
    requires doc.open && CleanKey(key) && key !in doc.Entries() && raw != "" && Trimmed(raw)
    ensures ParseLine(doc, number, "  " + key + ": " + raw) ==
            match DecodeScalar(raw)
            case Ok(v) => Ok(doc.(fields := doc.fields["metadata" := Table(doc.Entries()[key := v])]))
            case Err(_) => Err(ComplexScalar)
  {
    hide DecodeScalar, Skipped, Strip, IndexOf, IsSpace, BreakFree, Doc.Entries;
    var line := key + ": " + raw;
    LineParts(key, raw);
    StripTrimmed(key);
    assert line[0] == key[0] && line[|line| - 1] == raw[|raw| - 1];
    NestedNotSkipped(line);
    assert "  " + key + ": " + raw == "  " + line;
  }

  // ----- what a page of lines says -----

  /** The top-level values. */
  function Properties(lines: seq<Line>): map<string, string> {
    if lines == [] then map[]
    else
      var before, l := Properties(lines[..|lines| - 1]), lines[|lines| - 1];
      if l.Property? then before[l.key := Meaning(l.value)] else before
  }

  /** The metadata table, once there is one. */
  function TableOf(lines: seq<Line>): Option<map<string, string>> {
    if lines == [] then None
    else
      var before, l := TableOf(lines[..|lines| - 1]), lines[|lines| - 1];
      if l.Header? then Some(map[])
      else if l.Entry? && before.Some? then Some(before.value[l.key := Meaning(l.value)])
      else before
  }

  /** The last line that is no note belongs to the table. */
  predicate InTable(lines: seq<Line>) {
    lines != [] &&
    var l := lines[|lines| - 1];
    l.Header? || l.Entry? || (l.Note? && InTable(lines[..|lines| - 1]))
  }

  /** Every line is sound, no key comes twice, and entries stand under the one header. */
  predicate WellLaid(lines: seq<Line>) {
    lines == [] ||
    var before, l := lines[..|lines| - 1], lines[|lines| - 1];
    && WellLaid(before) && Sound(l)
    && match l
       case Property(key, _) => key !in Properties(before) && (key == "metadata" ==> TableOf(before).None?)
       case Header => TableOf(before).None? && "metadata" !in Properties(before)
       case Entry(key, _) => InTable(before) && TableOf(before).Some? && key !in TableOf(before).value
       case Note(_) => true
  }

  function FieldsOf(properties: map<string, string>, table: Option<map<string, string>>): map<string, Field> {
    var scalars := map k | k in properties :: Scalar(properties[k]);
    if table.Some? then scalars["metadata" := Table(table.value)] else scalars
  }

  function DocOf(lines: seq<Line>): Doc {
    Doc(FieldsOf(Properties(lines), TableOf(lines)), InTable(lines))
  }

  lemma {:induction false} TableKeepsName(lines: seq<Line>)
    requires WellLaid(lines) && TableOf(lines).Some?
    ensures "metadata" !in Properties(lines)
  {
    hide Sound, Meaning;
    if lines != [] {
      var before := lines[..|lines| - 1];
      if TableOf(before).Some? { TableKeepsName(before); }
    }
  }

  lemma {:induction false} ParseLast(doc: Doc, number: nat, lines: seq<string>, last: string)
    ensures ParseLines(doc, number, lines + [last]) ==
            match ParseLines(doc, number, lines) case Err(error) => Err(error) case Ok(d) => ParseLine(d, number + |lines|, last)
    decreases |lines|
  {
    hide ParseLine;
    if lines == [] {
      assert [] + [last] == [last];
    } else {
      assert (lines + [last])[1..] == lines[1..] + [last];
      match ParseLine(doc, number, lines[0]) {
        case Err(_) =>
        case Ok(next) => ParseLast(next, number + 1, lines[1..], last);
      }
    }
  }

  lemma NoteStep(doc: Doc, number: nat, text: string)
    requires Sound(Note(text))
    ensures ParseLine(doc, number, text) == Ok(doc)
  {
    hide Strip, ParseEntry, ParseField;
    if !Blank(text) { assert "#" <= LStrip(text); }
    hide LStrip;
  }

  lemma FieldsWithProperty(properties: map<string, string>, table: Option<map<string, string>>, key: string, v: string)
    requires key != "metadata" || table.None?
    ensures FieldsOf(properties[key := v], table) == FieldsOf(properties, table)[key := Scalar(v)]
  {
  }

  lemma FieldsWithTable(properties: map<string, string>, table: Option<map<string, string>>, later: map<string, string>)
    ensures FieldsOf(properties, Some(later)) == FieldsOf(properties, table)["metadata" := Table(later)]
  {
  }

  /** One more line, read onto what the lines before it say. */
  lemma LineRead(before: seq<Line>, l: Line, number: nat)
    requires WellLaid(before + [l]) && WellLaid(before)
    ensures ParseLine(DocOf(before), number, Written(l)) == Ok(DocOf(before + [l]))
  {
    var lines := before + [l];
    assert lines[..|lines| - 1] == before && lines[|lines| - 1] == l;
    var p, t := Properties(before), TableOf(before);
    hide ParseLine, CleanKey, Spell, Meaning;
    match l {
      case Property(key, v) =>
        SpelledShape(v);
        ReadsValue(v);
        PropertyStep(DocOf(before), number, key, Spell(v));
        FieldsWithProperty(p, t, key, Meaning(v));
      case Header =>
        HeaderStep(DocOf(before), number);
        FieldsWithTable(p, t, map[]);
      case Entry(key, v) =>
        SpelledShape(v);
        ReadsValue(v);
        EntryStepOf(DocOf(before), number, key, Spell(v));
        FieldsWithTable(p, t, t.value[key := Meaning(v)]);
      case Note(text) =>
        NoteStep(DocOf(before), number, text);
    }
    hide WellLaid;
  }

  lemma PropertyRefused(doc: Doc, number: nat, key: string, raw: string)
    requires CleanKey(key) && key in doc.fields && raw != "" && Trimmed(raw)
    ensures ParseLine(doc, number, key + ": " + raw) == Err(RepeatedKey)
  {
    hide DecodeScalar, Skipped, Strip, IndexOf, IsSpace, BreakFree;
    var line := key + ": " + raw;
    LineParts(key, raw);
    StripTrimmed(key);
    assert line[0] == key[0];
    NotSkipped(line);
  }

  /** A new key without a value is refused, but for the table's. */
  lemma EmptyRefused(doc: Doc, number: nat, key: string)
    requires CleanKey(key) && key !in doc.fields && key != "metadata"
    ensures ParseLine(doc, number, key + ":") == Err(EmptyValue(key))
  {
    hide DecodeScalar, Skipped, Strip, IndexOf, IsSpace, BreakFree;
    assert (key + ":")[0] == key[0];
    NotSkipped(key + ":");
    HeaderParts(key);
    StripTrimmed(key);
  }

  lemma HeaderRefused(doc: Doc, number: nat)
    requires "metadata" in doc.fields
    ensures ParseLine(doc, number, "metadata:") == Err(RepeatedKey)
  {
    hide DecodeScalar, Skipped, Strip, IndexOf;
    var key := "metadata";
    assert "metadata:" == key + ":";
    NotSkipped(key + ":");
    HeaderParts(key);
    StripTrimmed(key);
  }

  lemma EntryRefused(doc: Doc, number: nat, key: string, raw: string)
    requires CleanKey(key) && raw != "" && Trimmed(raw) && (!doc.open || key in doc.Entries())
    ensures ParseLine(doc, number, "  " + key + ": " + raw) == Err(if doc.open then RepeatedEntry else UnexpectedNested(number))
  {
    hide DecodeScalar, Skipped, Strip, IndexOf, IsSpace, BreakFree, Doc.Entries;
    var line := key + ": " + raw;
    LineParts(key, raw);
    StripTrimmed(key);
    assert line[0] == key[0] && line[|line| - 1] == raw[|raw| - 1];
    NestedNotSkipped(line);
    assert "  " + key + ": " + raw == "  " + line;
  }

  lemma {:induction false} InTableHasTable(lines: seq<Line>)
    requires WellLaid(lines) && InTable(lines)
    ensures TableOf(lines).Some?
  {
    hide Sound, Meaning;
    if lines[|lines| - 1].Note? { InTableHasTable(lines[..|lines| - 1]); }
  }

  /** A sound line that does not belong there is refused. */
  lemma LineRefused(before: seq<Line>, l: Line, number: nat)
    requires WellLaid(before) && Sound(l) && !WellLaid(before + [l])
    ensures ParseLine(DocOf(before), number, Written(l)).Err?
  {
    var lines := before + [l];
    assert lines[..|lines| - 1] == before && lines[|lines| - 1] == l;
    if InTable(before) { InTableHasTable(before); }
    if TableOf(before).Some? { TableKeepsName(before); }
    hide ParseLine, CleanKey, Spell, Meaning;
    match l {
      case Property(key, v) => SpelledShape(v); PropertyRefused(DocOf(before), number, key, Spell(v));
      case Header => HeaderRefused(DocOf(before), number);
      case Entry(key, v) => SpelledShape(v); EntryRefused(DocOf(before), number, key, Spell(v));
      case Note(_) =>
    }
  }

  /** Sound lines are read exactly if they are well laid, and then say what they say. */
  lemma {:induction false} LinesRead(lines: seq<Line>)
    requires forall i :: 0 <= i < |lines| ==> Sound(lines[i])
    ensures var r := ParseLines(EMPTY_DOC, 1, Texts(lines)); (r.Ok? <==> WellLaid(lines)) && (r.Ok? ==> r.value == DocOf(lines))
  {
    hide Sound;
    if lines == [] {
      assert FieldsOf(map[], None) == map[];
    } else {
      var before, l := lines[..|lines| - 1], lines[|lines| - 1];
      assert lines == before + [l];
      LinesRead(before);
      ParseLast(EMPTY_DOC, 1, Texts(before), Written(l));
      if WellLaid(lines) {
        LineRead(before, l, 1 + |before|);
      } else if WellLaid(before) {
        LineRefused(before, l, 1 + |before|);
      }
    }
    hide ParseLines, ParseLine, DocOf, Written;
  }

  // ----- the page inside its document -----

  /** A line that can be joined, split and told from the closing marker, like `PlainLine`; a note may start with a blank. */
  lemma WrittenPlain(l: Line)
    requires Sound(l)
    ensures PlainLine(Written(l))
  {
    match l {
      case Property(key, v) => SpelledShape(v); hide Spell, Writable;
      case Header => HeaderPlain();
      case Entry(key, v) => SpelledShape(v); hide Spell, Writable;
      case Note(text) =>
        NoteStart(text);
    }
  }

  lemma NoteStart(text: string)
    requires Sound(Note(text))
    ensures text[0] != '-'
  {
    BlankMeansAllSpace(text);
    LStripShape(text);
    hide Blank;
  }

  lemma {:induction false} LaidPlain(lines: seq<Line>)
    requires forall i :: 0 <= i < |lines| ==> Sound(lines[i])
    ensures AllPlain(Texts(lines))
  {
    hide PlainLine, Sound, Written;
    if lines != [] {
      LaidPlain(lines[..|lines| - 1]);
      WrittenPlain(lines[|lines| - 1]);
    }
  }

  function Page(lines: seq<Line>, body: string): string {
    "---\n" + Join(Texts(lines)) + "\n---\n" + body
  }

  lemma PageFront(lines: seq<Line>)
    requires lines != [] && forall i :: 0 <= i < |lines| ==> Sound(lines[i])
    ensures var front := Join(Texts(lines));
            && front != "" && SplitLines(front) == Texts(lines)
            && forall i :: 0 <= i < |front| && front[i] == '\n' ==> i + 1 < |front| && front[i + 1] != '-'
  {
    var texts := Texts(lines);
    LaidPlain(lines);
    hide Join, SplitLines, Sound, Texts;
    JoinHead(texts);
    SplitJoin(texts);
    forall i | 0 <= i < |Join(texts)| && Join(texts)[i] == '\n' ensures i + 1 < |Join(texts)| && Join(texts)[i + 1] != '-' {
      NewlineStartsLine(texts, i);
    }
  }

  lemma FramedParsed(text: string, front: string, body: string)
    requires text == "---\n" + front + CLOSING + body
    requires front != "" && forall i :: 0 <= i < |front| && front[i] == '\n' ==> i + 1 < |front| && front[i + 1] != '-'
    ensures Parse(text) ==
            match ParseLines(EMPTY_DOC, 1, SplitLines(front)) case Err(error) => Err(error) case Ok(doc) => Interpret(doc.fields, body)
  {
    hide Parse, ParseLines, SplitLines, Interpret, Find;
    MarkerFound(front, body);
    ParsedAt(text, front, body);
  }

  lemma ParsedAt(text: string, front: string, body: string)
    requires "---\n" <= text && Find(text, CLOSING, 4) == 4 + |front| && 4 + |front| + 5 <= |text|
    requires text[4..4 + |front|] == front && text[4 + |front| + 5..] == body
    ensures Parse(text) ==
            match ParseLines(EMPTY_DOC, 1, SplitLines(front)) case Err(error) => Err(error) case Ok(doc) => Interpret(doc.fields, body)
  {
    hide ParseLines, SplitLines, Interpret, Find;
  }

  lemma PageParsed(lines: seq<Line>, body: string)
    requires lines != [] && forall i :: 0 <= i < |lines| ==> Sound(lines[i])
    ensures var page := Page(lines, body);
            if WellLaid(lines) then Parse(page) == Interpret(DocOf(lines).fields, body) else Parse(page).Err?
  {
    PageFront(lines);
    LinesRead(lines);
    FramedParsed(Page(lines, body), Join(Texts(lines)), body);
    hide Parse, ParseLines, Texts, DocOf, WellLaid, Interpret, Join, SplitLines, Sound;
  }

  // ----- whole documents -----

  function Lookup(m: map<string, string>, key: string): Option<string> {
    if key in m then Some(m[key]) else None
  }

  /** A text that is there, says something and keeps its bound. */
  predicate Says(value: Option<string>, maximum: Option<nat>) {
    value.Some? && Strip(value.value) != "" && (maximum.Some? ==> |value.value| <= maximum.value)
  }

  lemma InterpretsExactly(p: map<string, string>, table: Option<map<string, string>>, body: string)
    requires table.Some? ==> "metadata" !in p
    ensures var r := Interpret(FieldsOf(p, table), body);
            var name, description := Lookup(p, "name"), Lookup(p, "description");
            var license, compatibility, tools := Lookup(p, "license"), Lookup(p, "compatibility"), Lookup(p, "allowed-tools");
            && (r.Ok? <==>
                  && p.Keys <= {"name", "description", "license", "compatibility", "allowed-tools"}
                  && name.Some? && ValidName(name.value) && Says(description, Some(1024))
                  && (license.Some? ==> Says(license, None)) && (compatibility.Some? ==> Says(compatibility, Some(500)))
                  && (tools.Some? ==> Says(tools, None)))
            && (r.Ok? ==> r.value == Skill(Metadata(name.value, description.value, license, compatibility,
                                                    if table.Some? then table.value else map[], tools), body))
  {
    var fields := FieldsOf(p, table);
    hide Strip, ValidName;
    if "name" in p && ValidName(p["name"]) { NameUnchanged(p["name"]); }
    assert forall k :: k != "metadata" ==> (k in fields <==> k in p) && (k in p ==> fields[k] == Scalar(p[k]));
    assert "metadata" in fields <==> table.Some? || "metadata" in p;
    assert fields.Keys <= TOP_LEVEL <==> p.Keys <= TOP_LEVEL;
    assert "metadata" in p ==> fields["metadata"] == Scalar(p["metadata"]);
  }

  /**
   * A page of sound lines, in any order and any mix of spellings, is accepted exactly if no key comes twice, entries stand under
   * one header, and the six fields are valid; every field is then what its own line means, and the body is kept as it is.
   */
  lemma ReadsExactly(lines: seq<Line>, body: string)
    requires lines != [] && forall i :: 0 <= i < |lines| ==> Sound(lines[i])
    ensures var r, p, table := Parse(Page(lines, body)), Properties(lines), TableOf(lines);
            var name, description := Lookup(p, "name"), Lookup(p, "description");
            var license, compatibility, tools := Lookup(p, "license"), Lookup(p, "compatibility"), Lookup(p, "allowed-tools");
            && (r.Ok? <==>
                  && WellLaid(lines)
                  && p.Keys <= {"name", "description", "license", "compatibility", "allowed-tools"}
                  && name.Some? && ValidName(name.value) && Says(description, Some(1024))
                  && (license.Some? ==> Says(license, None)) && (compatibility.Some? ==> Says(compatibility, Some(500)))
                  && (tools.Some? ==> Says(tools, None)))
            && (r.Ok? ==> r.value == Skill(Metadata(name.value, description.value, license, compatibility,
                                                    if table.Some? then table.value else map[], tools), body))
  {
    PageParsed(lines, body);
    if WellLaid(lines) {
      if TableOf(lines).Some? { TableKeepsName(lines); }
      InterpretsExactly(Properties(lines), TableOf(lines), body);
    }
    hide Parse, Interpret, Page, Says, ValidName, FieldsOf, WellLaid, Sound;
  }

  function OptionalProperty(key: string, value: Option<string>): seq<Line> {
    if value.Some? then [Property(key, DoubleQuoted(value.value))] else []
  }

  function RenderedHead(n: Native): seq<Line> {
    [Property("name", DoubleQuoted(n.name)), Property("description", DoubleQuoted(n.description))]
    + OptionalProperty("license", n.license) + OptionalProperty("compatibility", n.compatibility) + [Header]
  }

  function RenderedTable(keys: seq<string>, entries: map<string, string>): seq<Line>
    requires forall k :: k in keys ==> k in entries
  {
    seq(|keys|, i requires 0 <= i < |keys| => Entry(keys[i], DoubleQuoted(entries[keys[i]])))
  }

  lemma HeadTexts(n: Native)
    ensures Texts(RenderedHead(n)) == HeadLines(n)
  {
    hide YamlScalar;
    var a, b := Texts(RenderedHead(n)), HeadLines(n);
    assert |a| == |b| && forall i :: 0 <= i < |a| ==> a[i] == b[i];
  }

  lemma TableTexts(keys: seq<string>, entries: map<string, string>)
    requires forall k :: k in keys ==> k in entries
    ensures Texts(RenderedTable(keys, entries)) == EntryLines(keys, entries)
  {
    hide YamlScalar;
    forall i | 0 <= i < |keys| ensures Texts(RenderedTable(keys, entries))[i] == EntryLines(keys, entries)[i] {
      Nested(keys[i], YamlScalar(entries[keys[i]]));
    }
  }

  lemma Nested(key: string, raw: string)
    ensures "  " + key + ": " + raw == "  " + (key + ": " + raw)
  {
  }

  lemma TextsConcat(a: seq<Line>, b: seq<Line>)
    ensures Texts(a + b) == Texts(a) + Texts(b)
  {
    hide Written;
    assert forall i :: 0 <= i < |a + b| ==> Texts(a + b)[i] == (Texts(a) + Texts(b))[i];
  }

  /** What the renderer writes is such a page: the fields in a fixed order, then the table in the order of its keys. */
  lemma RendersPage(n: Native)
    requires Rendered(n).Ok?
    ensures var entries := ExportedEntries(n);
            Rendered(n).value == Page(RenderedHead(n) + RenderedTable(SortedKeys(entries.Keys), entries), "\n" + Strip(n.instructions) + "\n")
  {
    var entries := ExportedEntries(n);
    var keys := SortedKeys(entries.Keys);
    RenderedText(n);
    DocumentText(n);
    HeadTexts(n);
    TableTexts(keys, entries);
    hide RenderedHead, RenderedTable, HeadLines, EntryLines, Texts, Join, Strip, SortedKeys, ExportedEntries, Rendered, Checked;
    TextsConcat(RenderedHead(n), RenderedTable(keys, entries));
  }

  /** A bare value whose first character is a YAML indicator is refused, at the top and in the table. */
  lemma IndicatorsRefused(doc: Doc, number: nat, key: string, raw: string)
    requires CleanKey(key) && raw != "" && Trimmed(raw) && raw[0] in "[{&*!|>"
    ensures key !in doc.fields ==> ParseLine(doc, number, key + ": " + raw) == Err(ComplexScalar)
    ensures doc.open && key !in doc.Entries() ==> ParseLine(doc, number, "  " + key + ": " + raw) == Err(ComplexScalar)
  {
    RefusesExactly(raw);
    if key !in doc.fields { PropertyStep(doc, number, key, raw); }
    if doc.open && key !in doc.Entries() { EntryStepOf(doc, number, key, raw); }
    hide ParseLine, DecodeScalar;
  }

  /** Whatever the text, nothing invalid is accepted, and the body begins after the closing marker. */
  lemma AcceptedIsValid(text: string)
    requires Parse(text).Ok?
    ensures var skill := Parse(text).value;
            var m := skill.metadata;
            && ValidName(m.name) && Says(Some(m.description), Some(1024))
            && (m.license.Some? ==> Says(m.license, None)) && (m.compatibility.Some? ==> Says(m.compatibility, Some(500)))
            && (m.declaredAllowedTools.Some? ==> Says(m.declaredAllowedTools, None))
            && "---\n" <= text && (exists k :: 4 <= k && MatchesAt(text, "\n---\n", k) && skill.instructions == text[k + 5..])
  {
    hide ParseLines, Strip, ValidName, SplitLines;
    var marker := Find(text, CLOSING, 4);
    assert MatchesAt(text, "\n---\n", marker);
  }

  // ----- names -----

  predicate Word(w: string) {
    w != "" && forall i :: 0 <= i < |w| ==> 'a' <= w[i] <= 'z' || '0' <= w[i] <= '9'
  }

  function Hyphenated(words: seq<string>): string {
    if |words| == 0 then "" else if |words| == 1 then words[0] else words[0] + "-" + Hyphenated(words[1..])
  }

  ghost predicate Names(words: seq<string>, name: string) {
    words != [] && (forall i :: 0 <= i < |words| ==> Word(words[i])) && name == Hyphenated(words)
  }

  predicate Hyphens(name: string) {
    && name != ""
    && (forall i :: 0 <= i < |name| ==> NameChar(name[i]))
    && name[0] != '-' && name[|name| - 1] != '-'
    && (forall i :: 0 < i < |name| ==> !(name[i - 1] == '-' && name[i] == '-'))
  }

  lemma HyphensAfter(name: string, k: nat)
    requires Hyphens(name) && k < |name| && name[k] == '-'
    ensures Hyphens(name[k + 1..])
  {
    var rest := name[k + 1..];
    assert forall i :: 0 <= i < |rest| ==> rest[i] == name[k + 1 + i];
  }

  lemma {:induction false} HyphensHaveWords(name: string) returns (words: seq<string>)
    requires Hyphens(name)
    ensures Names(words, name)
  {
    var k := IndexOf(name, '-');
    if k == -1 {
      words := [name];
      forall i | 0 <= i < |name| ensures name[i] != '-' { assert name[i] in name; }
    } else {
      var rest := name[k + 1..];
      HyphensAfter(name, k);
      var more := HyphensHaveWords(rest);
      words := [name[..k]] + more;
      forall i | 0 <= i < k ensures name[i] != '-' { assert name[i] in name[..k]; }
      assert words[1..] == more;
      assert name == name[..k] + "-" + rest;
    }
  }

  lemma {:induction false} WordsHaveHyphens(words: seq<string>)
    requires words != [] && forall i :: 0 <= i < |words| ==> Word(words[i])
    ensures Hyphens(Hyphenated(words))
  {
    if |words| > 1 {
      WordsHaveHyphens(words[1..]);
      var w, rest := words[0], Hyphenated(words[1..]);
      var name := w + "-" + rest;
      assert forall i :: 0 <= i < |w| ==> name[i] == w[i];
      assert forall i :: |w| < i < |name| ==> name[i] == rest[i - |w| - 1];
    }
  }

  /** A valid name is one to 64 characters of non-empty words of letters and digits, each joined to the next by one hyphen. */
  lemma NamesExactly(name: string)
    ensures ValidName(name) <==> |name| <= 64 && exists words :: Names(words, name)
  {
    assert ValidName(name) <==> |name| <= 64 && Hyphens(name);
    if Hyphens(name) {
      var words := HyphensHaveWords(name);
    }
    if words :| Names(words, name) {
      WordsHaveHyphens(words);
    }
  }
}
