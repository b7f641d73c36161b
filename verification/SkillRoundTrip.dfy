/** Reading a rendered SKILL.md back: exactly which exports survive, and what happens to the others. */
module SkillRoundTrip {
  import opened Prelude
  import opened Text
  import opened SkillScalar
  import opened Sorting
  import opened SkillDocument

  /** A metadata key that a line of the frontmatter can carry. */
  predicate CleanKey(key: string) {
    && key != "" && Trimmed(key) && BreakFree(key)
    && ':' !in key && key[0] != '#'
  }

  /** A value that a quoted scalar can carry. */
  predicate PortableText(value: string) {
    NoForeignBreak(value) && !HasBackslashN(value)
  }

  predicate OptionalHolds(value: Option<string>, holds: string -> bool) {
    value.Some? ==> holds(value.value)
  }

  /** Lines can carry the export: clean keys, and no line break but the newline. */
  predicate Carried(n: Native) {
    && NoForeignBreak(n.description)
    && OptionalHolds(n.license, NoForeignBreak)
    && OptionalHolds(n.compatibility, NoForeignBreak)
    && forall k :: k in ExportedEntries(n) ==> CleanKey(k) && NoForeignBreak(ExportedEntries(n)[k])
  }

  /** The export conditions under which nothing is lost. */
  predicate Portable(n: Native) {
    && PortableText(n.description)
    && OptionalHolds(n.license, PortableText)
    && OptionalHolds(n.compatibility, PortableText)
    && forall k :: k in ExportedEntries(n) ==> CleanKey(k) && PortableText(ExportedEntries(n)[k])
  }

  /** What a faithful reader returns for the rendered export. */
  function Expected(n: Native): Skill {
    Skill(Metadata(n.name, n.description, n.license, n.compatibility, ExportedEntries(n), None),
          "\n" + Strip(n.instructions) + "\n")
  }

  function GarbledOption(value: Option<string>): Option<string> {
    match value case None => None case Some(v) => Some(Garbled(v))
  }

  function GarbledEntries(entries: map<string, string>): map<string, string> {
    map k | k in entries :: Garbled(entries[k])
  }

  /** What the reader does return, when lines can carry the export. */
  function Received(n: Native): Skill {
    Skill(Metadata(n.name, Garbled(n.description), GarbledOption(n.license), GarbledOption(n.compatibility),
                   GarbledEntries(ExportedEntries(n)), None),
          "\n" + Strip(n.instructions) + "\n")
  }

  // ----- one line -----

  lemma {:induction false} IndexOfFirst(prefix: string, c: char, rest: string)
    requires c !in prefix
    ensures IndexOf(prefix + [c] + rest, c) == |prefix|
  {
    if prefix != [] {
      assert (prefix + [c] + rest)[1..] == prefix[1..] + [c] + rest;
      IndexOfFirst(prefix[1..], c, rest);
    }
  }

  lemma QuotedShape(v: string)
    ensures var q := YamlScalar(v); |q| >= 2 && q[0] == '"' && q[|q| - 1] == '"' && Trimmed(q)
  {
  }

  lemma FieldLineParts(key: string, v: string)
    requires ':' !in key
    ensures var raw := FieldLine(key, v);
            IndexOf(raw, ':') == |key| && raw[..|key|] == key && Strip(raw[|key| + 1..]) == YamlScalar(v)
  {
    var raw := FieldLine(key, v);
    assert raw == key + [':'] + (" " + YamlScalar(v));
    IndexOfFirst(key, ':', " " + YamlScalar(v));
    QuotedShape(v);
    StripSpaced(YamlScalar(v), 1);
    assert raw[|key| + 1..] == Spaces(1) + YamlScalar(v);
  }

  function Spaces(n: nat): string {
    if n == 0 then "" else " " + Spaces(n - 1)
  }

  lemma {:induction false} LStripSpaced(s: string, n: nat)
    requires s != [] && !IsSpace(s[0])
    ensures LStrip(Spaces(n) + s) == s
  {
    if n == 0 {
      assert Spaces(0) + s == s;
    } else {
      LStripSpaced(s, n - 1);
      LStripOne(Spaces(n - 1) + s);
      assert Spaces(n) + s == " " + (Spaces(n - 1) + s);
    }
  }

  lemma LStripOne(s: string)
    ensures LStrip(" " + s) == LStrip(s)
  {
    assert (" " + s)[1..] == s;
  }

  /** Leading blanks are cut, and nothing else. */
  lemma StripSpaced(s: string, n: nat)
    requires s != [] && Trimmed(s)
    ensures LStrip(Spaces(n) + s) == s && Strip(Spaces(n) + s) == s
  {
    hide IsSpace;
    LStripSpaced(s, n);
    StripTrimmed(s);
  }

  lemma FieldLineTrimmed(key: string, v: string)
    requires CleanKey(key)
    ensures var raw := FieldLine(key, v); raw != [] && Trimmed(raw) && raw[0] == key[0]
  {
    QuotedShape(v);
  }

  lemma NotSkipped(raw: string)
    requires raw != [] && !IsSpace(raw[0]) && raw[0] != '#'
    ensures !Skipped(raw) && !("  " <= raw)
  {
    hide RStrip, Find;
    assert LStrip(raw) == raw;
    RStripKeepsHead(raw);
    assert raw[0] != ' ';
  }

  lemma NestedNotSkipped(line: string)
    requires line != [] && Trimmed(line) && line[0] != '#'
    ensures var raw := "  " + line; !Skipped(raw) && "  " <= raw && Strip(raw) == line
  {
    hide RStrip, Strip, LStrip, IsSpace;
    assert Spaces(2) == " " + Spaces(1) == "  ";
    StripSpaced(line, 2);
  }

  /** A rendered entry line adds its entry. */
  lemma EntryStep(doc: Doc, number: nat, key: string, v: string)
    requires doc.open && CleanKey(key) && key !in doc.Entries()
    ensures ParseLine(doc, number, EntryLine(key, v)) ==
            Ok(doc.(fields := doc.fields["metadata" := Table(doc.Entries()[key := Garbled(v)])]))
  {
    hide YamlScalar, DecodeScalar, Garbled, Skipped, Strip, FieldLine, IndexOf, Doc.Entries;
    FieldLineTrimmed(key, v);
    NestedNotSkipped(FieldLine(key, v));
    FieldLineParts(key, v);
    StripTrimmed(key);
    DecodeEncoded(v);
  }

  /** A rendered top-level line adds its field and closes the table. */
  lemma FieldStep(doc: Doc, number: nat, key: string, v: string)
    requires CleanKey(key) && key !in doc.fields
    ensures ParseLine(doc, number, FieldLine(key, v)) == Ok(Doc(doc.fields[key := Scalar(Garbled(v))], false))
  {
    hide YamlScalar, DecodeScalar, Garbled, Skipped, Strip, FieldLine, IndexOf;
    FieldLineTrimmed(key, v);
    NotSkipped(FieldLine(key, v));
    FieldLineParts(key, v);
    StripTrimmed(key);
    QuotedShape(v);
    DecodeEncoded(v);
  }

  lemma HeaderParts(key: string)
    requires ':' !in key
    ensures var raw := key + ":"; IndexOf(raw, ':') == |key| && raw[..|key|] == key && Strip(raw[|key| + 1..]) == ""
  {
    var raw := key + ":";
    assert raw == key + [':'] + "";
    IndexOfFirst(key, ':', "");
    assert raw[|key| + 1..] == "";
    StripTrimmed("");
  }

  /** The table header opens an empty table. */
  lemma HeaderStep(doc: Doc, number: nat)
    requires "metadata" !in doc.fields
    ensures ParseLine(doc, number, "metadata:") == Ok(Doc(doc.fields["metadata" := Table(map[])], true))
  {
    hide DecodeScalar, Skipped, Strip, IndexOf;
    var key := "metadata";
    assert "metadata:" == key + ":";
    NotSkipped(key + ":");
    HeaderParts(key);
    StripTrimmed(key);
  }

  // ----- the frontmatter -----

  lemma ParseFirst(doc: Doc, number: nat, line: string, rest: seq<string>)
    ensures ParseLines(doc, number, [line] + rest) ==
            match ParseLine(doc, number, line)
            case Err(error) => Err(error)
            case Ok(next) => ParseLines(next, number + 1, rest)
  {
    assert ([line] + rest)[1..] == rest;
  }

  lemma OptionalStep(doc: Doc, number: nat, key: string, value: Option<string>, rest: seq<string>)
    requires CleanKey(key) && key !in doc.fields && !doc.open
    ensures ParseLines(doc, number, OptionalLine(key, value) + rest) ==
            ParseLines(Doc(WithOptional(doc.fields, key, value), false), number + |OptionalLine(key, value)|, rest)
  {
    hide YamlScalar, FieldLine, ParseLine, Garbled, ParseLines;
    match value
    case None =>
      assert OptionalLine(key, value) + rest == rest;
    case Some(v) =>
      FieldStep(doc, number, key, v);
      ParseFirst(doc, number, FieldLine(key, v), rest);
  }

  function WithOptional(fields: map<string, Field>, key: string, value: Option<string>): map<string, Field> {
    match value case None => fields case Some(v) => fields[key := Scalar(Garbled(v))]
  }

  function AddEntry(doc: Doc, key: string, v: string): Doc {
    doc.(fields := doc.fields["metadata" := Table(doc.Entries()[key := Garbled(v)])])
  }

  function AddEntries(doc: Doc, keys: seq<string>, entries: map<string, string>): Doc
    requires forall k :: k in keys ==> k in entries
    decreases |keys|
  {
    if keys == [] then doc else AddEntries(AddEntry(doc, keys[0], entries[keys[0]]), keys[1..], entries)
  }

  lemma {:induction false} EntriesParsed(doc: Doc, number: nat, keys: seq<string>, entries: map<string, string>)
    requires doc.open
    requires forall k :: k in keys ==> k in entries && CleanKey(k) && k !in doc.Entries()
    requires forall i, j :: 0 <= i < j < |keys| ==> keys[i] != keys[j]
    ensures ParseLines(doc, number, EntryLines(keys, entries)) == Ok(AddEntries(doc, keys, entries))
    decreases |keys|
  {
    hide ParseLine, CleanKey, Garbled, EntryLine;
    if keys != [] {
      var key := keys[0];
      var next := AddEntry(doc, key, entries[key]);
      EntryStep(doc, number, key, entries[key]);
      ParseFirst(doc, number, EntryLine(key, entries[key]), EntryLines(keys[1..], entries));
      forall k | k in keys[1..] ensures k !in next.Entries() {
        assert k in keys && k != key;
      }
      EntriesParsed(next, number + 1, keys[1..], entries);
    }
  }

  function Accumulate(table: map<string, string>, keys: seq<string>, entries: map<string, string>): map<string, string>
    requires forall k :: k in keys ==> k in entries
    decreases |keys|
  {
    if keys == [] then table else Accumulate(table[keys[0] := Garbled(entries[keys[0]])], keys[1..], entries)
  }

  /** The table after the entries: each key with its garbled value. */
  lemma {:induction false} AccumulateAll(table: map<string, string>, keys: seq<string>, entries: map<string, string>)
    requires forall k :: k in keys ==> k in entries
    ensures Accumulate(table, keys, entries) == table + map k | k in keys :: Garbled(entries[k])
    decreases |keys|
  {
    hide Garbled;
    if keys != [] { AccumulateAll(table[keys[0] := Garbled(entries[keys[0]])], keys[1..], entries); }
  }

  lemma {:induction false} AddEntriesTable(doc: Doc, keys: seq<string>, entries: map<string, string>)
    requires forall k :: k in keys ==> k in entries
    requires "metadata" in doc.fields && doc.fields["metadata"].Table?
    ensures AddEntries(doc, keys, entries) ==
            doc.(fields := doc.fields["metadata" := Table(Accumulate(doc.Entries(), keys, entries))])
    decreases |keys|
  {
    hide Garbled;
    if keys == [] {
      assert doc.fields["metadata" := Table(doc.Entries())] == doc.fields;
    } else {
      AddEntriesTable(AddEntry(doc, keys[0], entries[keys[0]]), keys[1..], entries);
    }
  }

  function RequiredFields(n: Native): map<string, Field> {
    EMPTY_DOC.fields["name" := Scalar(Garbled(n.name))]["description" := Scalar(Garbled(n.description))]
  }

  function ReadFields(n: Native): map<string, Field> {
    WithOptional(WithOptional(RequiredFields(n), "license", n.license), "compatibility", n.compatibility)
  }

  lemma RequiredParsed(n: Native, rest: seq<string>)
    ensures ParseLines(EMPTY_DOC, 1, RequiredLines(n) + rest) == ParseLines(Doc(RequiredFields(n), false), 3, rest)
  {
    hide ParseLines, ParseLine, FieldLine, YamlScalar, Garbled;
    var name, description := FieldLine("name", n.name), FieldLine("description", n.description);
    assert RequiredLines(n) + rest == [name] + ([description] + rest);
    ParseFirst(EMPTY_DOC, 1, name, [description] + rest);
    FieldStep(EMPTY_DOC, 1, "name", n.name);
    var next := Doc(EMPTY_DOC.fields["name" := Scalar(Garbled(n.name))], false);
    ParseFirst(next, 2, description, rest);
    FieldStep(next, 2, "description", n.description);
  }

  /** The number of the first entry line. */
  function EntriesStart(n: Native): nat {
    4 + |OptionalLine("license", n.license)| + |OptionalLine("compatibility", n.compatibility)|
  }

  lemma HeadParsed(n: Native, rest: seq<string>)
    ensures ParseLines(EMPTY_DOC, 1, HeadLines(n) + rest) ==
            ParseLines(Doc(ReadFields(n)["metadata" := Table(map[])], true), EntriesStart(n), rest)
  {
    hide ParseLines, ParseLine, FieldLine, YamlScalar, Garbled, OptionalLine, RequiredLines;
    var license, compatibility := OptionalLine("license", n.license), OptionalLine("compatibility", n.compatibility);
    var l4 := ["metadata:"] + rest;
    var l3 := compatibility + l4;
    assert HeadLines(n) + rest == RequiredLines(n) + (license + l3);
    RequiredParsed(n, license + l3);
    var d2 := Doc(RequiredFields(n), false);
    OptionalStep(d2, 3, "license", n.license, l3);
    var d3 := Doc(WithOptional(d2.fields, "license", n.license), false);
    var k3 := 3 + |license|;
    OptionalStep(d3, k3, "compatibility", n.compatibility, l4);
    var d4 := Doc(ReadFields(n), false);
    var k4 := k3 + |compatibility|;
    HeaderStep(d4, k4);
    ParseFirst(d4, k4, "metadata:", rest);
  }

  /** The reader fills the dictionary with every rendered line. */
  lemma FrontmatterParsed(n: Native)
    requires Carried(n)
    ensures ParseLines(EMPTY_DOC, 1, FrontmatterLines(n)) ==
            Ok(Doc(ReadFields(n)["metadata" := Table(GarbledEntries(ExportedEntries(n)))], true))
  {
    hide ParseLines, Garbled, EntryLines, HeadLines, ReadFields, CleanKey, NoForeignBreak, AddEntries, ExportedEntries, GarbledEntries;
    var entries := ExportedEntries(n);
    var keys := SortedKeys(entries.Keys);
    HeadParsed(n, EntryLines(keys, entries));
    var doc := Doc(ReadFields(n)["metadata" := Table(map[])], true);
    forall i, j | 0 <= i < j < |keys| ensures keys[i] != keys[j] { BelowIrreflexive(keys[i]); }
    EntriesParsed(doc, EntriesStart(n), keys, entries);
    AddEntriesTable(doc, keys, entries);
    AccumulateAll(doc.Entries(), keys, entries);
    AddedIsAll(doc, keys, entries);
    Overwrite(ReadFields(n), doc.Entries() + map k | k in keys :: Garbled(entries[k]));
  }

  lemma Overwrite(fields: map<string, Field>, entries: map<string, string>)
    ensures fields["metadata" := Table(map[])]["metadata" := Table(entries)] == fields["metadata" := Table(entries)]
  {
  }

  lemma AddedIsAll(doc: Doc, keys: seq<string>, entries: map<string, string>)
    requires doc.Entries() == map[] && forall k :: k in keys <==> k in entries
    ensures doc.Entries() + (map k | k in keys :: Garbled(entries[k])) == GarbledEntries(entries)
  {
  }

  // ----- the document -----

  /** Lines that can be joined, split and told from the closing marker. */
  predicate PlainLine(line: string) {
    line != [] && BreakFree(line) && line[0] != '-'
  }

  lemma FieldLinePlain(key: string, v: string)
    requires CleanKey(key) && NoForeignBreak(v)
    ensures BreakFree(FieldLine(key, v)) && BreakFree(EntryLine(key, v))
  {
    YamlScalarIsEncode(v);
    EncodeBreakFree(v);
  }

  predicate AllPlain(lines: seq<string>) {
    forall i :: 0 <= i < |lines| ==> PlainLine(lines[i])
  }

  lemma PlainConcat(a: seq<string>, b: seq<string>)
    requires AllPlain(a) && AllPlain(b)
    ensures AllPlain(a + b)
  {
  }

  lemma KnownKeysClean()
    ensures CleanKey("name") && CleanKey("description") && CleanKey("license") && CleanKey("compatibility")
  {
  }

  lemma HeadPlain(n: Native)
    requires ValidName(n.name) && Carried(n)
    ensures AllPlain(HeadLines(n))
  {
    KnownKeysClean();
    hide PlainLine, YamlScalar, FieldLine, CleanKey, NoForeignBreak, ExportedEntries, ValidName;
    NameUnchanged(n.name);
    FieldPlain("name", n.name);
    FieldPlain("description", n.description);
    if n.license.Some? { FieldPlain("license", n.license.value); }
    if n.compatibility.Some? { FieldPlain("compatibility", n.compatibility.value); }
    HeaderPlain();
  }

  lemma FieldPlain(key: string, v: string)
    requires CleanKey(key) && NoForeignBreak(v) && key[0] != '-'
    ensures PlainLine(FieldLine(key, v))
  {
    hide YamlScalar, IsLineBreak;
    FieldLinePlain(key, v);
  }

  lemma HeaderPlain()
    ensures PlainLine("metadata:")
  {
  }

  lemma FrontmatterPlain(n: Native)
    requires ValidName(n.name) && Carried(n)
    ensures AllPlain(FrontmatterLines(n))
  {
    hide YamlScalar, HeadLines, FieldLine, ExportedEntries, CleanKey, NoForeignBreak, BreakFree;
    var entries := ExportedEntries(n);
    var keys := SortedKeys(entries.Keys);
    HeadPlain(n);
    var lines := EntryLines(keys, entries);
    forall i | 0 <= i < |lines| ensures PlainLine(lines[i]) {
      FieldLinePlain(keys[i], entries[keys[i]]);
    }
    PlainConcat(HeadLines(n), lines);
  }

  /** A newline inside joined lines is followed by the start of a line. */
  lemma {:induction false} NewlineStartsLine(lines: seq<string>, i: nat)
    requires lines != [] && AllPlain(lines)
    requires i < |Join(lines)| && Join(lines)[i] == '\n'
    ensures i + 1 < |Join(lines)| && Join(lines)[i + 1] != '-'
  {
    var k := |lines[0]|;
    assert forall j :: 0 <= j < k ==> !IsLineBreak(lines[0][j]);
    if |lines| > 1 {
      JoinHead(lines[1..]);
      if i > k {
        NewlineStartsLine(lines[1..], i - k - 1);
      }
    }
  }

  lemma JoinHead(lines: seq<string>)
    requires lines != [] && lines[0] != []
    ensures Join(lines) != [] && Join(lines)[0] == lines[0][0]
  {
  }

  lemma DocumentText(n: Native)
    ensures Join(["---"] + FrontmatterLines(n) + Closing(n)) ==
            "---\n" + Join(FrontmatterLines(n)) + CLOSING + ("\n" + Strip(n.instructions) + "\n")
  {
    hide Join, Strip, HeadLines, EntryLines, SortedKeys;
    var lines := FrontmatterLines(n);
    HeadNonEmpty(n);
    FramedText(lines, Strip(n.instructions));
  }

  lemma FramedText(lines: seq<string>, body: string)
    requires lines != []
    ensures Join(["---"] + lines + ["---", "", body, ""]) == "---\n" + Join(lines) + CLOSING + ("\n" + body + "\n")
  {
    hide Join;
    JoinAppend(["---"] + lines, ["---", "", body, ""]);
    JoinFirst("---", lines);
    ClosingText(body);
    Regroup("---", "\n", Join(lines), "\n" + body + "\n");
  }

  lemma Regroup(dashes: string, newline: string, front: string, rest: string)
    ensures dashes + newline + front + newline + (dashes + newline + rest) ==
            (dashes + newline) + front + (newline + dashes + newline) + rest
  {
  }

  lemma HeadNonEmpty(n: Native)
    ensures |HeadLines(n)| > 0 && HeadLines(n)[0] == FieldLine("name", n.name)
  {
    hide FieldLine;
  }

  lemma JoinFirst(line: string, rest: seq<string>)
    requires rest != []
    ensures Join([line] + rest) == line + "\n" + Join(rest)
  {
    assert ([line] + rest)[1..] == rest;
  }

  lemma ClosingText(body: string)
    ensures Join(["---", "", body, ""]) == "---\n" + ("\n" + body + "\n")
  {
    hide Join;
    JoinFirst(body, [""]);
    JoinFirst("", [body] + [""]);
    JoinFirst("---", [""] + ([body] + [""]));
    assert ["---", "", body, ""] == ["---"] + ([""] + ([body] + [""]));
    JoinLast("");
  }

  lemma JoinLast(line: string)
    ensures Join([line]) == line
  {
  }

  /** The closing marker is found right after the frontmatter. */
  lemma MarkerFound(front: string, rest: string)
    requires front != []
    requires forall i :: 0 <= i < |front| && front[i] == '\n' ==> i + 1 < |front| && front[i + 1] != '-'
    ensures var text := "---\n" + front + CLOSING + rest;
            && Find(text, CLOSING, 4) == 4 + |front|
            && text[4..4 + |front|] == front && text[4 + |front| + 5..] == rest
            && "---\n" <= text
  {
    var text := "---\n" + front + CLOSING + rest;
    var at := 4 + |front|;
    assert text[at..at + 5] == CLOSING;
    assert MatchesAt(text, CLOSING, at);
    forall i | 4 <= i < at ensures !MatchesAt(text, CLOSING, i) {
      assert text[i] == front[i - 4];
      assert i + 1 < at ==> text[i + 1] == front[i - 4 + 1];
      MatchStart(text, i);
    }
  }

  lemma MatchStart(text: string, i: nat)
    ensures MatchesAt(text, CLOSING, i) ==> text[i] == '\n' && text[i + 1] == '-'
  {
    if MatchesAt(text, CLOSING, i) {
      assert text[i] == text[i..i + 5][0];
      assert text[i + 1] == text[i..i + 5][1];
    }
  }

  lemma NameUnchanged(name: string)
    requires ValidName(name)
    ensures Garbled(name) == name && !Blank(name) && NoForeignBreak(name)
  {
    hide Garbled, Blank;
    assert forall i :: 0 <= i < |name| ==> NameChar(name[i]) && name[i] != '\\';
    GarbledFixpoint(name);
    SolidNotBlank(name, 0);
  }

  /** What the renderer has checked. */
  predicate Checked(n: Native) {
    && ValidName(n.name)
    && ValidText(n.description, 1024)
    && !Blank(n.instructions)
    && (n.compatibility.Some? ==> ValidText(n.compatibility.value, 500))
    && (n.license.Some? ==> !Blank(n.license.value))
  }

  lemma RenderedText(n: Native)
    requires Rendered(n).Ok?
    ensures Checked(n)
    ensures Rendered(n).value == Join(["---"] + FrontmatterLines(n) + Closing(n))
  {
    hide ValidName, Blank, Join, FrontmatterLines, Closing, ExportedEntries;
  }

  /** The checks of the reader pass on what it read. */
  lemma InterpretRead(n: Native, entries: map<string, string>, instructions: string)
    requires Checked(n)
    ensures Interpret(ReadFields(n)["metadata" := Table(entries)], instructions) ==
            Ok(Skill(Metadata(n.name, Garbled(n.description), GarbledOption(n.license),
                              GarbledOption(n.compatibility), entries, None), instructions))
  {
    hide ValidName, Garbled, Blank;
    NameUnchanged(n.name);
    GarbledLength(n.description);
    GarbledBlank(n.description);
    if n.license.Some? { GarbledBlank(n.license.value); }
    if n.compatibility.Some? {
      GarbledLength(n.compatibility.value);
      GarbledBlank(n.compatibility.value);
    }
  }

  lemma GarbledLength(v: string)
    ensures |Garbled(v)| == |v|
  {
  }

  lemma FrontReady(n: Native)
    requires Checked(n) && Carried(n)
    ensures var front := Join(FrontmatterLines(n));
            && front != [] && SplitLines(front) == FrontmatterLines(n)
            && forall i :: 0 <= i < |front| && front[i] == '\n' ==> i + 1 < |front| && front[i + 1] != '-'
  {
    hide Join, SplitLines, HeadLines, EntryLines, SortedKeys, ExportedEntries, Carried, ValidText, Blank, ValidName, FieldLine;
    var lines := FrontmatterLines(n);
    FrontmatterPlain(n);
    HeadNonEmpty(n);
    JoinHead(lines);
    SplitJoin(lines);
    forall i | 0 <= i < |Join(lines)| && Join(lines)[i] == '\n'
      ensures i + 1 < |Join(lines)| && Join(lines)[i + 1] != '-'
    {
      NewlineStartsLine(lines, i);
    }
  }

  /** Whenever lines can carry the export, reading succeeds and garbles exactly the escaped `n`s. */
  lemma ReadRendered(n: Native)
    requires Rendered(n).Ok? && Carried(n)
    ensures Parse(Rendered(n).value) == Ok(Received(n))
  {
    hide Join, SplitLines, FrontmatterLines, Closing, Strip, ParseLines, Interpret, Find, Carried, Checked, Rendered,
      GarbledOption, GarbledEntries, ReadFields, Garbled, ExportedEntries;
    var front := Join(FrontmatterLines(n));
    var rest := "\n" + Strip(n.instructions) + "\n";
    RenderedText(n);
    DocumentText(n);
    FrontReady(n);
    MarkerFound(front, rest);
    FrontmatterParsed(n);
    InterpretRead(n, GarbledEntries(ExportedEntries(n)), rest);
  }

  lemma ReceivedIsExpected(n: Native)
    requires Carried(n)
    ensures Received(n) == Expected(n) <==> Portable(n)
  {
    GarbledFixpoint(n.description);
    if n.license.Some? { GarbledFixpoint(n.license.value); }
    if n.compatibility.Some? { GarbledFixpoint(n.compatibility.value); }
    var entries := ExportedEntries(n);
    forall k | k in entries ensures Garbled(entries[k]) == entries[k] <==> !HasBackslashN(entries[k]) {
      GarbledFixpoint(entries[k]);
    }
    if Received(n) == Expected(n) {
      forall k | k in entries ensures PortableText(entries[k]) {
        assert GarbledEntries(entries)[k] == entries[k];
      }
    }
    if Portable(n) {
      assert GarbledEntries(entries) == entries;
    }
  }

  // ----- what every reading guarantees -----

  /** Anything the reader accepts has clean metadata keys and values without foreign line breaks. */
  predicate WellRead(fields: map<string, Field>) {
    forall k :: k in fields ==>
      match fields[k]
      case Scalar(text) => NoForeignBreak(text)
      case Table(entries) => forall e :: e in entries ==> CleanKey(e) && NoForeignBreak(entries[e])
  }

  lemma StripBreakFree(s: string)
    requires BreakFree(s)
    ensures BreakFree(Strip(s))
  {
    hide IsSpace, IsLineBreak, Strip;
    StripShape(s);
    var i :| MatchesAt(s, Strip(s), i);
    forall j | 0 <= j < |Strip(s)| ensures !IsLineBreak(Strip(s)[j]) {
      assert Strip(s)[j] == s[i..i + |Strip(s)|][j] == s[i + j];
    }
  }

  lemma StripSubset(s: string, c: char)
    requires c in Strip(s)
    ensures c in s
  {
    hide IsSpace, Strip;
    StripShape(s);
    var i :| MatchesAt(s, Strip(s), i);
    var j :| 0 <= j < |Strip(s)| && Strip(s)[j] == c;
    assert s[i + j] == s[i..i + |Strip(s)|][j];
  }

  /** The key of an accepted nested line is clean. */
  lemma NestedKeyClean(raw: string)
    requires BreakFree(raw) && !Skipped(raw)
    requires var nested := Strip(raw); IndexOf(nested, ':') >= 0 && Strip(nested[..IndexOf(nested, ':')]) != ""
    ensures CleanKey(Strip(Strip(raw)[..IndexOf(Strip(raw), ':')]))
  {
    var nested := Strip(raw);
    var before := nested[..IndexOf(nested, ':')];
    var key := Strip(before);
    StripBreakFree(raw);
    StripBreakFree(before);
    if ':' in key { StripSubset(before, ':'); }
    StripShape(raw);
    StripShape(before);
    assert before[0] == nested[0] && !IsSpace(nested[0]);
    assert LStrip(before) == before;
  }

  lemma DecodedPart(s: string, from: nat)
    requires BreakFree(s) && from <= |s|
    ensures var d := DecodeScalar(Strip(s[from..])); d.Ok? ==> NoForeignBreak(d.value)
  {
    StripBreakFree(s[from..]);
    if DecodeScalar(Strip(s[from..])).Ok? { DecodedHasNoForeignBreak(Strip(s[from..])); }
  }

  lemma LineKeepsWellRead(doc: Doc, number: nat, raw: string)
    requires WellRead(doc.fields) && BreakFree(raw)
    ensures var r := ParseLine(doc, number, raw); r.Ok? ==> WellRead(r.value.fields)
  {
    hide Strip, DecodeScalar, IndexOf, CleanKey, NoForeignBreak, Blank, LStrip, IsSpace;
    var r := ParseLine(doc, number, raw);
    if r.Ok? && !Skipped(raw) {
      if "  " <= raw {
        var nested := Strip(raw);
        StripBreakFree(raw);
        var colon := IndexOf(nested, ':');
        NestedKeyClean(raw);
        DecodedPart(nested, colon + 1);
        assert forall e :: e in doc.Entries() ==> CleanKey(e) && NoForeignBreak(doc.Entries()[e]);
      } else {
        DecodedPart(raw, IndexOf(raw, ':') + 1);
      }
    }
  }

  lemma {:induction false} LinesKeepWellRead(doc: Doc, number: nat, lines: seq<string>)
    requires WellRead(doc.fields) && forall i :: 0 <= i < |lines| ==> BreakFree(lines[i])
    ensures var r := ParseLines(doc, number, lines); r.Ok? ==> WellRead(r.value.fields)
    decreases |lines|
  {
    if lines != [] {
      LineKeepsWellRead(doc, number, lines[0]);
      var next := ParseLine(doc, number, lines[0]);
      if next.Ok? { LinesKeepWellRead(next.value, number + 1, lines[1..]); }
    }
  }

  /** For every text at all: what the reader accepts, it accepts clean. */
  lemma ReadIsClean(text: string)
    requires Parse(text).Ok?
    ensures var m := Parse(text).value.metadata;
            && NoForeignBreak(m.description)
            && OptionalHolds(m.license, NoForeignBreak) && OptionalHolds(m.compatibility, NoForeignBreak)
            && forall k :: k in m.entries ==> CleanKey(k) && NoForeignBreak(m.entries[k])
  {
    hide Find, SplitLines, ParseLines, CleanKey, NoForeignBreak, ValidName, Blank;
    var marker := Find(text, CLOSING, 4);
    LinesKeepWellRead(EMPTY_DOC, 1, SplitLines(text[4..marker]));
  }

  // ----- main results -----

  /** The document round-trips exactly when the export is portable. */
  lemma DocumentRoundTrip(n: Native)
    requires Rendered(n).Ok?
    ensures Parse(Rendered(n).value) == Ok(Expected(n)) <==> Portable(n)
  {
    hide Parse, Rendered, Received, CleanKey, NoForeignBreak, HasBackslashN, Strip, ExportedEntries;
    if Carried(n) {
      ReadRendered(n);
      ReceivedIsExpected(n);
    } else if Parse(Rendered(n).value) == Ok(Expected(n)) {
      ReadIsClean(Rendered(n).value);
    }
  }

  /** The export that a reader can build again from what it read. */
  function Reexport(s: Skill): Native
    requires SKILL_ID in s.metadata.entries
  {
    var m := s.metadata;
    Native(m.entries[SKILL_ID], m.name, m.description, s.instructions, m.license, m.compatibility, m.entries)
  }

  lemma StripFramed(body: string)
    requires body != "" && Trimmed(body)
    ensures Strip("\n" + body + "\n") == body
  {
    hide IsSpace;
    assert IsSpace('\n') by { NewlineIsSpace(); }
    var tail := body + "\n";
    var framed := ['\n'] + tail;
    assert framed[1..] == tail;
    assert LStrip(framed) == LStrip(tail) == tail;
    assert tail[..|body|] == body;
    assert RStrip(tail) == RStrip(body);
    StripTrimmed(body);
    assert "\n" + body + "\n" == framed;
  }

  lemma NewlineIsSpace()
    ensures IsSpace('\n')
  {
  }

  lemma SameEntries(n: Native)
    ensures ExportedEntries(Reexport(Expected(n))) == ExportedEntries(n)
  {
    hide Strip;
  }

  lemma SameHead(n: Native)
    ensures HeadLines(Reexport(Expected(n))) == HeadLines(n)
  {
    hide Strip, FieldLine;
  }

  lemma SameBody(n: Native)
    requires !Blank(n.instructions)
    ensures Strip(Expected(n).instructions) == Strip(n.instructions)
    ensures !Blank(Expected(n).instructions)
  {
    hide IsSpace;
    StripShape(n.instructions);
    StripFramed(Strip(n.instructions));
  }

  /** Rendering what was read gives the same text again. */
  lemma RenderingIsFixpoint(n: Native)
    requires Rendered(n).Ok? && Portable(n)
    ensures Parse(Rendered(n).value).Ok?
    ensures var read := Parse(Rendered(n).value).value;
            SKILL_ID in read.metadata.entries && Rendered(Reexport(read)) == Rendered(n)
  {
    DocumentRoundTrip(n);
    RenderExpected(n);
    ExpectedHasId(n);
    hide *;
  }

  lemma ExpectedHasId(n: Native)
    ensures SKILL_ID in Expected(n).metadata.entries
  {
  }

  lemma RenderExpected(n: Native)
    requires Rendered(n).Ok?
    ensures Rendered(Reexport(Expected(n))) == Rendered(n)
  {
    hide Strip, ValidName, Blank, Join, HeadLines, EntryLines, SortedKeys, ExportedEntries;
    RenderedText(n);
    SameEntries(n);
    SameHead(n);
    SameBody(n);
  }

  // ----- one round settles every export -----

  /** What was garbled once has nothing left to garble. */
  lemma GarbledSettles(v: string)
    ensures !HasBackslashN(Garbled(v)) && Garbled(Garbled(v)) == Garbled(v)
    ensures NoForeignBreak(v) ==> NoForeignBreak(Garbled(v))
  {
    GarbledFixpoint(Garbled(v));
  }

  lemma ReceivedEntries(n: Native)
    ensures SKILL_ID in Received(n).metadata.entries
    ensures ExportedEntries(Reexport(Received(n))) == GarbledEntries(ExportedEntries(n))
  {
    assert Garbled(PORTABLE_ONLY) == PORTABLE_ONLY by { PlainAuthority(); }
    hide Garbled, Strip;
  }

  lemma PlainAuthority()
    ensures Garbled(PORTABLE_ONLY) == PORTABLE_ONLY
  {
    assert forall i :: 0 <= i < |PORTABLE_ONLY| ==> PORTABLE_ONLY[i] != '\\';
    GarbledFixpoint(PORTABLE_ONLY);
  }

  lemma ReceivedPortable(n: Native)
    requires Carried(n)
    ensures SKILL_ID in Received(n).metadata.entries && Portable(Reexport(Received(n)))
  {
    ReceivedEntries(n);
    GarbledSettles(n.description);
    if n.license.Some? { GarbledSettles(n.license.value); }
    if n.compatibility.Some? { GarbledSettles(n.compatibility.value); }
    var entries := ExportedEntries(n);
    forall k | k in entries ensures CleanKey(k) && PortableText(Garbled(entries[k])) { GarbledSettles(entries[k]); }
    hide CleanKey, NoForeignBreak, HasBackslashN, Garbled, ExportedEntries, Strip;
  }

  lemma RendersExactly(n: Native)
    ensures Rendered(n).Ok? <==> Checked(n) && forall k :: k in ExportedEntries(n) ==> !Blank(k)
  {
    hide Strip, Blank, ValidName, ExportedEntries, Join, FrontmatterLines, Closing;
  }

  lemma ReceivedChecked(n: Native)
    requires Checked(n) && SKILL_ID in Received(n).metadata.entries
    ensures Checked(Reexport(Received(n)))
  {
    SameBody(n);
    GarbledLength(n.description);
    GarbledBlank(n.description);
    if n.license.Some? { GarbledBlank(n.license.value); }
    if n.compatibility.Some? {
      GarbledLength(n.compatibility.value);
      GarbledBlank(n.compatibility.value);
    }
    hide Strip, Blank, ValidName, Garbled, ExportedEntries;
  }

  lemma ReceivedRenders(n: Native)
    requires Rendered(n).Ok?
    ensures SKILL_ID in Received(n).metadata.entries && Rendered(Reexport(Received(n))).Ok?
  {
    ReceivedEntries(n);
    assert GarbledEntries(ExportedEntries(n)).Keys == ExportedEntries(n).Keys;
    RendersExactly(n);
    RendersExactly(Reexport(Received(n)));
    hide Rendered, Received, Reexport, Checked, Blank, ExportedEntries, GarbledEntries;
    ReceivedChecked(n);
  }

  lemma ReceivedExpected(n: Native)
    requires !Blank(n.instructions)
    ensures SKILL_ID in Received(n).metadata.entries && Expected(Reexport(Received(n))) == Received(n)
  {
    ReceivedEntries(n);
    SameBody(n);
    hide Strip, Garbled, ExportedEntries, GarbledEntries, GarbledOption, Blank;
  }

  /** Whatever lines could carry, exporting what was read loses nothing more: reading that export gives it back unchanged. */
  lemma SecondRoundIsFaithful(n: Native)
    requires Rendered(n).Ok? && Carried(n)
    ensures Parse(Rendered(n).value).Ok?
    ensures var read := Parse(Rendered(n).value).value;
            && SKILL_ID in read.metadata.entries
            && Portable(Reexport(read)) && Rendered(Reexport(read)).Ok?
            && Parse(Rendered(Reexport(read)).value) == Ok(read)
  {
    ReadRendered(n);
    RenderedText(n);
    ReceivedPortable(n);
    ReceivedRenders(n);
    ReceivedExpected(n);
    hide Parse, Rendered, Received, Reexport, Portable, Carried, Expected;
    DocumentRoundTrip(Reexport(Received(n)));
  }
}
