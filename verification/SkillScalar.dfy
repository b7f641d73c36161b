/** Scalars of a SKILL.md document: the printer `_yaml_scalar` and the reader `_decode_scalar`. */
module SkillScalar {
  import opened Prelude
  import opened Text

  datatype ScalarError = ComplexYaml

  const BACKSLASH := "\\"
  const QUOTE := "\""
  const NEWLINE := "\n"

  /** `_yaml_scalar`: three replace-all passes inside double quotes. */
  function YamlScalar(value: string): string {
    var doubled := ReplaceAll(value, BACKSLASH, "\\\\");
    var quoted := ReplaceAll(doubled, QUOTE, "\\\"");
    QUOTE + ReplaceAll(quoted, NEWLINE, "\\n") + QUOTE
  }

  function DecodeBody(body: string): string {
    ReplaceAll(ReplaceAll(ReplaceAll(body, "\\n", NEWLINE), "\\\"", QUOTE), "\\\\", BACKSLASH)
  }

  predicate StartsComplex(value: string) {
    value != [] && value[0] in {'[', '{', '&', '*', '!', '|', '>'}
  }

  /** `_decode_scalar`. */
  function DecodeScalar(value: string): Result<string, ScalarError> {
    if |value| >= 2 && value[0] == value[|value| - 1] && value[0] in {'"', '\''} then
      var body := value[1..|value| - 1];
      if value[0] == '\'' then Ok(ReplaceAll(body, "''", "'"))
      else Ok(DecodeBody(body))
    else if StartsComplex(value) then Err(ComplexYaml)
    else Ok(value)
  }

  // ----- the printer is a per-character encoder -----

  function EncodeChar(c: char): string {
    match c
    case '\\' => "\\\\"
    case '"' => "\\\""
    case '\n' => "\\n"
    case _ => [c]
  }

  function Encode(value: string): string {
    if value == [] then [] else EncodeChar(value[0]) + Encode(value[1..])
  }

  /** Replacing one character by a string works character by character. */
  function Substitute(s: string, c: char, r: string): string {
    if s == [] then [] else (if s[0] == c then r else [s[0]]) + Substitute(s[1..], c, r)
  }

  lemma {:induction false} ReplaceOneChar(s: string, c: char, r: string)
    ensures ReplaceAll(s, [c], r) == Substitute(s, c, r)
  {
    if s != [] {
      assert s[..1] == [s[0]];
      ReplaceOneChar(s[1..], c, r);
    }
  }

  lemma {:induction false} SubstituteConcat(a: string, b: string, c: char, r: string)
    ensures Substitute(a + b, c, r) == Substitute(a, c, r) + Substitute(b, c, r)
  {
    if a == [] {
      assert a + b == b;
    } else {
      assert (a + b)[1..] == a[1..] + b;
      SubstituteConcat(a[1..], b, c, r);
    }
  }

  lemma {:induction false} ThreeSubstitutions(value: string)
    ensures Substitute(Substitute(Substitute(value, '\\', "\\\\"), '"', "\\\""), '\n', "\\n") == Encode(value)
  {
    if value != [] {
      var head := if value[0] == '\\' then "\\\\" else [value[0]];
      var tail := Substitute(value[1..], '\\', "\\\\");
      SubstituteConcat(head, tail, '"', "\\\"");
      SubstituteConcat(Substitute(head, '"', "\\\""), Substitute(tail, '"', "\\\""), '\n', "\\n");
      ThreeSubstitutions(value[1..]);
      SubstituteShort(head[0], '"', "\\\"");
      SubstituteShort(value[0], '"', "\\\"");
      SubstituteShort(value[0], '\n', "\\n");
      EncodeHead(value[0]);
    }
  }

  lemma SubstituteShort(a: char, c: char, r: string)
    ensures Substitute([a], c, r) == if a == c then r else [a]
  {
    assert [a][1..] == [];
  }

  lemma EncodeHead(a: char)
    ensures var head := if a == '\\' then "\\\\" else [a];
            Substitute(Substitute(head, '"', "\\\""), '\n', "\\n") == EncodeChar(a)
  {
    SubstituteShort(a, '"', "\\\"");
    SubstituteShort(a, '\n', "\\n");
    if a == '\\' {
      assert "\\\\"[1..] == "\\";
      assert Substitute("\\\\", '"', "\\\"") == "\\\\";
      assert Substitute("\\\\", '\n', "\\n") == "\\\\";
    } else if a == '"' {
      assert "\\\""[1..] == "\"";
      SubstituteShort('"', '\n', "\\n");
      assert Substitute("\\\"", '\n', "\\n") == "\\\"";
    }
  }

  /** The printer's three sequential passes escape each character on its own. */
  lemma YamlScalarIsEncode(value: string)
    ensures YamlScalar(value) == "\"" + Encode(value) + "\""
  {
    ReplaceOneChar(value, '\\', "\\\\");
    var doubled := Substitute(value, '\\', "\\\\");
    ReplaceOneChar(doubled, '"', "\\\"");
    ReplaceOneChar(Substitute(doubled, '"', "\\\""), '\n', "\\n");
    ThreeSubstitutions(value);
  }

  // ----- what the reader gives back -----

  /** `value` with every `n` that follows a backslash turned into a newline. */
  function Garbled(value: string): (r: string)
    ensures |r| == |value|
    ensures forall i :: 0 <= i < |value| ==>
      r[i] == if i > 0 && value[i - 1] == '\\' && value[i] == 'n' then '\n' else value[i]
  {
    seq(|value|, i requires 0 <= i < |value| =>
      if i > 0 && value[i - 1] == '\\' && value[i] == 'n' then '\n' else value[i])
  }

  predicate HasBackslashN(value: string) {
    exists i :: 0 < i < |value| && value[i - 1] == '\\' && value[i] == 'n'
  }

  predicate EscapedN(value: string) {
    |value| >= 2 && value[0] == '\\' && value[1] == 'n'
  }

  /** After the first decoding pass: newlines are back, and some are false. */
  function FirstPass(value: string): string {
    if value == [] then []
    else if EscapedN(value) then "\\\n" + FirstPass(value[2..])
    else (if value[0] == '\n' then NEWLINE else EncodeChar(value[0])) + FirstPass(value[1..])
  }

  /** After the second decoding pass: quotes are back. */
  function SecondPass(value: string): string {
    if value == [] then []
    else if EscapedN(value) then "\\\n" + SecondPass(value[2..])
    else (if value[0] == '\\' then "\\\\" else [value[0]]) + SecondPass(value[1..])
  }

  /** After the third decoding pass. */
  function ThirdPass(value: string): string {
    if value == [] then []
    else if EscapedN(value) then "\\\n" + ThirdPass(value[2..])
    else [value[0]] + ThirdPass(value[1..])
  }

  /** A character that starts no match of a two-character pattern is copied. */
  lemma ReplaceSkips(c: char, rest: string, pattern: string, r: string)
    requires |pattern| == 2
    requires c != pattern[0] || rest == [] || rest[0] != pattern[1]
    ensures ReplaceAll([c] + rest, pattern, r) == [c] + ReplaceAll(rest, pattern, r)
  {
    var s := [c] + rest;
    assert s[1..] == rest;
    if |s| >= 2 {
      assert s[..2] == [c, rest[0]];
      assert pattern == [pattern[0], pattern[1]];
    }
  }

  /** Two characters that start no match are copied. */
  lemma ReplaceSkipsPair(c: char, d: char, rest: string, pattern: string, r: string)
    requires |pattern| == 2
    requires c != pattern[0] || d != pattern[1]
    requires d != pattern[0] || rest == [] || rest[0] != pattern[1]
    ensures ReplaceAll([c, d] + rest, pattern, r) == [c, d] + ReplaceAll(rest, pattern, r)
  {
    assert [c, d] + rest == [c] + ([d] + rest);
    ReplaceSkips(d, rest, pattern, r);
    ReplaceSkips(c, [d] + rest, pattern, r);
  }

  /** A character before a match is copied, and the match replaced. */
  lemma ReplaceSkipsThenTakes(c: char, rest: string, pattern: string, r: string)
    requires |pattern| == 2 && c == pattern[0] && c != pattern[1]
    ensures ReplaceAll([c] + pattern + rest, pattern, r) == [c] + r + ReplaceAll(rest, pattern, r)
  {
    assert [c] + pattern + rest == [c] + (pattern + rest);
    ReplaceTakes(pattern, rest, r);
    ReplaceSkips(c, pattern + rest, pattern, r);
  }

  lemma ReplaceTakes(pattern: string, rest: string, r: string)
    requires |pattern| == 2
    ensures ReplaceAll(pattern + rest, pattern, r) == r + ReplaceAll(rest, pattern, r)
  {
    assert (pattern + rest)[..2] == pattern;
    assert (pattern + rest)[2..] == rest;
  }

  lemma EncodeCons(value: string)
    requires value != []
    ensures Encode(value) == EncodeChar(value[0]) + Encode(value[1..])
  {
  }

  /** The first pass over an encoded backslash: a following `n` is taken for a newline escape. */
  lemma FirstPassBackslash(rest: string)
    ensures rest != [] && rest[0] == 'n' ==>
      ReplaceAll(['\\', '\\'] + rest, "\\n", NEWLINE) == ['\\', '\n'] + ReplaceAll(rest[1..], "\\n", NEWLINE)
    ensures rest == [] || rest[0] != 'n' ==>
      ReplaceAll(['\\', '\\'] + rest, "\\n", NEWLINE) == ['\\', '\\'] + ReplaceAll(rest, "\\n", NEWLINE)
  {
    if rest != [] && rest[0] == 'n' {
      assert ['\\', '\\'] + rest == ['\\'] + "\\n" + rest[1..];
      ReplaceSkipsThenTakes('\\', rest[1..], "\\n", NEWLINE);
    } else {
      ReplaceSkipsPair('\\', '\\', rest, "\\n", NEWLINE);
    }
  }

  /** Only the letter `n` itself is encoded as something that starts with `n`. */
  lemma EncodeStartsWithN(value: string)
    ensures Encode(value) != [] && Encode(value)[0] == 'n' <==> value != [] && value[0] == 'n'
    ensures value != [] && value[0] == 'n' ==> Encode(value)[1..] == Encode(value[1..])
  {
    if value != [] { EncodeCons(value); }
  }

  lemma {:induction false} FirstDecodingPass(value: string)
    ensures ReplaceAll(Encode(value), "\\n", NEWLINE) == FirstPass(value)
  {
    if value == [] {
    } else if value[0] == '\\' {
      EncodeCons(value);
      FirstPassBackslash(Encode(value[1..]));
      EncodeStartsWithN(value[1..]);
      if EscapedN(value) {
        assert value[1..][1..] == value[2..];
        FirstDecodingPass(value[2..]);
      } else {
        FirstDecodingPass(value[1..]);
      }
    } else {
      var rest := Encode(value[1..]);
      FirstDecodingPass(value[1..]);
      if value[0] == '\n' {
        ReplaceTakes("\\n", rest, NEWLINE);
      } else if value[0] == '"' {
        ReplaceSkipsPair('\\', '"', rest, "\\n", NEWLINE);
      } else {
        ReplaceSkips(value[0], rest, "\\n", NEWLINE);
      }
    }
  }

  lemma {:induction false} SecondDecodingPass(value: string)
    ensures ReplaceAll(FirstPass(value), "\\\"", QUOTE) == SecondPass(value)
  {
    if value == [] {
    } else if EscapedN(value) {
      SecondDecodingPass(value[2..]);
      ReplaceSkipsPair('\\', '\n', FirstPass(value[2..]), "\\\"", QUOTE);
    } else {
      var c, rest := value[0], FirstPass(value[1..]);
      SecondDecodingPass(value[1..]);
      if c == '"' {
        ReplaceTakes("\\\"", rest, QUOTE);
      } else if c == '\\' {
        FirstPassNoQuote(value[1..]);
        ReplaceSkipsPair('\\', '\\', rest, "\\\"", QUOTE);
      } else {
        ReplaceSkips(c, rest, "\\\"", QUOTE);
      }
    }
  }

  /** Every quote is still escaped after the first pass. */
  lemma FirstPassNoQuote(value: string)
    ensures FirstPass(value) != [] ==> FirstPass(value)[0] != '"'
  {
  }

  lemma {:induction false} ThirdDecodingPass(value: string)
    ensures ReplaceAll(SecondPass(value), "\\\\", BACKSLASH) == ThirdPass(value)
  {
    if value == [] {
    } else if EscapedN(value) {
      ThirdDecodingPass(value[2..]);
      ReplaceSkipsPair('\\', '\n', SecondPass(value[2..]), "\\\\", BACKSLASH);
    } else {
      var c, rest := value[0], SecondPass(value[1..]);
      ThirdDecodingPass(value[1..]);
      if c == '\\' {
        ReplaceTakes("\\\\", rest, BACKSLASH);
      } else {
        ReplaceSkips(c, rest, "\\\\", BACKSLASH);
      }
    }
  }

  lemma {:induction false} ThirdPassIsGarbled(value: string)
    ensures ThirdPass(value) == Garbled(value)
  {
    if value == [] {
    } else if EscapedN(value) {
      ThirdPassIsGarbled(value[2..]);
      var r := Garbled(value);
      forall i | 0 <= i < |value| ensures ("\\\n" + Garbled(value[2..]))[i] == r[i] {
        if i > 2 {
          assert value[2..][i - 2 - 1] == value[i - 1];
        }
      }
    } else {
      ThirdPassIsGarbled(value[1..]);
      forall i | 0 <= i < |value| ensures ([value[0]] + Garbled(value[1..]))[i] == Garbled(value)[i] {
        if i > 1 {
          assert value[1..][i - 1 - 1] == value[i - 1];
        }
      }
    }
  }

  /** What reading back a printed scalar gives, for every string. */
  lemma DecodeEncoded(value: string)
    ensures DecodeScalar(YamlScalar(value)) == Ok(Garbled(value))
  {
    YamlScalarIsEncode(value);
    var printed := YamlScalar(value);
    assert printed[1..|printed| - 1] == Encode(value);
    FirstDecodingPass(value);
    SecondDecodingPass(value);
    ThirdDecodingPass(value);
    ThirdPassIsGarbled(value);
  }

  /** A scalar survives printing and reading exactly when it holds no backslash followed by `n`. */
  lemma ScalarRoundTrip(value: string)
    ensures DecodeScalar(YamlScalar(value)) == Ok(value) <==> !HasBackslashN(value)
  {
    hide DecodeScalar, YamlScalar;
    DecodeEncoded(value);
    GarbledFixpoint(value);
  }

  lemma GarbledFixpoint(value: string)
    ensures Garbled(value) == value <==> !HasBackslashN(value)
  {
    var r := Garbled(value);
    if HasBackslashN(value) {
      var i :| 0 < i < |value| && value[i - 1] == '\\' && value[i] == 'n';
      assert r[i] != value[i];
    }
  }

  // ----- characters of printed and read scalars -----

  /** Printing a scalar removes newlines and adds no other line break. */
  lemma {:induction false} EncodeBreakFree(value: string)
    requires NoForeignBreak(value)
    ensures BreakFree(Encode(value))
  {
    if value != [] {
      assert NoForeignBreak(value[1..]) by {
        forall i | 0 <= i < |value[1..]| ensures IsLineBreak(value[1..][i]) ==> value[1..][i] == '\n' {
          assert value[1..][i] == value[i + 1];
        }
      }
      EncodeBreakFree(value[1..]);
      assert BreakFree(EncodeChar(value[0]));
    }
  }

  /** No line break other than a newline. */
  predicate NoForeignBreak(value: string) {
    forall i :: 0 <= i < |value| && IsLineBreak(value[i]) ==> value[i] == '\n'
  }

  lemma ReplaceNoForeignBreak(s: string, pattern: string, r: string)
    requires pattern != [] && NoForeignBreak(s) && NoForeignBreak(r)
    ensures NoForeignBreak(ReplaceAll(s, pattern, r))
  {
    var t := ReplaceAll(s, pattern, r);
    forall i | 0 <= i < |t| && IsLineBreak(t[i]) ensures t[i] == '\n' {
      ReplaceAllChars(s, pattern, r, t[i]);
    }
  }

  /** Nothing the reader returns holds a line break other than a newline. */
  lemma DecodedHasNoForeignBreak(value: string)
    requires BreakFree(value) && DecodeScalar(value).Ok?
    ensures NoForeignBreak(DecodeScalar(value).value)
  {
    if |value| >= 2 && value[0] == value[|value| - 1] && value[0] in {'"', '\''} {
      var body := value[1..|value| - 1];
      assert BreakFree(body);
      if value[0] == '\'' {
        ReplaceNoForeignBreak(body, "''", "'");
      } else {
        ReplaceNoForeignBreak(body, "\\n", NEWLINE);
        var first := ReplaceAll(body, "\\n", NEWLINE);
        ReplaceNoForeignBreak(first, "\\\"", QUOTE);
        ReplaceNoForeignBreak(ReplaceAll(first, "\\\"", QUOTE), "\\\\", BACKSLASH);
      }
    }
  }

  /** Garbling never empties a text nor fills a blank one. */
  lemma GarbledBlank(value: string)
    ensures Blank(Garbled(value)) <==> Blank(value)
  {
    if HasBackslashN(value) {
      var i :| 0 < i < |value| && value[i - 1] == '\\' && value[i] == 'n';
      SolidNotBlank(value, i - 1);
      SolidNotBlank(Garbled(value), i - 1);
    } else {
      GarbledFixpoint(value);
    }
  }

  lemma SolidNotBlank(value: string, i: nat)
    requires i < |value| && !IsSpace(value[i])
    ensures !Blank(value)
  {
    BlankMeansAllSpace(value);
  }
}
