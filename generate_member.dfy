/** `MemberDef`: one attribute declaration of a class in a stub file, built from the
    `MemberInfo` that the derive macro emits, with its import set and its text. */
module GenerateMember {
  import opened Common
  import opened StubTypes

  /** `MemberInfo` as the macro emits it. Its lazy type provider is taken as already
      evaluated: `ty` is the `TypeInfo` the provider returns. */
  datatype MemberInfo = MemberInfo(name: string, ty: TypeInfo, default: Option<string>, doc: string)

  /** A class attribute to declare: name, type, optional default text, doc text. */
  datatype MemberDef = MemberDef(name: string, ty: TypeInfo, default: Option<string>, doc: string)

  /** `Import::import`: a member needs exactly what its type needs. */
  function Import(m: MemberDef): (imports: set<ModuleRef>)
    ensures forall r :: r in imports <==> r in m.ty.imports
  {
    m.ty.imports
  }

  /** `From<&MemberInfo>`: every field carried over unchanged. */
  function FromInfo(info: MemberInfo): (m: MemberDef)
    ensures m.name == info.name && m.ty == info.ty
    ensures m.default == info.default && m.doc == info.doc
  {
    MemberDef(info.name, info.ty, info.default, info.doc)
  }

  /** The declaration `name: T` or `name: T = default`, at the given indent. */
  function Declaration(m: MemberDef, indent: string): string {
    if m.default.Some? then indent + m.name + ": " + m.ty.name + " = " + m.default.value
    else indent + m.name + ": " + m.ty.name
  }

  /** Each line prefixed by the indent. */
  function Indented(lines: seq<string>, indent: string): (r: seq<string>)
    ensures |r| == |lines|
    ensures forall i :: 0 <= i < |lines| ==> r[i] == indent + lines[i]
  {
    seq(|lines|, i requires 0 <= i < |lines| => indent + lines[i])
  }

  /** The raw docstring block under the declaration, at the declaration's own indent:
      nothing for an empty doc. */
  function DocBlock(doc: string, indent: string): seq<string> {
    if doc == "" then []
    else [indent + "r\"\"\""] + Indented(Lines(doc), indent) + [indent + "\"\"\""]
  }

  /** The lines a member renders as, without their line endings. */
  function MemberLines(m: MemberDef, indent: string): seq<string> {
    [Declaration(m, indent)] + DocBlock(m.doc, indent)
  }

  /** `fmt::Display`: one `writeln!` for the declaration and, for a documented member,
      one for each line of the docstring block. `indent` is the value of `indent()`. */
  method Fmt(m: MemberDef, indent: string) returns (out: string)
    ensures out == Unlines(MemberLines(m, indent))
  {
    var declaration := Declaration(m, indent);
    UnlinesSnoc([], declaration);
    assert [] + [declaration] == [declaration];
    out := declaration + "\n";
    if m.doc != "" {
      var block := WriteDocBlock(m.doc, indent);
      UnlinesAppend([Declaration(m, indent)], DocBlock(m.doc, indent));
      out := out + block;
    } else {
      assert MemberLines(m, indent) == [Declaration(m, indent)] + [];
    }
  }

  /** The `r"""` line, one line per line of the doc, and the closing `"""` line. */
  method WriteDocBlock(doc: string, indent: string) returns (out: string)
    requires doc != ""
    ensures out == Unlines(DocBlock(doc, indent))
  {
    var open := indent + "r\"\"\"";
    UnlinesSnoc([], open);
    out := open + "\n";
    var lines := Lines(doc);
    assert [] + [open] == [open] + Indented(lines[..0], indent);
    for i := 0 to |lines|
      invariant out == Unlines([open] + Indented(lines[..i], indent))
    {
      ghost var done := [open] + Indented(lines[..i], indent);
      assert [open] + Indented(lines[..i + 1], indent) == done + [indent + lines[i]];
      UnlinesSnoc(done, indent + lines[i]);
      out := out + (indent + lines[i] + "\n");
    }
    assert lines[..|lines|] == lines;
    UnlinesSnoc([open] + Indented(lines, indent), indent + "\"\"\"");
    out := out + (indent + "\"\"\"" + "\n");
  }

  /** With single-line name, type, default and indent and no carriage return in the doc,
      every rendered line is plain text that `Lines` reads back unchanged. */
  lemma MemberLinesPlain(m: MemberDef, indent: string)
    requires OneLine(indent) && OneLine(m.name) && OneLine(m.ty.name)
    requires m.default.Some? ==> OneLine(m.default.value)
    requires '\r' !in m.doc
    ensures forall i :: 0 <= i < |MemberLines(m, indent)| ==> PlainLine(MemberLines(m, indent)[i])
  {
    DeclarationPlain(m, indent);
    if m.doc != "" {
      var lines := Lines(m.doc);
      var ls := [Declaration(m, indent), indent + "r\"\"\""] + Indented(lines, indent) + [indent + "\"\"\""];
      assert MemberLines(m, indent) == ls;
      LinesArePlain(m.doc);
      PlainAfter(indent, "r\"\"\"");
      PlainAfter(indent, "\"\"\"");
      forall i | 0 <= i < |ls| ensures PlainLine(ls[i]) {
        if 1 < i < |ls| - 1 {
          assert ls[i] == indent + lines[i - 2];
          PlainAfter(indent, lines[i - 2]);
        }
      }
    } else {
      assert MemberLines(m, indent) == [Declaration(m, indent)];
    }
  }

  /** The declaration of a member with single-line parts is a plain line. */
  lemma DeclarationPlain(m: MemberDef, indent: string)
    requires OneLine(indent) && OneLine(m.name) && OneLine(m.ty.name)
    requires m.default.Some? ==> OneLine(m.default.value)
    ensures PlainLine(Declaration(m, indent))
  {
    OneLineConcat(indent, m.name);
    OneLineConcat(indent + m.name, ": ");
    OneLineConcat(indent + m.name + ": ", m.ty.name);
    if m.default.Some? {
      OneLineConcat(indent + m.name + ": " + m.ty.name, " = ");
      OneLineConcat(indent + m.name + ": " + m.ty.name + " = ", m.default.value);
    }
    OneLineIsPlain(Declaration(m, indent));
  }

  /** Read back line by line, the text of a member is its declaration and, for a
      documented member, an opening `r"""`, one indented line per doc line in order and a
      closing `"""`, all at the declaration's indent: one line for an undocumented member,
      otherwise three more than the doc's line count (the declaration and the two
      delimiters). */
  lemma RenderedLines(m: MemberDef, indent: string)
    requires OneLine(indent) && OneLine(m.name) && OneLine(m.ty.name)
    requires m.default.Some? ==> OneLine(m.default.value)
    requires '\r' !in m.doc
    ensures var ls := Lines(Unlines(MemberLines(m, indent)));
      && |ls| == (if m.doc == "" then 1 else 3 + |Lines(m.doc)|)
      && ls[0] == Declaration(m, indent)
      && (m.doc != "" ==> (
            && ls[1] == indent + "r\"\"\""
            && (forall i :: 0 <= i < |Lines(m.doc)| ==> ls[i + 2] == indent + Lines(m.doc)[i])
            && ls[|ls| - 1] == indent + "\"\"\""))
  {
    assert Lines(Unlines(MemberLines(m, indent))) == MemberLines(m, indent) by {
      MemberLinesPlain(m, indent);
      LinesOfUnlines(MemberLines(m, indent));
    }
    if m.doc == "" {
      assert MemberLines(m, indent) == [Declaration(m, indent)];
    } else {
      var lines := Lines(m.doc);
      var block := Indented(lines, indent);
      var ls := [Declaration(m, indent), indent + "r\"\"\""] + block + [indent + "\"\"\""];
      assert MemberLines(m, indent) == ls;
      assert |ls| == 3 + |lines|;
      assert forall i :: 0 <= i < |lines| ==> ls[i + 2] == block[i];
    }
  }

  /** An undocumented `value: int` member without a default renders as exactly one line. */
  lemma PlainMemberText(indent: string)
    ensures MemberLines(MemberDef("value", TypeInfo("int", {}), None, ""), indent) == [indent + "value: int"]
  {
    var m := MemberDef("value", TypeInfo("int", {}), None, "");
    assert DocBlock(m.doc, indent) == [];
    assert indent + "value" + ": " + "int" == indent + ("value" + ": " + "int");
    assert Declaration(m, indent) == indent + "value: int";
    assert MemberLines(m, indent) == [Declaration(m, indent)] + [];
  }

  /** A member whose doc is a single line renders as its declaration and a three-line raw
      docstring block holding that line; with a default of `0` on an `int` member named
      `value`, the declaration reads `value: int = 0`. */
  lemma OneLineDocMemberText(m: MemberDef, indent: string)
    requires m.doc != "" && '\n' !in m.doc
    ensures MemberLines(m, indent)
      == [Declaration(m, indent), indent + "r\"\"\"", indent + m.doc, indent + "\"\"\""]
    ensures m.name == "value" && m.ty.name == "int" && m.default == Some("0") ==>
      Declaration(m, indent) == indent + "value: int = 0"
  {
    SingleLine(m.doc);
    assert Indented(Lines(m.doc), indent) == [indent + m.doc];
    if m.name == "value" && m.ty.name == "int" && m.default == Some("0") {
      assert indent + "value" + ": " + "int" + " = " + "0" == indent + ("value" + ": " + "int" + " = " + "0");
    }
  }
}
