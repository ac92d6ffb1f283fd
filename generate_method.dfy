/** `MethodDef`: one method of a class in a stub file, built from the `MethodInfo` that the
    derive macro emits, with its import set and its text. */
module GenerateMethod {
  import opened Common
  import opened StubTypes

  /** `MethodInfo` as the macro emits it, over whatever argument descriptions it carries.
      Its lazy return-type provider is taken as already evaluated. */
  datatype MethodInfo<ArgInfo> = MethodInfo(name: string, args: seq<ArgInfo>, ret: TypeInfo, doc: string, kind: MethodType)

  /** A method to declare: name, arguments in order, return type, doc text and kind. */
  datatype MethodDef = MethodDef(name: string, args: seq<Arg>, ret: TypeInfo, doc: string, kind: MethodType)

  /** `Import::import`: start from the return type's imports and extend the set with each
      argument's. The result holds exactly the modules some part of the signature needs. */
  method Import(m: MethodDef) returns (imports: set<ModuleRef>)
    ensures forall r :: r in imports <==>
      (r in m.ret.imports || exists i :: 0 <= i < |m.args| && r in m.args[i].imports)
  {
    imports := m.ret.imports;
    for i := 0 to |m.args|
      invariant forall r :: r in imports <==>
        (r in m.ret.imports || exists j :: 0 <= j < i && r in m.args[j].imports)
    {
      imports := imports + m.args[i].imports;
    }
  }

  /** `From<&MethodInfo>`: name, doc and kind carried over, the return type taken from its
      provider, and each argument converted by `argFrom` (`Arg::from`), one to one and in
      order. */
  function FromInfo<A>(info: MethodInfo<A>, argFrom: A -> Arg): (m: MethodDef)
    ensures m.name == info.name && m.ret == info.ret && m.doc == info.doc && m.kind == info.kind
    ensures |m.args| == |info.args|
    ensures forall i :: 0 <= i < |info.args| ==> m.args[i] == argFrom(info.args[i])
  {
    MethodDef(info.name, seq(|info.args|, i requires 0 <= i < |info.args| => argFrom(info.args[i])),
              info.ret, info.doc, info.kind)
  }

  /** The implicit first parameter: `cls` for class methods and `__new__`, `self` for
      instance methods, none for static methods. */
  function Receiver(kind: MethodType): seq<string> {
    match kind
    case Static => []
    case Class | New => ["cls"]
    case Instance => ["self"]
  }

  /** The decorator line above the signature: `@staticmethod` or `@classmethod`; a
      constructor is a class method written without its decorator. */
  function DecoratorLines(kind: MethodType, indent: string): seq<string> {
    match kind
    case Static => [indent + "@staticmethod"]
    case Class => [indent + "@classmethod"]
    case New | Instance => []
  }

  function ArgTexts(args: seq<Arg>): (texts: seq<string>)
    ensures |texts| == |args|
    ensures forall i :: 0 <= i < |args| ==> texts[i] == args[i].text
  {
    seq(|args|, i requires 0 <= i < |args| => args[i].text)
  }

  /** The text between the parentheses: receiver and arguments, separated by `, `. */
  function Params(kind: MethodType, args: seq<Arg>): string {
    Join(Receiver(kind) + ArgTexts(args), ", ")
  }

  /** `def name(`, at the given indent: what is written before the parameters. */
  function Opening(name: string, indent: string): string {
    indent + "def " + name + "("
  }

  /** `) -> R:`: what is written after the parameters. */
  function Closing(ret: TypeInfo): string {
    ") -> " + ret.name + ":"
  }

  /** `def name(params) -> R:`, at the given indent, without its line ending. */
  function Signature(m: MethodDef, indent: string): string {
    Opening(m.name, indent) + Params(m.kind, m.args) + Closing(m.ret)
  }

  /** What follows the signature: ` ...` and a line ending for an undocumented method;
      otherwise a line ending and the docstring that `docstring` (`write_docstring`) writes
      for the doc at twice the indent. */
  function Body(doc: string, indent: string, docstring: (string, string) -> string): string {
    if doc == "" then " ...\n" else "\n" + docstring(doc, indent + indent)
  }

  /** The whole text of a method: decorator line, signature and body. */
  function MethodText(m: MethodDef, indent: string, docstring: (string, string) -> string): string {
    Unlines(DecoratorLines(m.kind, indent)) + Signature(m, indent) + Body(m.doc, indent, docstring)
  }

  /** `fmt::Display`: the decorator and `def name(` with the receiver, then each argument,
      preceded by `, ` whenever something was already written between the parentheses
      (the `needs_comma` flag), then the return type and the body. `indent` is the value of
      `indent()`. */
  method Fmt(m: MethodDef, indent: string, docstring: (string, string) -> string) returns (out: string)
    ensures out == MethodText(m, indent, docstring)
  {
    var needsComma;
    out, needsComma := WriteHead(m, indent);
    out := WriteArgs(Unlines(DecoratorLines(m.kind, indent)) + Opening(m.name, indent),
      Receiver(m.kind), m.args, out, needsComma);
    out := out + (") -> " + m.ret.name + ":");
    Regroup(Unlines(DecoratorLines(m.kind, indent)), Opening(m.name, indent), Params(m.kind, m.args), Closing(m.ret));
    if m.doc != "" {
      out := out + "\n";
      out := out + docstring(m.doc, indent + indent);
      Regroup(Unlines(DecoratorLines(m.kind, indent)), Signature(m, indent), "\n", docstring(m.doc, indent + indent));
    } else {
      out := out + " ...\n";
    }
  }

  /** The `for arg in &self.args` loop: each argument, preceded by `, ` whenever something
      was already written between the parentheses. */
  method WriteArgs(head: string, recv: seq<string>, args: seq<Arg>, written: string, needsComma: bool)
    returns (out: string)
    requires written == head + Join(recv, ", ") && needsComma == (recv != [])
    ensures out == head + Join(recv + ArgTexts(args), ", ")
  {
    out := written;
    var comma := needsComma;
    ghost var texts := ArgTexts(args);
    ghost var done := recv;
    for i := 0 to |args|
      invariant done == recv + texts[..i]
      invariant comma == (done != [])
      invariant out == head + Join(done, ", ")
    {
      WrittenSnoc(head, done, args[i].text);
      if comma {
        out := out + ", ";
      }
      out := out + args[i].text;
      comma := true;
      done := done + [args[i].text];
      assert texts[..i + 1] == texts[..i] + [texts[i]];
    }
    assert texts[..|args|] == texts;
  }

  /** Writing one more part after the parts joined so far. */
  lemma WrittenSnoc(head: string, done: seq<string>, x: string)
    ensures head + Join(done + [x], ", ") ==
      if done == [] then head + x else head + Join(done, ", ") + ", " + x
  {
    JoinSnoc(done, x, ", ");
    if done != [] {
      Regroup(head, Join(done, ", "), ", ", x);
    }
  }

  lemma Regroup(a: string, b: string, c: string, d: string)
    ensures a + b + c + d == a + (b + c + d)
  {
  }

  /** The part of `fmt::Display` chosen by the method's kind: the decorator line, `def
      name(` and the receiver; `needs_comma` is set exactly when a receiver was written. */
  method WriteHead(m: MethodDef, indent: string) returns (out: string, needsComma: bool)
    ensures out == Unlines(DecoratorLines(m.kind, indent)) + Opening(m.name, indent) + Join(Receiver(m.kind), ", ")
    ensures needsComma == (Receiver(m.kind) != [])
  {
    match m.kind {
      case Static =>
        out := indent + "@staticmethod" + "\n";
        UnlinesSnoc([], indent + "@staticmethod");
        assert [] + [indent + "@staticmethod"] == DecoratorLines(m.kind, indent);
        out := out + (indent + "def " + m.name + "(");
        needsComma := false;
      case Class | New =>
        out := "";
        if m.kind == Class {
          out := indent + "@classmethod" + "\n";
        }
        assert out == Unlines(DecoratorLines(m.kind, indent)) by {
          UnlinesSnoc([], indent + "@classmethod");
          assert [] + [indent + "@classmethod"] == [indent + "@classmethod"];
        }
        out := out + (indent + "def " + m.name + "(" + "cls");
        needsComma := true;
      case Instance =>
        out := indent + "def " + m.name + "(" + "self";
        assert Unlines(DecoratorLines(m.kind, indent)) == "";
        needsComma := true;
    }
  }

  /** Read back by splitting at `, `, the parameter list gives the receiver, if any, and
      then every argument in input order: one separator between neighbours and none at
      either end. This holds when no argument text contains a comma; an empty list is
      written as nothing at all. */
  lemma ParamsReadBack(kind: MethodType, args: seq<Arg>)
    requires forall i :: 0 <= i < |args| ==> ',' !in args[i].text
    ensures Receiver(kind) + ArgTexts(args) == [] ==> Params(kind, args) == ""
    ensures Receiver(kind) + ArgTexts(args) != [] ==>
      Split(Params(kind, args), ", ") == Receiver(kind) + ArgTexts(args)
  {
    var parts := Receiver(kind) + ArgTexts(args);
    if parts != [] {
      forall i | 0 <= i < |parts| ensures ", "[0] !in parts[i] {
        if i >= |Receiver(kind)| {
          assert parts[i] == args[i - |Receiver(kind)|].text;
        }
      }
      SplitJoin(parts, ", ");
    }
  }

  /** The receiver opens the parameter list for every kind but `Static`, even without
      arguments, and `, ` comes before the first argument exactly when a receiver was
      written. */
  lemma ParamsByKind(kind: MethodType, args: seq<Arg>)
    ensures Params(kind, args) ==
      match kind
      case Static => Join(ArgTexts(args), ", ")
      case Class | New => if args == [] then "cls" else "cls" + ", " + Join(ArgTexts(args), ", ")
      case Instance => if args == [] then "self" else "self" + ", " + Join(ArgTexts(args), ", ")
  {
    var texts := ArgTexts(args);
    var parts := Receiver(kind) + texts;
    if kind == Static {
      assert parts == texts;
    } else if args == [] {
      assert parts == Receiver(kind);
    } else {
      assert parts[1..] == texts;
    }
  }

  /** With single-line parts, the signature is a single line. */
  lemma SignatureIsOneLine(m: MethodDef, indent: string)
    requires OneLine(indent) && OneLine(m.name) && OneLine(m.ret.name)
    requires forall i :: 0 <= i < |m.args| ==> OneLine(m.args[i].text)
    ensures OneLine(Signature(m, indent))
  {
    var parts := Receiver(m.kind) + ArgTexts(m.args);
    forall i | 0 <= i < |parts| ensures OneLine(parts[i]) {
      if i >= |Receiver(m.kind)| {
        assert parts[i] == m.args[i - |Receiver(m.kind)|].text;
      }
    }
    OneLineJoin(parts, ", ");
    OneLineConcat(indent, "def ");
    OneLineConcat(indent + "def ", m.name);
    OneLineConcat(indent + "def " + m.name, "(");
    OneLineConcat(") -> ", m.ret.name);
    OneLineConcat(") -> " + m.ret.name, ":");
    OneLineConcat(Opening(m.name, indent), Params(m.kind, m.args));
    OneLineConcat(Opening(m.name, indent) + Params(m.kind, m.args), Closing(m.ret));
  }

  /** Read back line by line, a method is its decorator line (`@staticmethod` for a static
      method, `@classmethod` for a class method, none otherwise), then its signature: for an
      undocumented method that is the last line and ends with ` ...`; a documented method
      has no ` ...` and continues with the lines of its docstring. */
  lemma RenderedLines(m: MethodDef, indent: string, docstring: (string, string) -> string)
    requires OneLine(indent) && OneLine(m.name) && OneLine(m.ret.name)
    requires forall i :: 0 <= i < |m.args| ==> OneLine(m.args[i].text)
    ensures Lines(MethodText(m, indent, docstring)) ==
      DecoratorLines(m.kind, indent) +
      if m.doc == "" then [Signature(m, indent) + " ..."]
      else [Signature(m, indent)] + Lines(docstring(m.doc, indent + indent))
  {
    var decorators := DecoratorLines(m.kind, indent);
    var sig := Signature(m, indent);
    var body := Body(m.doc, indent, docstring);
    SignatureIsOneLine(m, indent);
    DecoratorLinesPlain(m.kind, indent);
    assert MethodText(m, indent, docstring) == Unlines(decorators) + (sig + body);
    LinesAfterUnlines(decorators, sig + body);
    BodyLines(sig, m.doc, indent, docstring);
  }

  lemma DecoratorLinesPlain(kind: MethodType, indent: string)
    requires OneLine(indent)
    ensures forall i :: 0 <= i < |DecoratorLines(kind, indent)| ==> PlainLine(DecoratorLines(kind, indent)[i])
  {
    PlainAfter(indent, "@staticmethod");
    PlainAfter(indent, "@classmethod");
  }

  /** The signature line followed by the body reads back as the signature with ` ...`, or
      as the signature and then the docstring's lines. */
  lemma BodyLines(sig: string, doc: string, indent: string, docstring: (string, string) -> string)
    requires OneLine(sig)
    ensures Lines(sig + Body(doc, indent, docstring)) ==
      if doc == "" then [sig + " ..."] else [sig] + Lines(docstring(doc, indent + indent))
  {
    if doc == "" {
      OneLineConcat(sig, " ...");
      OneLineIsPlain(sig + " ...");
      assert sig + Body(doc, indent, docstring) == sig + " ..." + "\n" + "";
      LinesAfterLine(sig + " ...", "");
    } else {
      OneLineIsPlain(sig);
      assert sig + Body(doc, indent, docstring) == sig + "\n" + docstring(doc, indent + indent);
      LinesAfterLine(sig, docstring(doc, indent + indent));
    }
  }

  /** An undocumented instance method `get_name` without arguments returning `str`. */
  lemma InstanceMethodText(indent: string, docstring: (string, string) -> string)
    ensures MethodText(MethodDef("get_name", [], TypeInfo("str", {}), "", Instance), indent, docstring)
      == indent + "def get_name(self) -> str: ...\n"
  {
    var m := MethodDef("get_name", [], TypeInfo("str", {}), "", Instance);
    assert Unlines(DecoratorLines(Instance, indent)) == "";
    assert Params(Instance, []) == "self" by {
      ParamsByKind(Instance, []);
    }
    assert Opening("get_name", indent) == indent + "def get_name(" by {
      Regroup(indent, "def ", "get_name", "(");
      assert "def " + "get_name" + "(" == "def get_name(";
    }
    assert Closing(m.ret) + Body("", indent, docstring) == ") -> str: ...\n" by {
      assert ") -> " + "str" + ":" + " ...\n" == ") -> str: ...\n";
    }
    assert "def get_name(" + "self" + ") -> str: ...\n" == "def get_name(self) -> str: ...\n";
    Regroup(indent, "def get_name(", "self", ") -> str: ...\n");
    Regroup("", Opening("get_name", indent), "self", Closing(m.ret));
    assert "" + Signature(m, indent) == Signature(m, indent);
    assert Signature(m, indent) + Body("", indent, docstring)
      == Opening("get_name", indent) + "self" + (Closing(m.ret) + Body("", indent, docstring));
  }

  /** An undocumented static method `create` without arguments: a decorator line, and no
      receiver in the signature. */
  lemma StaticMethodText(indent: string, cls: string, docstring: (string, string) -> string)
    ensures MethodText(MethodDef("create", [], TypeInfo(cls, {}), "", Static), indent, docstring)
      == indent + "@staticmethod\n" + indent + "def create() -> " + cls + ": ...\n"
  {
    var m := MethodDef("create", [], TypeInfo(cls, {}), "", Static);
    var decorator := indent + "@staticmethod\n";
    var start := indent + "def create() -> ";
    calc {
      MethodText(m, indent, docstring);
      { StaticDecorator(indent); StaticSignature(indent, cls); }
      decorator + (start + cls + ":") + " ...\n";
      { Regroup("", decorator, start + cls + ":", " ...\n"); }
      decorator + (start + cls + ":" + " ...\n");
      { Regroup("", start, cls, ":" + " ...\n"); assert ":" + " ...\n" == ": ...\n"; }
      decorator + (start + cls + ": ...\n");
      { Regroup(decorator, start, cls, ": ...\n"); }
      decorator + start + cls + ": ...\n";
      { Regroup("", decorator, indent, "def create() -> "); }
      indent + "@staticmethod\n" + indent + "def create() -> " + cls + ": ...\n";
    }
  }

  lemma StaticDecorator(indent: string)
    ensures Unlines(DecoratorLines(Static, indent)) == indent + "@staticmethod\n"
  {
    UnlinesSnoc([], indent + "@staticmethod");
    assert [] + [indent + "@staticmethod"] == DecoratorLines(Static, indent);
    assert indent + "@staticmethod" + "\n" == indent + ("@staticmethod" + "\n");
  }

  lemma StaticSignature(indent: string, cls: string)
    ensures Signature(MethodDef("create", [], TypeInfo(cls, {}), "", Static), indent)
      == indent + "def create() -> " + cls + ":"
  {
    var m := MethodDef("create", [], TypeInfo(cls, {}), "", Static);
    assert Params(Static, []) == "" by {
      ParamsByKind(Static, []);
    }
    assert Opening("create", indent) + "" == Opening("create", indent);
    Regroup(indent, "def ", "create", "(");
    assert "def " + "create" + "(" + ") -> " == "def create() -> ";
    assert Opening("create", indent) + Closing(m.ret)
      == indent + ("def " + "create" + "(" + ") -> ") + cls + ":";
  }
}
