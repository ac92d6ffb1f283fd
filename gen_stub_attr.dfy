/** The attribute front end of the derive macro: reading doc comments, the `#[pyo3(...)]`
    family of attributes and the macro's own `#[gen_stub(...)]` attribute off an item, and
    removing the latter before the item is handed back to the compiler. */
module GenStubAttr {
  import opened Common

  // ---------------------------------------------------------------------------------
  // Tokens and attributes

  datatype Delimiter = Parenthesis | Brace | Bracket | NoDelimiter

  /** A token tree, as inside the parentheses of an attribute. A literal keeps its source
      text (a string literal includes its quotes); a punctuation character is kept without
      its spacing. */
  datatype Tok =
    | Ident(id: string)
    | Punct(ch: char)
    | Literal(text: string)
    | Group(delimiter: Delimiter, stream: seq<Tok>)

  /** An attribute's path: `doc`, `pyo3`, `pyo3::pyclass`, `::pyclass`, ... */
  datatype Path = Path(leadingColon: bool, segments: seq<string>)

  /** The value of a `name = value` attribute: a string literal (by its value) or any other
      expression. */
  datatype Expr = StrLit(value: string) | OtherExpr(tokens: seq<Tok>)

  /** `#[path]`, `#[path(tokens)]` or `#[path = value]`. */
  datatype Meta = PathOnly | List(tokens: seq<Tok>) | NameValue(value: Expr)

  datatype Attribute = Attribute(path: Path, meta: Meta)

  /** `path.is_ident(name)`: the path is that one identifier and nothing else. */
  predicate IsIdent(p: Path, name: string) {
    !p.leadingColon && p.segments == [name]
  }

  /** The parts of `syn` and of the renaming rules that this model does not look into,
      each reduced to whether it accepts its input. */
  datatype Syn = Syn(
    renamingRule: string -> bool,   // `RenamingRule::try_new(name)` gives `Some`
    parsesSignature: Tok -> bool,   // `syn::parse2::<Signature>` accepts the group
    parsesType: string -> bool)     // `syn::parse2::<Type>` accepts the identifier

  /** `input.parse::<Expr>()` at the front of a token stream, by the number of tokens the
      expression takes; `0` means no expression could be parsed. */
  type ExprParser = f: seq<Tok> -> nat | forall ts :: f(ts) <= |ts| witness (ts: seq<Tok>) => 0

  // ---------------------------------------------------------------------------------
  // Doc comments

  /** The leading space of a `/// text` comment removed: exactly one space, and only when
      the text starts with one. */
  function TrimHeadSpace(doc: string): (r: string)
    ensures r == doc || [' '] + r == doc
    ensures r == doc <==> !(|doc| > 0 && doc[0] == ' ')
  {
    if |doc| > 0 && doc[0] == ' ' then doc[1..] else doc
  }

  /** `#[doc = "..."]` with a string literal. */
  predicate IsDocAttr(a: Attribute) {
    IsIdent(a.path, "doc") && a.meta.NameValue? && a.meta.value.StrLit?
  }

  /** What one attribute contributes to the documentation. */
  function DocOf(a: Attribute): seq<string> {
    if IsDocAttr(a) then [TrimHeadSpace(a.meta.value.value)] else []
  }

  /** The documentation lines of a list of attributes. */
  function Documents(attrs: seq<Attribute>): seq<string>
    decreases |attrs|
  {
    if |attrs| == 0 then []
    else Documents(attrs[..|attrs| - 1]) + DocOf(attrs[|attrs| - 1])
  }

  /** `extract_documents`. */
  method ExtractDocuments(attrs: seq<Attribute>) returns (docs: seq<string>)
    ensures docs == Documents(attrs)
  {
    docs := [];
    for i := 0 to |attrs|
      invariant docs == Documents(attrs[..i])
    {
      assert attrs[..i + 1][..i] == attrs[..i];
      var attr := attrs[i];
      if IsIdent(attr.path, "doc") {
        if attr.meta.NameValue? && attr.meta.value.StrLit? {
          var doc := attr.meta.value.value;
          docs := docs + [TrimHeadSpace(doc)];
        }
      }
    }
    assert attrs[..|attrs|] == attrs;
  }

  /** Documentation is collected attribute by attribute, in order: each doc attribute gives
      one line and every other attribute gives nothing. */
  lemma {:induction false} DocumentsAppend(a: seq<Attribute>, b: seq<Attribute>)
    ensures Documents(a + b) == Documents(a) + Documents(b)
    decreases |b|
  {
    if |b| == 0 {
      assert a + b == a;
    } else {
      var b' := b[..|b| - 1];
      assert (a + b)[..|a + b| - 1] == a + b';
      assert (a + b)[|a + b| - 1] == b[|b| - 1];
      DocumentsAppend(a, b');
    }
  }

  /** The attribute `/// text` stands for. */
  function DocComment(text: string): Attribute {
    Attribute(Path(false, ["doc"]), NameValue(StrLit(" " + text)))
  }

  /** A run of `/// line` comments gives back exactly its lines. */
  lemma {:induction false} DocCommentsRoundTrip(lines: seq<string>)
    ensures Documents(seq(|lines|, i requires 0 <= i < |lines| => DocComment(lines[i]))) == lines
    decreases |lines|
  {
    var attrs := seq(|lines|, i requires 0 <= i < |lines| => DocComment(lines[i]));
    if |lines| > 0 {
      var init := lines[..|lines| - 1];
      assert attrs[..|attrs| - 1] == seq(|init|, i requires 0 <= i < |init| => DocComment(init[i]));
      DocCommentsRoundTrip(init);
      var last := lines[|lines| - 1];
      assert (" " + last)[1..] == last;
      assert DocOf(attrs[|attrs| - 1]) == [last];
      assert lines == init + [last];
    }
  }

  // ---------------------------------------------------------------------------------
  // `#[pyo3(...)]` and friends

  /** What the derive macro reads off `#[pyclass]`, `#[pyo3]`, `#[getter]` and the like.
      `Default` is never produced by any parser here: the member derivation matches on it,
      but the list of attributes that are parsed has no such form. */
  datatype Attr =
    | Name(name: string)
    | Get
    | GetAll
    | Set
    | SetAll
    | Module(moduleName: string)
    | Constructor(ctorSignature: Tok)
    | Signature(signature: Tok)
    | RenameAll(rule: string)
    | Extends(base: string)
    | New
    | Getter(getter: Option<string>)
    | Setter(setter: Option<string>)
    | StaticMethod
    | ClassMethod
    | ClassAttr
    | Default(default: string)

  /** `pyo3::pyclass`, `pyo3::pymethods` or `pyo3::pyfunction`, written out in full. */
  predicate IsFullPathPyo3(p: Path) {
    |p.segments| == 2 && p.segments[0] == "pyo3"
    && (p.segments[1] == "pyclass" || p.segments[1] == "pymethods" || p.segments[1] == "pyfunction")
  }

  /** Attributes whose argument list carries pyo3 options. */
  predicate IsPyo3Family(p: Path) {
    IsIdent(p, "pyclass") || IsIdent(p, "pymethods") || IsIdent(p, "pyfunction")
    || IsIdent(p, "pyo3") || IsFullPathPyo3(p)
  }

  /** A lone identifier between commas. */
  function LoneIdentAttrs(id: string): seq<Attr> {
    if id == "get" then [Get]
    else if id == "get_all" then [GetAll]
    else if id == "set" then [Set]
    else if id == "set_all" then [SetAll]
    else []
  }

  /** `key = "literal"`; the literal's text is taken with every surrounding `"` trimmed. */
  function KeyLiteralAttrs(key: string, lit: string, syn: Syn): seq<Attr> {
    var value := TrimMatches(lit, '"');
    if key == "name" then [Name(value)]
    else if key == "module" then [Module(value)]
    else if key == "rename_all" && syn.renamingRule(value) then [RenameAll(value)]
    else []
  }

  /** One comma-separated segment: a lone identifier, `ident = literal`, `ident = (group)` or
      `ident = ident` (the middle token may be any punctuation); anything else is ignored. */
  function SegmentAttrs(seg: seq<Tok>, syn: Syn): Result<seq<Attr>> {
    if |seg| == 1 && seg[0].Ident? then Ok(LoneIdentAttrs(seg[0].id))
    else if |seg| == 3 && seg[0].Ident? && seg[1].Punct? then
      var key := seg[0].id;
      match seg[2]
      case Literal(lit) => Ok(KeyLiteralAttrs(key, lit, syn))
      case Group(_, _) =>
        if key == "signature" then
          (if syn.parsesSignature(seg[2]) then Ok([Signature(seg[2])]) else Err)
        else if key == "constructor" then
          (if syn.parsesSignature(seg[2]) then Ok([Constructor(seg[2])]) else Err)
        else Ok([])
      case Ident(base) =>
        if key == "extends" then (if syn.parsesType(base) then Ok([Extends(base)]) else Err)
        else Ok([])
      case Punct(_) => Ok([])
    else Ok([])
  }

  function SegmentParser(syn: Syn): seq<Tok> -> Result<seq<Attr>> {
    seg => SegmentAttrs(seg, syn)
  }

  /** The comma punctuation the argument list is split at. */
  const Comma: seq<Tok> := [Punct(',')]

  /** `#[getter(name)]`: the identifier argument, if the argument list is exactly one. */
  function IdentArg(meta: Meta): Option<string> {
    if meta.List? && |meta.tokens| == 1 && meta.tokens[0].Ident? then Some(meta.tokens[0].id) else None
  }

  /** `parse_pyo3_attr`: the pyo3 options of one attribute. */
  function Pyo3Attr(attr: Attribute, syn: Syn): Result<seq<Attr>> {
    var p := attr.path;
    if IsPyo3Family(p) then
      if attr.meta.List? then FlatMap(Split(attr.meta.tokens, Comma), SegmentParser(syn)) else Ok([])
    else if IsIdent(p, "new") then Ok([New])
    else if IsIdent(p, "staticmethod") then Ok([StaticMethod])
    else if IsIdent(p, "classmethod") then Ok([ClassMethod])
    else if IsIdent(p, "classattr") then Ok([ClassAttr])
    else if IsIdent(p, "getter") then Ok([Getter(IdentArg(attr.meta))])
    else if IsIdent(p, "setter") then Ok([Setter(IdentArg(attr.meta))])
    else Ok([])
  }

  function Pyo3Parser(syn: Syn): Attribute -> Result<seq<Attr>> {
    a => Pyo3Attr(a, syn)
  }

  /** `parse_pyo3_attrs`: the pyo3 options of every attribute, in order. */
  function Pyo3Attrs(attrs: seq<Attribute>, syn: Syn): Result<seq<Attr>> {
    FlatMap(attrs, Pyo3Parser(syn))
  }

  /** `parse_pyo3_attr`: split the argument list at commas and match each segment. */
  method ParsePyo3Attr(attr: Attribute, syn: Syn) returns (r: Result<seq<Attr>>)
    ensures r == Pyo3Attr(attr, syn)
  {
    var out: seq<Attr> := [];
    var path := attr.path;
    if IsPyo3Family(path) {
      if attr.meta.List? {
        var segments := Split(attr.meta.tokens, Comma);
        for i := 0 to |segments|
          invariant FlatMap(segments[..i], SegmentParser(syn)) == Ok(out)
        {
          assert segments[..i + 1][..i] == segments[..i];
          var found := SegmentAttrs(segments[i], syn);
          if found.Err? {
            assert SegmentParser(syn)(segments[i]).Err?;
            return Err;
          }
          out := out + found.value;
        }
        assert segments[..|segments|] == segments;
      }
    } else if IsIdent(path, "new") {
      out := [New];
    } else if IsIdent(path, "staticmethod") {
      out := [StaticMethod];
    } else if IsIdent(path, "classmethod") {
      out := [ClassMethod];
    } else if IsIdent(path, "classattr") {
      out := [ClassAttr];
    } else if IsIdent(path, "getter") {
      out := [Getter(IdentArg(attr.meta))];
    } else if IsIdent(path, "setter") {
      out := [Setter(IdentArg(attr.meta))];
    }
    r := Ok(out);
  }

  /** `parse_pyo3_attrs`: each attribute's options appended in turn; the first failure is
      the result. */
  method ParsePyo3Attrs(attrs: seq<Attribute>, syn: Syn) returns (r: Result<seq<Attr>>)
    ensures r == Pyo3Attrs(attrs, syn)
  {
    var out: seq<Attr> := [];
    for i := 0 to |attrs|
      invariant FlatMap(attrs[..i], Pyo3Parser(syn)) == Ok(out)
    {
      assert attrs[..i + 1][..i] == attrs[..i];
      var found := ParsePyo3Attr(attrs[i], syn);
      if found.Err? {
        assert Pyo3Parser(syn)(attrs[i]).Err?;
        return Err;
      }
      out := out + found.value;
    }
    assert attrs[..|attrs|] == attrs;
    r := Ok(out);
  }

  // ---------------------------------------------------------------------------------
  // Pruning `#[gen_stub(...)]`

  /** The macro's own attribute, which the compiler does not know and must not see. */
  predicate IsGenStub(a: Attribute) {
    IsIdent(a.path, "gen_stub")
  }

  /** The attributes that are kept, in their order. */
  function Pruned(attrs: seq<Attribute>): (kept: seq<Attribute>)
    ensures forall a :: a in kept <==> a in attrs && !IsGenStub(a)
    decreases |attrs|
  {
    if |attrs| == 0 then []
    else
      var init := attrs[..|attrs| - 1];
      var last := attrs[|attrs| - 1];
      assert attrs == init + [last];
      Pruned(init) + (if IsGenStub(last) then [] else [last])
  }

  /** The attribute list of an item being expanded, edited in place. */
  class AttrVec {
    var items: seq<Attribute>

    constructor (items: seq<Attribute>)
      ensures this.items == items
    {
      this.items := items;
    }
  }

  /** `prune_attrs`: drop every `#[gen_stub(...)]` and keep the rest in order. */
  method PruneAttrs(attrs: AttrVec)
    modifies attrs
    ensures attrs.items == Pruned(old(attrs.items))
  {
    attrs.items := Pruned(attrs.items);
  }

  /** Pruning works attribute by attribute, so the kept attributes stay in order. */
  lemma {:induction false} PrunedAppend(a: seq<Attribute>, b: seq<Attribute>)
    ensures Pruned(a + b) == Pruned(a) + Pruned(b)
    decreases |b|
  {
    if |b| == 0 {
      assert a + b == a;
    } else {
      var b' := b[..|b| - 1];
      assert (a + b)[..|a + b| - 1] == a + b';
      assert (a + b)[|a + b| - 1] == b[|b| - 1];
      PrunedAppend(a, b');
    }
  }

  /** Pruning twice removes nothing more, and a list without the macro's attribute is left
      as it is. */
  lemma {:induction false} PrunedNoGenStub(attrs: seq<Attribute>)
    requires forall i :: 0 <= i < |attrs| ==> !IsGenStub(attrs[i])
    ensures Pruned(attrs) == attrs
    decreases |attrs|
  {
    if |attrs| > 0 {
      PrunedNoGenStub(attrs[..|attrs| - 1]);
      assert attrs == attrs[..|attrs| - 1] + [attrs[|attrs| - 1]];
    }
  }

  lemma PrunedIdempotent(attrs: seq<Attribute>)
    ensures Pruned(Pruned(attrs)) == Pruned(attrs)
  {
    var kept := Pruned(attrs);
    assert forall i :: 0 <= i < |kept| ==> kept[i] in kept;
    PrunedNoGenStub(kept);
  }

  /** Pruning does not change the documentation read off the item. */
  lemma {:induction false} PruneKeepsDocuments(attrs: seq<Attribute>)
    ensures Documents(Pruned(attrs)) == Documents(attrs)
    decreases |attrs|
  {
    if |attrs| > 0 {
      var init := attrs[..|attrs| - 1];
      var last := attrs[|attrs| - 1];
      PruneKeepsDocuments(init);
      var lastKept: seq<Attribute> := if IsGenStub(last) then [] else [last];
      assert Pruned(attrs) == Pruned(init) + lastKept;
      DocumentsAppend(Pruned(init), lastKept);
      assert [last][..0] == [];
      if IsGenStub(last) {
        assert Documents(lastKept) == [];
        assert Documents(Pruned(init)) + [] == Documents(Pruned(init));
      }
    }
  }

  /** The macro's own attribute carries no pyo3 options. */
  lemma GenStubIsNotPyo3(a: Attribute, syn: Syn)
    requires IsGenStub(a)
    ensures Pyo3Parser(syn)(a) == Ok([])
  {
    assert !IsFullPathPyo3(a.path);
  }

  /** Pruning does not change what is read off the item by a reader that ignores the
      macro's own attribute. */
  lemma {:induction false} PruneKeepsFlatMap<B>(attrs: seq<Attribute>, f: Attribute -> Result<seq<B>>)
    requires forall a :: IsGenStub(a) ==> f(a) == Ok([])
    ensures FlatMap(Pruned(attrs), f) == FlatMap(attrs, f)
    decreases |attrs|
  {
    if |attrs| > 0 {
      var init := attrs[..|attrs| - 1];
      var last := attrs[|attrs| - 1];
      PruneKeepsFlatMap(init, f);
      var lastKept: seq<Attribute> := if IsGenStub(last) then [] else [last];
      assert Pruned(attrs) == Pruned(init) + lastKept;
      FlatMapAppend(Pruned(init), lastKept, f);
      if IsGenStub(last) {
        assert FlatMap(lastKept, f) == Ok([]);
        if FlatMap(init, f).Ok? {
          assert FlatMap(init, f).value + [] == FlatMap(init, f).value;
        }
      } else {
        assert [last][..0] == [];
        assert FlatMap([], f) == Ok([]);
        if f(last).Ok? {
          assert [] + f(last).value == f(last).value;
        }
        assert FlatMap(lastKept, f) == f(last);
      }
    }
  }

  /** Pruning does not change the pyo3 options read off the item. */
  lemma PruneKeepsPyo3Attrs(attrs: seq<Attribute>, syn: Syn)
    ensures Pyo3Attrs(Pruned(attrs), syn) == Pyo3Attrs(attrs, syn)
  {
    forall a | IsGenStub(a) ensures Pyo3Parser(syn)(a) == Ok([]) {
      GenStubIsNotPyo3(a, syn);
    }
    PruneKeepsFlatMap(attrs, Pyo3Parser(syn));
  }

  // ---------------------------------------------------------------------------------
  // `#[gen_stub(...)]`

  /** What the macro's own attribute says about a field or method. */
  datatype StubGenAttr =
    | Default(expr: seq<Tok>)   // `default = expr`: the getter's default value
    | Skip                      // `skip`: leave the item out of the stub

  /** One `ident` or `ident = expr` item at the front of the input, with the number of tokens
      it takes. */
  function GenStubItem(ts: seq<Tok>, expr: ExprParser): (r: Result<(StubGenAttr, nat)>)
    requires |ts| > 0
    ensures r.Ok? ==> 0 < r.value.1 <= |ts|
  {
    if !ts[0].Ident? then Err
    else if |ts| > 1 && ts[1] == Punct('=') then
      if ts[0].id == "default" then
        var n := expr(ts[2..]);
        if n == 0 then Err else Ok((StubGenAttr.Default(ts[2..2 + n]), 2 + n))
      else Err
    else if ts[0].id == "skip" then Ok((Skip, 1))
    else Err
  }

  /** The argument list of `#[gen_stub(...)]`: items separated by commas, a trailing comma
      allowed, nothing else left over. */
  function GenStubItems(ts: seq<Tok>, expr: ExprParser): Result<seq<StubGenAttr>>
    decreases |ts|
  {
    if |ts| == 0 then Ok([])
    else match GenStubItem(ts, expr)
      case Err => Err
      case Ok((item, n)) =>
        if n == |ts| then Ok([item])
        else if ts[n] == Punct(',') then Prepend([item], GenStubItems(ts[n + 1..], expr))
        else Err
  }

  /** The items parsed so far ahead of the result for the rest of the input. */
  function Prepend<T>(done: seq<T>, rest: Result<seq<T>>): Result<seq<T>> {
    if rest.Err? then Err else Ok(done + rest.value)
  }

  /** `parse_gen_stub_attr`: the items of one attribute; an attribute of another name gives
      none, and `#[gen_stub]` or `#[gen_stub = ...]` fails. */
  function GenStubItemsOf(attr: Attribute, expr: ExprParser): Result<seq<StubGenAttr>> {
    if !IsGenStub(attr) then Ok([])
    else if attr.meta.List? then GenStubItems(attr.meta.tokens, expr)
    else Err
  }

  /** A failing front item fails the whole list. */
  lemma ItemsErr(ts: seq<Tok>, expr: ExprParser)
    requires |ts| > 0 && GenStubItem(ts, expr).Err?
    ensures GenStubItems(ts, expr) == Err
  {
  }

  /** After a front item that takes `n` tokens, the list ends, continues after a comma, or
      fails. */
  lemma ItemsAfter(ts: seq<Tok>, expr: ExprParser, item: StubGenAttr, n: nat)
    requires |ts| > 0 && GenStubItem(ts, expr) == Ok((item, n))
    ensures n == |ts| ==> GenStubItems(ts, expr) == Ok([item])
    ensures n < |ts| && ts[n] == Punct(',') ==>
      GenStubItems(ts, expr) == Prepend([item], GenStubItems(ts[n + 1..], expr))
    ensures n < |ts| && ts[n] != Punct(',') ==> GenStubItems(ts, expr) == Err
  {
  }

  lemma PrependPrepend<T>(a: seq<T>, b: seq<T>, r: Result<seq<T>>)
    ensures Prepend(a, Prepend(b, r)) == Prepend(a + b, r)
  {
    if r.Ok? {
      assert a + (b + r.value) == a + b + r.value;
    }
  }

  /** `parse_gen_stub_attr`: the item loop of the argument parser, which consumes the input
      from the front. */
  method ParseGenStubAttr(attr: Attribute, expr: ExprParser) returns (r: Result<seq<StubGenAttr>>)
    ensures r == GenStubItemsOf(attr, expr)
  {
    if !IsIdent(attr.path, "gen_stub") {
      return Ok([]);
    }
    if !attr.meta.List? {
      return Err;
    }
    ghost var ts := attr.meta.tokens;
    var input := attr.meta.tokens;
    var out: seq<StubGenAttr> := [];
    assert Prepend(out, GenStubItems(ts, expr)) == GenStubItems(ts, expr) by {
      if GenStubItems(ts, expr).Ok? {
        assert out + GenStubItems(ts, expr).value == GenStubItems(ts, expr).value;
      }
    }
    while |input| > 0
      invariant GenStubItems(ts, expr) == Prepend(out, GenStubItems(input, expr))
      decreases |input|
    {
      var step := ParseItem(input, expr);
      if step.Err? {
        ItemsErr(input, expr);
        return Err;
      }
      var item := step.value.0;
      var n := step.value.1;
      ItemsAfter(input, expr, item, n);
      ghost var before := out;
      out := out + [item];
      if n < |input| && input[n] == Punct(',') {
        PrependPrepend(before, [item], GenStubItems(input[n + 1..], expr));
        input := input[n + 1..];
      } else {
        if n == |input| {
          assert GenStubItems(ts, expr) == Ok(out);
        } else {
          assert GenStubItems(ts, expr) == Err;
        }
        input := input[n..];
        break;
      }
    }
    if |input| > 0 {
      return Err;
    }
    assert GenStubItems(ts, expr) == Ok(out) by {
      assert out + [] == out;
    }
    r := Ok(out);
  }

  /** One pass of the item loop: an identifier, then `= expr` for `default` or nothing for
      `skip`; the item and the number of tokens it took. */
  method ParseItem(input: seq<Tok>, expr: ExprParser) returns (r: Result<(StubGenAttr, nat)>)
    requires |input| > 0
    ensures r == GenStubItem(input, expr)
  {
    if !input[0].Ident? {
      return Err;
    }
    var ident := input[0].id;
    if |input| > 1 && input[1] == Punct('=') {
      if ident == "default" {
        var n := expr(input[2..]);
        if n == 0 {
          return Err;
        }
        r := Ok((StubGenAttr.Default(input[2..2 + n]), 2 + n));
      } else {
        r := Err;
      }
    } else if ident == "skip" {
      r := Ok((Skip, 1));
    } else {
      r := Err;
    }
  }

  function GenStubParser(expr: ExprParser): Attribute -> Result<seq<StubGenAttr>> {
    a => GenStubItemsOf(a, expr)
  }

  /** `parse_gen_stub_attrs`: the items of every attribute, in order. */
  function GenStubAttrs(attrs: seq<Attribute>, expr: ExprParser): Result<seq<StubGenAttr>> {
    FlatMap(attrs, GenStubParser(expr))
  }

  /** `parse_gen_stub_attrs`: each attribute's items appended in turn; the first failure is
      the result. */
  method ParseGenStubAttrs(attrs: seq<Attribute>, expr: ExprParser) returns (r: Result<seq<StubGenAttr>>)
    ensures r == GenStubAttrs(attrs, expr)
  {
    var out: seq<StubGenAttr> := [];
    for i := 0 to |attrs|
      invariant FlatMap(attrs[..i], GenStubParser(expr)) == Ok(out)
    {
      assert attrs[..i + 1][..i] == attrs[..i];
      var found := ParseGenStubAttr(attrs[i], expr);
      if found.Err? {
        assert GenStubParser(expr)(attrs[i]).Err?;
        return Err;
      }
      out := out + found.value;
    }
    assert attrs[..|attrs|] == attrs;
    r := Ok(out);
  }

  /** The expression of the first `default = ...` item, if there is one. */
  function FirstDefault(items: seq<StubGenAttr>): (r: Option<seq<Tok>>)
    ensures r.None? <==> forall i :: 0 <= i < |items| ==> !items[i].Default?
    ensures r.Some? ==> exists k :: (0 <= k < |items| && items[k] == StubGenAttr.Default(r.value)
                                     && forall j :: 0 <= j < k ==> !items[j].Default?)
    decreases |items|
  {
    if |items| == 0 then None
    else if items[0].Default? then Some(items[0].expr)
    else
      var r := FirstDefault(items[1..]);
      assert forall i :: 1 <= i < |items| ==> items[i] == items[1..][i - 1];
      if r.Some? then
        var k :| 0 <= k < |items[1..]| && items[1..][k] == StubGenAttr.Default(r.value)
          && forall j :: 0 <= j < k ==> !items[1..][j].Default?;
        assert items[k + 1] == StubGenAttr.Default(r.value);
        r
      else r
  }

  /** The first default is the one at the first position holding a default. */
  lemma {:induction false} FirstDefaultAt(items: seq<StubGenAttr>, i: nat)
    requires i < |items| && items[i].Default?
    requires forall j :: 0 <= j < i ==> !items[j].Default?
    ensures FirstDefault(items) == Some(items[i].expr)
    decreases i
  {
    if i > 0 {
      FirstDefaultAt(items[1..], i - 1);
    }
  }

  /** `parse_gen_stub_default`: the first default given by the macro's attributes. */
  method ParseGenStubDefault(attrs: seq<Attribute>, expr: ExprParser) returns (r: Result<Option<seq<Tok>>>)
    ensures r.Err? <==> GenStubAttrs(attrs, expr).Err?
    ensures r.Ok? ==> r.value == FirstDefault(GenStubAttrs(attrs, expr).value)
  {
    var all := ParseGenStubAttrs(attrs, expr);
    if all.Err? {
      return Err;
    }
    var items := all.value;
    for i := 0 to |items|
      invariant forall j :: 0 <= j < i ==> !items[j].Default?
    {
      if items[i].Default? {
        FirstDefaultAt(items, i);
        return Ok(Some(items[i].expr));
      }
    }
    return Ok(None);
  }

  /** `parse_gen_stub_skip`: whether any of the macro's attributes says `skip`. */
  function GenStubSkip(attrs: seq<Attribute>, expr: ExprParser): (r: Result<bool>)
    ensures r.Err? <==> GenStubAttrs(attrs, expr).Err?
    ensures r.Ok? ==> (r.value <==> exists i :: (0 <= i < |GenStubAttrs(attrs, expr).value|
                                                 && GenStubAttrs(attrs, expr).value[i].Skip?))
  {
    match GenStubAttrs(attrs, expr)
    case Err => Err
    case Ok(items) => Ok(Skip in items)
  }

  // ---------------------------------------------------------------------------------
  // Properties of `#[gen_stub(...)]`

  /** The tokens an item is written as. */
  function ItemTokens(item: StubGenAttr): seq<Tok> {
    match item
    case Default(e) => [Ident("default"), Punct('=')] + e
    case Skip => [Ident("skip")]
  }

  /** Items written out, separated by commas. */
  function PrintItems(items: seq<StubGenAttr>): seq<Tok>
    decreases |items|
  {
    if |items| == 0 then []
    else if |items| == 1 then ItemTokens(items[0])
    else ItemTokens(items[0]) + Comma + PrintItems(items[1..])
  }

  /** The expression parser takes exactly `e`, alone or ahead of a comma and anything. */
  ghost predicate Delimits(expr: ExprParser, e: seq<Tok>) {
    |e| > 0 && expr(e) == |e| && forall rest :: expr(e + Comma + rest) == |e|
  }

  /** An item written out reads back as itself ahead of the end of input or of a comma. */
  lemma ItemOfTokens(item: StubGenAttr, tail: seq<Tok>, expr: ExprParser)
    requires tail == [] || tail[0] == Punct(',')
    requires item.Default? ==> |item.expr| > 0 && expr(item.expr + tail) == |item.expr|
    ensures GenStubItem(ItemTokens(item) + tail, expr) == Ok((item, |ItemTokens(item)|))
  {
    match item {
      case Default(e) => DefaultOfTokens(e, tail, expr);
      case Skip => SkipOfTokens(tail, expr);
    }
  }

  lemma DefaultOfTokens(e: seq<Tok>, tail: seq<Tok>, expr: ExprParser)
    requires |e| > 0 && expr(e + tail) == |e|
    ensures GenStubItem([Ident("default"), Punct('=')] + e + tail, expr)
      == Ok((StubGenAttr.Default(e), 2 + |e|))
  {
    var ts := [Ident("default"), Punct('=')] + e + tail;
    assert ts[0] == Ident("default") && ts[1] == Punct('=');
    assert ts[2..] == e + tail;
    assert ts[2..2 + |e|] == e;
  }

  lemma SkipOfTokens(tail: seq<Tok>, expr: ExprParser)
    requires tail == [] || tail[0] == Punct(',')
    ensures GenStubItem([Ident("skip")] + tail, expr) == Ok((Skip, 1))
  {
    var ts := [Ident("skip")] + tail;
    assert ts[0] == Ident("skip");
    assert |ts| > 1 ==> ts[1] == Punct(',');
  }

  /** One more item in front of a list that reads back reads back too. */
  lemma RoundTripStep(item: StubGenAttr, more: seq<StubGenAttr>, expr: ExprParser)
    requires item.Default? ==> Delimits(expr, item.expr)
    requires |more| > 0 && GenStubItems(PrintItems(more), expr) == Ok(more)
    ensures GenStubItems(PrintItems([item] + more), expr) == Ok([item] + more)
  {
    var head := ItemTokens(item);
    var rest := PrintItems(more);
    var ts := head + ([Punct(',')] + rest);
    PrintItemsCons(item, more);
    DelimitedBeforeComma(item, rest, expr);
    ItemOfTokens(item, [Punct(',')] + rest, expr);
    ItemsAfter(ts, expr, item, |head|);
    assert ts[|head|] == Punct(',');
    assert ts[|head| + 1..] == rest;
  }

  lemma PrintItemsCons(item: StubGenAttr, more: seq<StubGenAttr>)
    requires |more| > 0
    ensures PrintItems([item] + more) == ItemTokens(item) + ([Punct(',')] + PrintItems(more))
  {
    assert ([item] + more)[1..] == more;
  }

  lemma DelimitedBeforeComma(item: StubGenAttr, rest: seq<Tok>, expr: ExprParser)
    requires item.Default? ==> Delimits(expr, item.expr)
    ensures item.Default? ==> |item.expr| > 0 && expr(item.expr + ([Punct(',')] + rest)) == |item.expr|
  {
    if item.Default? {
      assert item.expr + ([Punct(',')] + rest) == item.expr + Comma + rest;
    }
  }

  /** A single item written out reads back as itself. */
  lemma RoundTripOne(item: StubGenAttr, expr: ExprParser)
    requires item.Default? ==> Delimits(expr, item.expr)
    ensures GenStubItems(PrintItems([item]), expr) == Ok([item])
  {
    var head := ItemTokens(item);
    assert head + [] == head;
    if item.Default? {
      assert Delimits(expr, item.expr);
      assert item.expr + [] == item.expr;
    }
    ItemOfTokens(item, [], expr);
    ItemsAfter(head, expr, item, |head|);
  }

  /** Items written out read back as themselves, when the expression parser ends each
      default expression where it was written to end. */
  lemma {:induction false} GenStubRoundTrip(items: seq<StubGenAttr>, expr: ExprParser)
    requires forall i :: 0 <= i < |items| && items[i].Default? ==> Delimits(expr, items[i].expr)
    ensures GenStubItems(PrintItems(items), expr) == Ok(items)
    decreases |items|
  {
    if |items| == 1 {
      RoundTripOne(items[0], expr);
      assert items == [items[0]];
    } else if |items| > 1 {
      GenStubRoundTrip(items[1..], expr);
      RoundTripStep(items[0], items[1..], expr);
      assert [items[0]] + items[1..] == items;
    }
  }

  /** Only `skip` may stand alone and only `default` may take a value: any other leading
      keyword, or a leading token that is not an identifier, fails the attribute. */
  lemma GenStubRejectsUnknown(t: Tok, rest: seq<Tok>, expr: ExprParser)
    ensures !t.Ident? ==> GenStubItems([t] + rest, expr) == Err
    ensures t.Ident? && t.id != "skip" && (|rest| == 0 || rest[0] != Punct('=')) ==>
      GenStubItems([t] + rest, expr) == Err
    ensures t.Ident? && t.id != "default" && |rest| > 0 && rest[0] == Punct('=') ==>
      GenStubItems([t] + rest, expr) == Err
  {
    var ts := [t] + rest;
    assert ts[0] == t;
    assert |rest| > 0 ==> ts[1] == rest[0];
  }

  /** `default = ...` fails exactly when the expression parser takes no token, and then the
      whole argument list fails. */
  lemma EmptyDefaultFails(rest: seq<Tok>, expr: ExprParser)
    ensures var ts := [Ident("default"), Punct('=')] + rest;
      && (GenStubItem(ts, expr).Err? <==> expr(rest) == 0)
      && (expr(rest) == 0 ==> GenStubItems(ts, expr) == Err)
  {
    var ts := [Ident("default"), Punct('=')] + rest;
    assert ts[2..] == rest;
  }

  /** The attribute `#[gen_stub(tokens)]`. */
  function GenStubList(tokens: seq<Tok>): Attribute {
    Attribute(Path(false, ["gen_stub"]), List(tokens))
  }

  /** `String::from("foo")`. */
  const FooCall: seq<Tok> :=
    [Ident("String"), Punct(':'), Punct(':'), Ident("from"), Group(Parenthesis, [Literal(Quoted("foo"))])]

  /** `1+2`. */
  const OnePlusTwo: seq<Tok> := [Literal("1"), Punct('+'), Literal("2")]

  /** `test_parse_gen_stub_attr`, field0: `default = String::from("foo"), skip`. */
  lemma GenStubExampleDefaultSkip(expr: ExprParser)
    requires expr(FooCall + Comma + [Ident("skip")]) == |FooCall|
    ensures GenStubAttrs([GenStubList(ItemTokens(StubGenAttr.Default(FooCall)) + Comma + [Ident("skip")])], expr)
      == Ok([StubGenAttr.Default(FooCall), Skip])
  {
    var item := StubGenAttr.Default(FooCall);
    var tail := Comma + [Ident("skip")];
    var ts := ItemTokens(item) + tail;
    assert ItemTokens(item) + Comma + [Ident("skip")] == ts;
    assert GenStubItems(ts, expr) == Prepend([item], GenStubItems([Ident("skip")], expr)) by {
      assert FooCall + tail == FooCall + Comma + [Ident("skip")];
      ItemOfTokens(item, tail, expr);
      ItemsAfter(ts, expr, item, |ItemTokens(item)|);
      assert ts[|ItemTokens(item)| + 1..] == [Ident("skip")];
    }
    assert GenStubItems([Ident("skip")], expr) == Ok([Skip]) by {
      ItemOfTokens(Skip, [], expr);
      ItemsAfter([Ident("skip")], expr, Skip, 1);
    }
    assert [item] + [Skip] == [item, Skip];
    assert GenStubItemsOf(GenStubList(ts), expr) == GenStubItems(ts, expr);
    FlatMapOne(GenStubList(ts), GenStubParser(expr));
  }

  /** `test_parse_gen_stub_attr`, field1: `skip`. */
  lemma GenStubExampleSkip(expr: ExprParser)
    ensures GenStubAttrs([GenStubList([Ident("skip")])], expr) == Ok([Skip])
  {
    ItemOfTokens(Skip, [], expr);
    ItemsAfter([Ident("skip")], expr, Skip, 1);
    FlatMapOne(GenStubList([Ident("skip")]), GenStubParser(expr));
  }

  /** `test_parse_gen_stub_attr`, field2: `default = 1+2`. */
  lemma GenStubExampleDefault(expr: ExprParser)
    requires expr(OnePlusTwo) == |OnePlusTwo|
    ensures GenStubAttrs([GenStubList(ItemTokens(StubGenAttr.Default(OnePlusTwo)))], expr)
      == Ok([StubGenAttr.Default(OnePlusTwo)])
  {
    var item := StubGenAttr.Default(OnePlusTwo);
    var ts := ItemTokens(item);
    assert ts + [] == ts && OnePlusTwo + [] == OnePlusTwo;
    ItemOfTokens(item, [], expr);
    ItemsAfter(ts, expr, item, |ts|);
    FlatMapOne(GenStubList(ts), GenStubParser(expr));
  }

  /** Pruning leaves nothing for the macro's own attribute reader. */
  lemma {:induction false} PruneRemovesGenStub(attrs: seq<Attribute>, expr: ExprParser)
    ensures GenStubAttrs(Pruned(attrs), expr) == Ok([])
    decreases |attrs|
  {
    if |attrs| > 0 {
      var init := attrs[..|attrs| - 1];
      var last := attrs[|attrs| - 1];
      var f := GenStubParser(expr);
      PruneRemovesGenStub(init, expr);
      var lastKept: seq<Attribute> := if IsGenStub(last) then [] else [last];
      assert Pruned(attrs) == Pruned(init) + lastKept;
      FlatMapAppend(Pruned(init), lastKept, f);
      if !IsGenStub(last) {
        assert [last][..0] == [];
        assert f(last) == Ok([]);
      }
    }
  }

  // ---------------------------------------------------------------------------------
  // Properties of the pyo3 options

  /** No segment is read as a default value. */
  lemma SegmentNoDefault(seg: seq<Tok>, syn: Syn)
    ensures SegmentAttrs(seg, syn).Ok? ==>
      forall j :: 0 <= j < |SegmentAttrs(seg, syn).value| ==> !SegmentAttrs(seg, syn).value[j].Default?
  {
    if |seg| == 1 && seg[0].Ident? {
      assert SegmentAttrs(seg, syn) == Ok(LoneIdentAttrs(seg[0].id));
    } else if |seg| == 3 && seg[0].Ident? && seg[1].Punct? && seg[2].Literal? {
      assert SegmentAttrs(seg, syn) == Ok(KeyLiteralAttrs(seg[0].id, seg[2].text, syn));
    }
  }

  /** No attribute's options include a default value. */
  lemma Pyo3AttrNoDefault(attr: Attribute, syn: Syn)
    ensures Pyo3Attr(attr, syn).Ok? ==>
      forall j :: 0 <= j < |Pyo3Attr(attr, syn).value| ==> !Pyo3Attr(attr, syn).value[j].Default?
  {
    if IsPyo3Family(attr.path) && attr.meta.List? {
      var g := SegmentParser(syn);
      forall seg, j | g(seg).Ok? && 0 <= j < |g(seg).value| ensures NotDefault(g(seg).value[j]) {
        SegmentNoDefault(seg, syn);
      }
      FlatMapAll(Split(attr.meta.tokens, Comma), g, NotDefault);
    }
  }

  function NotDefault(x: Attr): bool {
    !x.Default?
  }

  /** No pyo3 option is ever read as a default value: `Default` is a form the member
      derivation can match on but that nothing produces. */
  lemma NoParsedDefault(attrs: seq<Attribute>, syn: Syn)
    ensures Pyo3Attrs(attrs, syn).Ok? ==>
      forall j :: 0 <= j < |Pyo3Attrs(attrs, syn).value| ==> !Pyo3Attrs(attrs, syn).value[j].Default?
  {
    var f := Pyo3Parser(syn);
    forall a, j | f(a).Ok? && 0 <= j < |f(a).value| ensures NotDefault(f(a).value[j]) {
      Pyo3AttrNoDefault(a, syn);
    }
    FlatMapAll(attrs, f, NotDefault);
  }

  /** The argument list is read as its comma-separated segments: joined with commas they
      give back the list, and no segment holds a comma. */
  lemma ListSegments(attr: Attribute, syn: Syn)
    requires IsPyo3Family(attr.path) && attr.meta.List?
    ensures var segments := Split(attr.meta.tokens, Comma);
      && Pyo3Attr(attr, syn) == FlatMap(segments, SegmentParser(syn))
      && Join(segments, Comma) == attr.meta.tokens
      && forall i :: 0 <= i < |segments| ==> Punct(',') !in segments[i]
  {
    JoinSplit(attr.meta.tokens, Comma);
    SplitAvoids(attr.meta.tokens, Punct(','));
  }

  /** `pyo3::pyclass(...)`, with or without a leading `::`, reads as `pyclass(...)`, and
      likewise for `pymethods` and `pyfunction`. */
  lemma FullPathAsShort(leadingColon: bool, kind: string, meta: Meta, syn: Syn)
    requires kind == "pyclass" || kind == "pymethods" || kind == "pyfunction"
    ensures Pyo3Attr(Attribute(Path(leadingColon, ["pyo3", kind]), meta), syn)
      == Pyo3Attr(Attribute(Path(false, [kind]), meta), syn)
  {
  }

  /** The source text of a string literal without escapes. */
  function Quoted(x: string): string {
    "\"" + x + "\""
  }

  /** `key = "value"` keeps the text between the quotes: `name` and `module` always, and
      `rename_all` when the text names a renaming rule. */
  lemma QuotedValue(key: string, x: string, syn: Syn)
    requires |x| == 0 || (x[0] != '"' && x[|x| - 1] != '"')
    ensures var seg := [Ident(key), Punct('='), Literal(Quoted(x))];
      && (key == "name" ==> SegmentAttrs(seg, syn) == Ok([Name(x)]))
      && (key == "module" ==> SegmentAttrs(seg, syn) == Ok([Module(x)]))
      && (key == "rename_all" ==>
            SegmentAttrs(seg, syn) == if syn.renamingRule(x) then Ok([RenameAll(x)]) else Ok([]))
  {
    var seg := [Ident(key), Punct('='), Literal(Quoted(x))];
    assert SegmentAttrs(seg, syn) == Ok(KeyLiteralAttrs(key, Quoted(x), syn));
    assert TrimMatches(Quoted(x), '"') == x by {
      Unquote(x);
    }
  }

  /** `#[pyclass(mapping, module = "my_module", name = "Placeholder")]`. */
  function ExampleClass(): Attribute {
    Attribute(Path(false, ["pyclass"]), List(
      [Ident("mapping")] + Comma
      + [Ident("module"), Punct('='), Literal(Quoted("my_module"))] + Comma
      + [Ident("name"), Punct('='), Literal(Quoted("Placeholder"))]))
  }

  /** `#[pyo3(rename_all = "SCREAMING_SNAKE_CASE")]`. */
  function ExampleRename(): Attribute {
    Attribute(Path(false, ["pyo3"]), List([Ident("rename_all"), Punct('='), Literal(Quoted("SCREAMING_SNAKE_CASE"))]))
  }

  /** `test_parse_pyo3_attr`, `#[pyclass(...)]`: the module and the name, in order;
      `mapping` is not one of the options read. */
  lemma ExampleClassOptions(syn: Syn)
    ensures Pyo3Attr(ExampleClass(), syn) == Ok([Module("my_module"), Name("Placeholder")])
  {
    var s0: seq<Tok> := [Ident("mapping")];
    var s1: seq<Tok> := [Ident("module"), Punct('='), Literal(Quoted("my_module"))];
    var s2: seq<Tok> := [Ident("name"), Punct('='), Literal(Quoted("Placeholder"))];
    assert IsPyo3Family(ExampleClass().path);
    calc {
      Pyo3Attr(ExampleClass(), syn);
      FlatMap(Split(ExampleClass().meta.tokens, Comma), SegmentParser(syn));
      { ExampleClassSplit(); }
      FlatMap([s0, s1, s2], SegmentParser(syn));
      { ExampleClassSegments(syn); }
      Ok([Module("my_module"), Name("Placeholder")]);
    }
  }

  lemma ExampleClassSplit()
    ensures Split(ExampleClass().meta.tokens, Comma) == [
      [Ident("mapping")],
      [Ident("module"), Punct('='), Literal(Quoted("my_module"))],
      [Ident("name"), Punct('='), Literal(Quoted("Placeholder"))]]
  {
    var s0: seq<Tok> := [Ident("mapping")];
    var s1: seq<Tok> := [Ident("module"), Punct('='), Literal(Quoted("my_module"))];
    var s2: seq<Tok> := [Ident("name"), Punct('='), Literal(Quoted("Placeholder"))];
    assert [s0, s1, s2][1..] == [s1, s2];
    assert [s1, s2][1..] == [s2];
    assert Join([s1, s2], Comma) == s1 + Comma + s2;
    assert Join([s0, s1, s2], Comma) == s0 + Comma + (s1 + Comma + s2);
    assert s0 + Comma + (s1 + Comma + s2) == s0 + Comma + s1 + Comma + s2;
    SplitJoin([s0, s1, s2], Comma);
  }

  lemma ExampleClassSegments(syn: Syn)
    ensures FlatMap([
      [Ident("mapping")],
      [Ident("module"), Punct('='), Literal(Quoted("my_module"))],
      [Ident("name"), Punct('='), Literal(Quoted("Placeholder"))]], SegmentParser(syn))
      == Ok([Module("my_module"), Name("Placeholder")])
  {
    var s0: seq<Tok> := [Ident("mapping")];
    var s1: seq<Tok> := [Ident("module"), Punct('='), Literal(Quoted("my_module"))];
    var s2: seq<Tok> := [Ident("name"), Punct('='), Literal(Quoted("Placeholder"))];
    assert SegmentAttrs(s0, syn) == Ok([]);
    QuotedValue("module", "my_module", syn);
    QuotedValue("name", "Placeholder", syn);
    ThreeSegments(s0, s1, s2, Module("my_module"), Name("Placeholder"), syn);
  }

  /** Three segments of which the first gives nothing and the others one option each. */
  lemma ThreeSegments(s0: seq<Tok>, s1: seq<Tok>, s2: seq<Tok>, a1: Attr, a2: Attr, syn: Syn)
    requires SegmentAttrs(s0, syn) == Ok([])
    requires SegmentAttrs(s1, syn) == Ok([a1]) && SegmentAttrs(s2, syn) == Ok([a2])
    ensures FlatMap([s0, s1, s2], SegmentParser(syn)) == Ok([a1, a2])
  {
    FlatMapThree(s0, s1, s2, SegmentParser(syn));
    assert [] + [a1] + [a2] == [a1, a2];
  }

  /** `test_parse_pyo3_attr`, `#[pyo3(rename_all = ...)]`: the rule, when it names one. */
  lemma ExampleRenameOptions(syn: Syn)
    requires syn.renamingRule("SCREAMING_SNAKE_CASE")
    ensures Pyo3Attr(ExampleRename(), syn) == Ok([RenameAll("SCREAMING_SNAKE_CASE")])
  {
    var t := ExampleRename().meta.tokens;
    var x := "SCREAMING_SNAKE_CASE";
    assert t == [Ident("rename_all"), Punct('='), Literal(Quoted(x))];
    assert SegmentAttrs(t, syn) == Ok([RenameAll(x)]) by {
      QuotedValue("rename_all", x, syn);
    }
    assert Split(t, Comma) == [t] by {
      NotFound(t, Comma);
    }
    FlatMapOne(t, SegmentParser(syn));
  }

  /** `test_parse_pyo3_attr`: the class attribute and the renaming attribute together give
      the module, the name and the renaming rule, in order. */
  lemma Pyo3Example(syn: Syn)
    requires syn.renamingRule("SCREAMING_SNAKE_CASE")
    ensures Pyo3Attrs([ExampleClass(), ExampleRename()], syn)
      == Ok([Module("my_module"), Name("Placeholder"), RenameAll("SCREAMING_SNAKE_CASE")])
  {
    var f := Pyo3Parser(syn);
    var a := ExampleClass();
    var b := ExampleRename();
    ExampleClassOptions(syn);
    ExampleRenameOptions(syn);
    assert f(a) == Ok([Module("my_module"), Name("Placeholder")]);
    assert f(b) == Ok([RenameAll("SCREAMING_SNAKE_CASE")]);
    FlatMapOne(a, f);
    FlatMapOne(b, f);
    FlatMapAppend([a], [b], f);
    assert [a, b] == [a] + [b];
    assert [Module("my_module"), Name("Placeholder")] + [RenameAll("SCREAMING_SNAKE_CASE")]
      == [Module("my_module"), Name("Placeholder"), RenameAll("SCREAMING_SNAKE_CASE")];
  }

  /** `test_parse_pyo3_attr` and `test_parse_pyo3_attr_full_path`, field attribute:
      `#[pyo3(get)]` gives `Get`. */
  lemma Pyo3GetExample(syn: Syn)
    ensures Pyo3Attr(Attribute(Path(false, ["pyo3"]), List([Ident("get")])), syn) == Ok([Get])
  {
    var t: seq<Tok> := [Ident("get")];
    NotFound(t, Comma);
    assert Split(t, Comma) == [t];
    FlatMapOne(t, SegmentParser(syn));
  }
  /** A lone identifier in a pyo3 argument list: `get`, `get_all`, `set` and `set_all` give
      their option, any other identifier gives nothing, and a segment reads the same
      whether it stands alone or among others. */
  lemma LoneIdentOptions(p: Path, id: string, syn: Syn)
    requires IsPyo3Family(p)
    ensures var r := Pyo3Attr(Attribute(p, List([Ident(id)])), syn);
      && r == SegmentAttrs([Ident(id)], syn)
      && (id == "get" ==> r == Ok([Get]))
      && (id == "get_all" ==> r == Ok([GetAll]))
      && (id == "set" ==> r == Ok([Set]))
      && (id == "set_all" ==> r == Ok([SetAll]))
      && (id != "get" && id != "get_all" && id != "set" && id != "set_all" ==> r == Ok([]))
  {
    var t: seq<Tok> := [Ident(id)];
    NotFound(t, Comma);
    assert Split(t, Comma) == [t];
    FlatMapOne(t, SegmentParser(syn));
  }

  /** `#[getter]` and `#[setter]` name the property exactly when their argument list is one
      identifier, and give `None` for anything else. */
  lemma GetterSetterArg(attr: Attribute, x: string, syn: Syn)
    requires IsIdent(attr.path, "getter") || IsIdent(attr.path, "setter")
    ensures var single := attr.meta.List? && |attr.meta.tokens| == 1 && attr.meta.tokens[0].Ident?;
      && (IsIdent(attr.path, "getter") ==>
        && (Pyo3Attr(attr, syn) == Ok([Getter(Some(x))]) <==> attr.meta == List([Ident(x)]))
        && (Pyo3Attr(attr, syn) == Ok([Getter(None)]) <==> !single))
      && (IsIdent(attr.path, "setter") ==>
        && (Pyo3Attr(attr, syn) == Ok([Setter(Some(x))]) <==> attr.meta == List([Ident(x)]))
        && (Pyo3Attr(attr, syn) == Ok([Setter(None)]) <==> !single))
  {
    if attr.meta == List([Ident(x)]) {
      assert IdentArg(attr.meta) == Some(x);
    }
  }

  /** The single-identifier paths `parse_pyo3_attr` recognises. */
  const RecognisedNames: set<string> := {"pyclass", "pymethods", "pyfunction", "pyo3",
    "new", "staticmethod", "classmethod", "classattr", "getter", "setter"}

  /** Any other attribute gives no options: a path with a leading `::`, more than one
      segment (other than `pyo3::pyclass` and its kin) or another name. */
  lemma UnrecognisedPathGivesNothing(attr: Attribute, syn: Syn)
    requires !IsFullPathPyo3(attr.path)
    requires attr.path.leadingColon || |attr.path.segments| != 1
      || attr.path.segments[0] !in RecognisedNames
    ensures Pyo3Attr(attr, syn) == Ok([])
  {
  }

  /** A pyo3 attribute without an argument list, such as `#[pyclass]`, gives no options. */
  lemma BareFamilyGivesNothing(attr: Attribute, syn: Syn)
    requires IsPyo3Family(attr.path) && !attr.meta.List?
    ensures Pyo3Attr(attr, syn) == Ok([])
  {
  }

  /** `#[pyo3::x::pyclass(...)]`, `#[::pyclass(...)]` and `#[serde(...)]` are not read. */
  lemma UnrecognisedExamples(meta: Meta, syn: Syn)
    ensures Pyo3Attr(Attribute(Path(false, ["pyo3", "x", "pyclass"]), meta), syn) == Ok([])
    ensures Pyo3Attr(Attribute(Path(true, ["pyclass"]), meta), syn) == Ok([])
    ensures Pyo3Attr(Attribute(Path(false, ["serde"]), meta), syn) == Ok([])
  {
    UnrecognisedPathGivesNothing(Attribute(Path(false, ["pyo3", "x", "pyclass"]), meta), syn);
    UnrecognisedPathGivesNothing(Attribute(Path(true, ["pyclass"]), meta), syn);
    assert "serde" !in RecognisedNames;
    UnrecognisedPathGivesNothing(Attribute(Path(false, ["serde"]), meta), syn);
  }
}
