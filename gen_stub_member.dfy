/** The derive macro's view of a class member: a `#[getter]` method or a `#[pyo3(get)]`
    field, and the name, default and doc text it is given. */
module GenStubMember {
  import opened Common
  import opened GenStubAttr

  /** A Rust type, kept as it is written; what type it renders as is decided elsewhere. */
  datatype RustType = RustType(text: string)

  /** A function's return type: none written (`()`), or a type. */
  datatype ReturnType = DefaultReturn | Returns(ty: RustType)

  /** A method of an `impl` block, by the parts a member is derived from. */
  datatype ImplItemFn = ImplItemFn(attrs: seq<Attribute>, ident: string, output: ReturnType)

  /** A struct field; a tuple struct's field has no identifier. */
  datatype Field = Field(ident: Option<string>, ty: RustType, attrs: seq<Attribute>)

  /** What the macro emits for one member. */
  datatype MemberInfo = MemberInfo(name: string, ty: RustType, default: Option<string>, doc: string)

  // ---------------------------------------------------------------------------------
  // Picking the last of several attributes

  /** The value picked from the last element that has one. */
  function LastSome<T, U(==)>(xs: seq<T>, pick: T -> Option<U>): (r: Option<U>)
    ensures r.None? <==> forall i :: 0 <= i < |xs| ==> pick(xs[i]).None?
    ensures r.Some? ==> exists k :: (0 <= k < |xs| && pick(xs[k]) == r
                                     && forall j :: k < j < |xs| ==> pick(xs[j]).None?)
    decreases |xs|
  {
    if |xs| == 0 then None
    else
      var last := pick(xs[|xs| - 1]);
      if last.Some? then last
      else
        var init := xs[..|xs| - 1];
        var r := LastSome(init, pick);
        assert forall i :: 0 <= i < |init| ==> init[i] == xs[i];
        if r.Some? then
          var k :| 0 <= k < |init| && pick(init[k]) == r && forall j :: k < j < |init| ==> pick(init[j]).None?;
          assert pick(xs[k]) == r;
          r
        else r
  }

  /** A getter's name: its explicit name, or else the method's identifier. */
  function GetterPick(ident: string): Attr -> Option<string> {
    (a: Attr) => if a.Getter? then Some(a.getter.GetOr(ident)) else None
  }

  function DefaultPick(): Attr -> Option<string> {
    (a: Attr) => if a.Default? then Some(a.default) else None
  }

  function NamePick(): Attr -> Option<string> {
    (a: Attr) => if a.Name? then Some(a.name) else None
  }

  /** Removes one leading `get_`, and only one. */
  function StripGet(name: string): (r: string)
    ensures "get_" <= name ==> "get_" + r == name
    ensures !("get_" <= name) ==> r == name
  {
    var stripped := StripPrefix(name, "get_");
    if stripped.Some? then stripped.value else name
  }

  /** The doc text: the doc lines joined by line breaks. */
  function DocText(attrs: seq<Attribute>): string {
    Join(Documents(attrs), "\n")
  }

  // ---------------------------------------------------------------------------------
  // Candidates

  /** `is_candidate_item`: the method has a `#[getter]` attribute. */
  function IsCandidateItem(item: ImplItemFn, syn: Syn): (r: Result<bool>)
    ensures r.Err? <==> Pyo3Attrs(item.attrs, syn).Err?
    ensures r.Ok? ==> (r.value <==> exists i :: (0 <= i < |Pyo3Attrs(item.attrs, syn).value|
                                                 && Pyo3Attrs(item.attrs, syn).value[i].Getter?))
  {
    match Pyo3Attrs(item.attrs, syn)
    case Err => Err
    case Ok(attrs) => Ok(exists i | 0 <= i < |attrs| :: attrs[i].Getter?)
  }

  /** `is_candidate_field`: the field has `get` among its pyo3 options. */
  function IsCandidateField(field: Field, syn: Syn): (r: Result<bool>)
    ensures r.Err? <==> Pyo3Attrs(field.attrs, syn).Err?
    ensures r.Ok? ==> (r.value <==> exists i :: (0 <= i < |Pyo3Attrs(field.attrs, syn).value|
                                                 && Pyo3Attrs(field.attrs, syn).value[i].Get?))
  {
    match Pyo3Attrs(field.attrs, syn)
    case Err => Err
    case Ok(attrs) => Ok(Get in attrs)
  }

  // ---------------------------------------------------------------------------------
  // Members

  /** The member a getter method stands for: the last getter's name (explicit or the
      method's identifier) without one leading `get_`, the type `escape` finds in its
      return type, the last default and the doc text. */
  function GetterMember(item: ImplItemFn, attrs: seq<Attr>, ty: RustType): MemberInfo
    requires LastSome(attrs, GetterPick(item.ident)).Some?
  {
    MemberInfo(StripGet(LastSome(attrs, GetterPick(item.ident)).value), ty,
      LastSome(attrs, DefaultPick()), DocText(item.attrs))
  }

  /** `TryFrom<ImplItemFn>`. The method must be a getter, and `escape` (standing for
      `escape_return_type`) must find a type in its return type once its attributes parse. */
  method TryFromImplItemFn(item: ImplItemFn, syn: Syn, escape: ReturnType -> Option<RustType>)
    returns (r: Result<MemberInfo>)
    requires IsCandidateItem(item, syn) != Ok(false)
    requires Pyo3Attrs(item.attrs, syn).Ok? ==> escape(item.output).Some?
    ensures r.Err? <==> Pyo3Attrs(item.attrs, syn).Err?
    ensures r.Ok? ==> r.value == GetterMember(item, Pyo3Attrs(item.attrs, syn).value, escape(item.output).value)
    ensures r.Ok? ==> r.value.default == None
  {
    var candidate := IsCandidateItem(item, syn);
    if candidate.Err? {
      return Err;
    }
    var parsed := ParsePyo3Attrs(item.attrs, syn);
    var attrs := parsed.value;
    var name: Option<string> := None;
    var default: Option<string> := None;
    for i := 0 to |attrs|
      invariant name == LastSome(attrs[..i], GetterPick(item.ident))
      invariant default == LastSome(attrs[..i], DefaultPick())
    {
      assert attrs[..i + 1][..i] == attrs[..i];
      match attrs[i] {
        case Getter(explicit) =>
          name := Some(explicit.GetOr(item.ident));
        case Default(d) =>
          default := Some(d);
        case _ =>
      }
    }
    assert attrs[..|attrs|] == attrs;
    if name.Some? {
      var memberName := name.value;
      var stripped := StripPrefix(memberName, "get_");
      if stripped.Some? {
        memberName := stripped.value;
      }
      var docs := ExtractDocuments(item.attrs);
      r := Ok(MemberInfo(memberName, escape(item.output).value, default, Join(docs, "\n")));
      NoDerivedDefault(attrs, syn, item.attrs);
    } else {
      assert false;
    }
  }

  /** `TryFrom<Field>`: the last `name = "..."` option or else the field's identifier, the
      field's type, the last default and the doc text. The identifier is read even when a
      name is given, so a field whose attributes parse must have one. */
  method TryFromField(field: Field, syn: Syn) returns (r: Result<MemberInfo>)
    requires Pyo3Attrs(field.attrs, syn).Ok? ==> field.ident.Some?
    ensures r.Err? <==> Pyo3Attrs(field.attrs, syn).Err?
    ensures r.Ok? ==> r.value == MemberInfo(
      LastSome(Pyo3Attrs(field.attrs, syn).value, NamePick()).GetOr(field.ident.value),
      field.ty,
      LastSome(Pyo3Attrs(field.attrs, syn).value, DefaultPick()),
      DocText(field.attrs))
    ensures r.Ok? ==> r.value.default == None
  {
    var parsed := ParsePyo3Attrs(field.attrs, syn);
    if parsed.Err? {
      return Err;
    }
    var attrs := parsed.value;
    var fieldName: Option<string> := None;
    var fieldDefault: Option<string> := None;
    for i := 0 to |attrs|
      invariant fieldName == LastSome(attrs[..i], NamePick())
      invariant fieldDefault == LastSome(attrs[..i], DefaultPick())
    {
      assert attrs[..i + 1][..i] == attrs[..i];
      match attrs[i] {
        case Name(n) =>
          fieldName := Some(n);
        case Default(d) =>
          fieldDefault := Some(d);
        case _ =>
      }
    }
    assert attrs[..|attrs|] == attrs;
    var docs := ExtractDocuments(field.attrs);
    r := Ok(MemberInfo(fieldName.GetOr(field.ident.value), field.ty, fieldDefault, Join(docs, "\n")));
    NoDerivedDefault(attrs, syn, field.attrs);
  }

  // ---------------------------------------------------------------------------------
  // Properties

  /** Since no option is ever read as a default, a derived member never has one. */
  lemma NoDerivedDefault(attrs: seq<Attr>, syn: Syn, source: seq<Attribute>)
    requires Pyo3Attrs(source, syn) == Ok(attrs)
    ensures LastSome(attrs, DefaultPick()) == None
  {
    NoParsedDefault(source, syn);
    forall i | 0 <= i < |attrs| ensures DefaultPick()(attrs[i]).None? {
      assert !attrs[i].Default?;
    }
  }

  /** Elements that pick nothing, appended at the end, do not change what is picked. */
  lemma {:induction false} LastSomeSkips<T, U>(xs: seq<T>, ys: seq<T>, pick: T -> Option<U>)
    requires forall j :: 0 <= j < |ys| ==> pick(ys[j]).None?
    ensures LastSome(xs + ys, pick) == LastSome(xs, pick)
    decreases |ys|
  {
    if |ys| > 0 {
      var init := ys[..|ys| - 1];
      assert (xs + ys)[|xs + ys| - 1] == ys[|ys| - 1];
      assert (xs + ys)[..|xs + ys| - 1] == xs + init;
      LastSomeSkips(xs, init, pick);
    } else {
      assert xs + ys == xs;
    }
  }

  /** When a getter attribute comes last, its name decides: its explicit name when given,
      else the method's identifier. */
  lemma LastGetterWins(attrs: seq<Attr>, ident: string, explicit: Option<string>, rest: seq<Attr>)
    requires forall j :: 0 <= j < |rest| ==> !rest[j].Getter?
    ensures LastSome(attrs + [Getter(explicit)] + rest, GetterPick(ident)) == Some(explicit.GetOr(ident))
  {
    var upTo := attrs + [Getter(explicit)];
    assert forall j :: 0 <= j < |rest| ==> GetterPick(ident)(rest[j]).None?;
    LastSomeSkips(upTo, rest, GetterPick(ident));
    assert upTo[|upTo| - 1] == Getter(explicit);
  }

  /** One `get_` is stripped from a getter's name; a name without it is kept. */
  lemma StripGetExamples()
    ensures StripGet("get_name") == "name"
    ensures StripGet("get_get_name") == "get_name"
    ensures StripGet("name") == "name"
    ensures StripGet("get") == "get"
  {
    assert "get_" + "name" == "get_name";
    assert "get_" + "get_name" == "get_get_name";
    assert "get_"[0] != "name"[0];
    assert |"get"| < |"get_"|;
  }

  /** The doc text of a member read back line by line gives the doc attributes' lines, as
      long as no line holds a line break or carriage return and the last one is not empty. */
  lemma DocTextLines(attrs: seq<Attribute>)
    requires forall i :: 0 <= i < |Documents(attrs)| ==> OneLine(Documents(attrs)[i])
    requires |Documents(attrs)| > 0 ==> Documents(attrs)[|Documents(attrs)| - 1] != ""
    ensures Lines(DocText(attrs)) == Documents(attrs)
  {
    var ls := Documents(attrs);
    forall i | 0 <= i < |ls| ensures PlainLine(ls[i]) {
      OneLineIsPlain(ls[i]);
    }
    LinesOfJoin(ls);
  }

  /** A run of `/// line` comments becomes a doc text whose lines are those lines. */
  lemma DocCommentsDocText(lines: seq<string>)
    requires forall i :: 0 <= i < |lines| ==> OneLine(lines[i])
    requires |lines| > 0 ==> lines[|lines| - 1] != ""
    ensures Lines(DocText(seq(|lines|, i requires 0 <= i < |lines| => DocComment(lines[i])))) == lines
  {
    DocCommentsRoundTrip(lines);
    DocTextLines(seq(|lines|, i requires 0 <= i < |lines| => DocComment(lines[i])));
  }
}
