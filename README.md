# pyo3-stub-gen: member and method stubs, and the derive macro's attribute front end

This project models two layers of `pyo3-stub-gen`, which writes Python type stubs
(`.pyi` files) for Rust code exposed through PyO3.

- **Stub rendering** (`generate/member.rs`, `generate/method.rs`). A class attribute
  (`MemberDef`) and a class method (`MethodDef`) each know the modules their stub text
  needs (`Import::import`). Each is built from the metadata the derive macro emits
  (`From<&MemberInfo>`, `From<&MethodInfo>`). Each renders itself as stub text
  (`fmt::Display`).
  - A member renders as `name: T` or `name: T = default`, then an optional raw docstring
    block.
  - A method renders as:
    - a decorator line chosen by its kind (static, class, constructor, instance);
    - a `def` line with the receiver, the arguments joined by a `needs_comma` flag, and the
      return type;
    - then either ` ...` or the docstring.
- **The derive macro's attribute front end** (`gen_stub/attr.rs`, `gen_stub/member.rs`).
  - Reading doc comments.
  - Reading the options of `#[pyclass(...)]`, `#[pyo3(...)]`, `#[getter]` and their
    relatives.
  - Reading the macro's own `#[gen_stub(default = ..., skip)]` attribute, and pruning it
    from the item.
  - Deriving a member's name, default and doc text from a `#[getter]` method or a
    `#[pyo3(get)]` field.

Files:

- `common.dfy` (`Common`): the standard-library operations the code relies on, each with
  its properties: `Option`, `Result`, `join`, slice `split`, `str::lines`, `trim_matches`,
  `strip_prefix`, and the `?`-propagating collect loop (`FlatMap`).
- `stub_types.dfy` (`StubTypes`): `ModuleRef`, `TypeInfo`, `MethodType`, and `Arg` as seen
  through its `Display` and `Import`.
- `generate_member.dfy` (`GenerateMember`), `generate_method.dfy` (`GenerateMethod`): the
  two renderers.
- `gen_stub_attr.dfy` (`GenStubAttr`): tokens, attributes and the attribute parsers.
- `gen_stub_member.dfy` (`GenStubMember`): member derivation.

Every loop the source writes out is a method whose loop invariants prove it equal to a
specification function or characterise its result. Properties of those functions are
proved as lemmas. Text is modelled as `seq<char>`. Output is compared either as a whole
string or, read back with the model of `str::lines`, line by line.

### Rendering details

- **Member docstring indent.** A member's docstring block is written at the declaration's
  own indent: the `r"""` line, the doc lines and the closing `"""` all carry the same
  prefix as the declaration (`generate/member.rs:39-43`).
- **Member doc representation.** A member's doc is one string. It is split with
  `str::lines` when rendered. A documented member therefore renders as 3 + n lines
  (declaration, opening delimiter, n doc lines, closing delimiter), and an undocumented one
  as a single line.

### `Attr::Default`

The derive crate's member derivation matches on `Attr::Default(_)`
(`gen_stub/member.rs:40`, `:72`), but the `Attr` enum in `gen_stub/attr.rs:53-74` has no
such variant.

- The model gives `Attr` an explicit `Default(default: string)` variant.
- No parser in the model produces that variant.
- `GenStubAttr.NoParsedDefault` proves that no successful parse contains a `Default`.
- `GenStubMember.NoDerivedDefault` follows from it: every derived member has default `None`.
- The derivation methods state this in their postconditions.

## Model

| member | source | states |
|---|---|---|
| GenerateMember.Import | pyo3-stub-gen/src/generate/member.rs:13-17 | a member needs exactly the modules of its type |
| GenerateMember.FromInfo | pyo3-stub-gen/src/generate/member.rs:19-28 | name, type, default and doc carried over unchanged |
| GenerateMember.Fmt | pyo3-stub-gen/src/generate/member.rs:30-47 | the written text is, line by line, the declaration (`name: T`, or `name: T = d` with a default), then for a non-empty doc an `r"""` line, each doc line prefixed by the indent, and a `"""` line; nothing more for an empty doc |
| GenerateMember.WriteDocBlock | pyo3-stub-gen/src/generate/member.rs:38-44 | the `r"""` line, then every line of the doc in order prefixed by the indent, then the `"""` line, each ending in a line break |
| GenerateMember.RenderedLines | pyo3-stub-gen/src/generate/member.rs:33-44 | read back with `lines`, the text has 1 line for an undocumented member and 3 + n for n doc lines; the first line is the declaration, and the delimiters and doc lines come in order at the declaration's indent |
| GenerateMember.PlainMemberText | pyo3-stub-gen/src/generate/member.rs:33-37 | an undocumented `value: int` without a default is exactly one line `value: int` |
| GenerateMember.OneLineDocMemberText | pyo3-stub-gen/src/generate/member.rs:33-43 | a one-line doc gives the declaration plus a three-line block holding that line; with default `0`, the declaration reads `value: int = 0` |
| GenerateMethod.Import | pyo3-stub-gen/src/generate/method.rs:16-24 | a module is imported iff the return type or some argument needs it |
| GenerateMethod.FromInfo | pyo3-stub-gen/src/generate/method.rs:26-36 | name, return type, doc and kind carried over; arguments converted one to one, in order |
| GenerateMethod.Fmt | pyo3-stub-gen/src/generate/method.rs:38-79 | the `needs_comma` loop writes the decorator, `def name(`, the receiver and arguments joined by `, `, `) -> R:`, then ` ...` or a line break and the docstring at double indent |
| GenerateMethod.WriteHead | pyo3-stub-gen/src/generate/method.rs:42-59 | the decorator line for the kind, `def name(` and the receiver; `needs_comma` is set exactly when a receiver was written |
| GenerateMethod.WriteArgs | pyo3-stub-gen/src/generate/method.rs:60-66 | after what was already written, the arguments follow joined by `, `, with a `, ` before the first exactly when a receiver was written |
| GenerateMethod.ParamsReadBack | pyo3-stub-gen/src/generate/method.rs:41-66 | split at `, `, the parameter text gives back the receiver and then every argument in order: no leading or trailing separator |
| GenerateMethod.ParamsByKind | pyo3-stub-gen/src/generate/method.rs:42-66 | static: arguments only; class and constructor: `cls`; instance: `self`; `, ` follows the receiver only when there are arguments |
| GenerateMethod.RenderedLines | pyo3-stub-gen/src/generate/method.rs:42-76 | read back with `lines`: `@staticmethod` or `@classmethod` or no decorator, then the signature ending in ` ...` when undocumented, or the signature followed by the docstring's lines |
| GenerateMethod.InstanceMethodText | pyo3-stub-gen/src/generate/method.rs:55-76 | `get_name` on an instance renders `def get_name(self) -> str: ...` |
| GenerateMethod.StaticMethodText | pyo3-stub-gen/src/generate/method.rs:43-76 | a static `create` renders an `@staticmethod` line and `def create() -> C: ...` with no receiver |
| GenStubAttr.TrimHeadSpace | pyo3-stub-gen-derive/src/gen_stub/attr.rs:28-32 | exactly one leading space is removed when there is one; otherwise the text is unchanged |
| GenStubAttr.ExtractDocuments | pyo3-stub-gen-derive/src/gen_stub/attr.rs:8-37 | the loop yields the doc lines of the `#[doc = "..."]` string attributes, in order |
| GenStubAttr.DocumentsAppend | pyo3-stub-gen-derive/src/gen_stub/attr.rs:8-37 | documentation is collected attribute by attribute: the docs of a concatenation are the concatenated docs |
| GenStubAttr.DocCommentsRoundTrip | pyo3-stub-gen-derive/src/gen_stub/attr.rs:21-32 | `/// line` comments give back exactly their lines |
| GenStubAttr.ParsePyo3Attr | pyo3-stub-gen-derive/src/gen_stub/attr.rs:85-189 | the segment loop: a family list is split at commas and each segment matched; `new`, `staticmethod`, `classmethod`, `classattr`, `getter`, `setter` map to their options; any other path gives nothing |
| GenStubAttr.ParsePyo3Attrs | pyo3-stub-gen-derive/src/gen_stub/attr.rs:76-83 | the options of all attributes, concatenated in order; any failure fails the whole |
| GenStubAttr.ListSegments | pyo3-stub-gen-derive/src/gen_stub/attr.rs:106-117 | the segments join back with commas to the argument list, and none holds a comma |
| GenStubAttr.QuotedValue | pyo3-stub-gen-derive/src/gen_stub/attr.rs:133-148 | `name = "x"` and `module = "x"` keep the text between the quotes; `rename_all` keeps it only when it names a renaming rule |
| GenStubAttr.FullPathAsShort | pyo3-stub-gen-derive/src/gen_stub/attr.rs:88-101 | `pyo3::pyclass`, `pyo3::pymethods` and `pyo3::pyfunction` read exactly like the short path |
| GenStubAttr.ExampleClassOptions | pyo3-stub-gen-derive/src/gen_stub/attr.rs:275-291 | `pyclass(mapping, module = "my_module", name = "Placeholder")` gives the module then the name; `mapping` gives nothing |
| GenStubAttr.ExampleRenameOptions | pyo3-stub-gen-derive/src/gen_stub/attr.rs:276-291 | `pyo3(rename_all = "SCREAMING_SNAKE_CASE")` gives the renaming rule |
| GenStubAttr.Pyo3Example | pyo3-stub-gen-derive/src/gen_stub/attr.rs:271-292 | the two class attributes together give module, name and rule, in that order |
| GenStubAttr.Pyo3GetExample | pyo3-stub-gen-derive/src/gen_stub/attr.rs:294-300 | `pyo3(get)` gives `Get` |
| GenStubAttr.LoneIdentOptions | pyo3-stub-gen-derive/src/gen_stub/attr.rs:118-132 | a lone identifier in a pyo3 list gives `Get`, `GetAll`, `Set` or `SetAll` for `get`, `get_all`, `set`, `set_all`, and nothing for any other identifier; it reads the same alone or among other segments |
| GenStubAttr.GetterSetterArg | pyo3-stub-gen-derive/src/gen_stub/attr.rs:174-185 | `#[getter]`/`#[setter]` give `Some(x)` exactly when the argument list is the single identifier `x`, and `None` exactly when it is not one identifier |
| GenStubAttr.UnrecognisedPathGivesNothing | pyo3-stub-gen-derive/src/gen_stub/attr.rs:88-100 | any path outside the recognised names and full paths, including a leading `::` or extra segments, gives no options |
| GenStubAttr.BareFamilyGivesNothing | pyo3-stub-gen-derive/src/gen_stub/attr.rs:96-106 | a pyo3 attribute without an argument list gives no options |
| GenStubAttr.UnrecognisedExamples | pyo3-stub-gen-derive/src/gen_stub/attr.rs:186-188 | `pyo3::x::pyclass`, `::pyclass` and `serde` give no options |
| GenStubAttr.NoParsedDefault | pyo3-stub-gen-derive/src/gen_stub/attr.rs:53-189 | no successfully parsed option is a `Default` |
| GenStubAttr.Pruned | pyo3-stub-gen-derive/src/gen_stub/attr.rs:199-201 | an attribute is kept iff it was there and is not `gen_stub` |
| GenStubAttr.PruneAttrs | pyo3-stub-gen-derive/src/gen_stub/attr.rs:199-201 | the attribute list is replaced, in place, by its pruned form |
| GenStubAttr.PrunedAppend | pyo3-stub-gen-derive/src/gen_stub/attr.rs:199-201 | pruning works element by element, so the kept attributes keep their order |
| GenStubAttr.PrunedNoGenStub | pyo3-stub-gen-derive/src/gen_stub/attr.rs:199-201 | a list without `gen_stub` is left unchanged |
| GenStubAttr.PrunedIdempotent | pyo3-stub-gen-derive/src/gen_stub/attr.rs:199-201 | pruning twice equals pruning once |
| GenStubAttr.PruneKeepsDocuments | pyo3-stub-gen-derive/src/gen_stub/attr.rs:8-37 | pruning does not change the documentation |
| GenStubAttr.PruneKeepsPyo3Attrs | pyo3-stub-gen-derive/src/gen_stub/attr.rs:76-201 | pruning does not change the pyo3 options |
| GenStubAttr.PruneRemovesGenStub | pyo3-stub-gen-derive/src/gen_stub/attr.rs:199-229 | after pruning, the `gen_stub` reader finds nothing |
| GenStubAttr.GenStubItem | pyo3-stub-gen-derive/src/gen_stub/attr.rs:231-253 | a successful item takes at least one token and no more than there are |
| GenStubAttr.ParseGenStubAttr | pyo3-stub-gen-derive/src/gen_stub/attr.rs:226-264 | the `while !input.is_empty()` loop: `default = expr` and `skip` items separated by commas, with nothing left over; other paths give nothing; `#[gen_stub]` without a list fails |
| GenStubAttr.ParseItem | pyo3-stub-gen-derive/src/gen_stub/attr.rs:232-253 | one item: `default = expr` takes the identifier, `=` and the expression; `skip` takes one token; a non-identifier, an empty expression or any other keyword fails |
| GenStubAttr.ParseGenStubAttrs | pyo3-stub-gen-derive/src/gen_stub/attr.rs:217-224 | the items of all attributes, concatenated in order; any failure fails the whole |
| GenStubAttr.EmptyDefaultFails | pyo3-stub-gen-derive/src/gen_stub/attr.rs:234-238 | `default = ...` fails exactly when no expression can be parsed after the `=`, and the whole list then fails |
| GenStubAttr.GenStubRejectsUnknown | pyo3-stub-gen-derive/src/gen_stub/attr.rs:232-253 | a keyword other than `skip` without `=`, or other than `default` with `=`, or a non-identifier, is an error |
| GenStubAttr.GenStubRoundTrip | pyo3-stub-gen-derive/src/gen_stub/attr.rs:231-259 | items written out with commas read back as themselves |
| GenStubAttr.GenStubExampleDefaultSkip | pyo3-stub-gen-derive/src/gen_stub/attr.rs:339-358 | `default = String::from("foo"), skip` gives that default, then `Skip` |
| GenStubAttr.GenStubExampleSkip | pyo3-stub-gen-derive/src/gen_stub/attr.rs:341-360 | `skip` gives `[Skip]` |
| GenStubAttr.GenStubExampleDefault | pyo3-stub-gen-derive/src/gen_stub/attr.rs:343-366 | `default = 1+2` gives that default |
| GenStubAttr.FirstDefault | pyo3-stub-gen-derive/src/gen_stub/attr.rs:204-209 | `None` iff no item is a default; otherwise the expression of the first default item |
| GenStubAttr.FirstDefaultAt | pyo3-stub-gen-derive/src/gen_stub/attr.rs:204-209 | the first default is the one at the first position holding a default |
| GenStubAttr.ParseGenStubDefault | pyo3-stub-gen-derive/src/gen_stub/attr.rs:203-210 | the early-return loop fails iff parsing fails, and otherwise gives the first default |
| GenStubAttr.GenStubSkip | pyo3-stub-gen-derive/src/gen_stub/attr.rs:211-216 | fails iff parsing fails; otherwise true iff some item is `Skip` |
| GenStubMember.IsCandidateItem | pyo3-stub-gen-derive/src/gen_stub/member.rs:16-19 | fails iff parsing fails; otherwise true iff some option is `Getter(_)` |
| GenStubMember.IsCandidateField | pyo3-stub-gen-derive/src/gen_stub/member.rs:21-26 | fails iff parsing fails; otherwise true iff some option is `Get` |
| GenStubMember.LastSome | pyo3-stub-gen-derive/src/gen_stub/member.rs:37-43 | `None` iff no element has a value; otherwise the value of the last element that has one |
| GenStubMember.StripGet | pyo3-stub-gen-derive/src/gen_stub/member.rs:46-50 | a name starting with `get_` loses exactly that prefix; any other name is unchanged |
| GenStubMember.TryFromImplItemFn | pyo3-stub-gen-derive/src/gen_stub/member.rs:29-58 | fails iff parsing fails; otherwise the name is the last getter's (explicit, else the method's identifier) without one `get_`, the type comes from the return type, the doc is the doc lines joined by line breaks, and the default is `None` |
| GenStubMember.TryFromField | pyo3-stub-gen-derive/src/gen_stub/member.rs:61-82 | fails iff parsing fails; otherwise the name is the last `name` option, else the field's identifier; the type is the field's, the doc is the joined doc lines, and the default is `None` |
| GenStubMember.NoDerivedDefault | pyo3-stub-gen-derive/src/gen_stub/member.rs:40-72 | the default picked from parsed options is always `None` |
| GenStubMember.LastGetterWins | pyo3-stub-gen-derive/src/gen_stub/member.rs:37-43 | with several getter attributes, the last one decides the name |
| GenStubMember.StripGetExamples | pyo3-stub-gen-derive/src/gen_stub/member.rs:46-50 | `get_name` gives `name`, `get_get_name` gives `get_name`, and `name` and `get` are unchanged |
| GenStubMember.DocTextLines | pyo3-stub-gen-derive/src/gen_stub/member.rs:53-80 | the member's doc text, split with `lines` by the stub renderer, gives back the doc lines |
| GenStubMember.DocCommentsDocText | pyo3-stub-gen-derive/src/gen_stub/member.rs:53-80 | a run of `/// line` comments, each without a line break and the last one not empty, becomes a doc text whose lines are those lines |

## Left out

- `ToTokens for MemberInfo` (`gen_stub/member.rs:85-102`): emitting Rust tokens for the
  metadata is code generation, not derivation of the name, default or doc.
- Parts of `syn` that are not modelled are parameters: the `Signature`, `Type` and `Expr`
  parsers and `RenamingRule::try_new`.
  - `Syn` and `ExprParser` reduce them to whether they accept their input and how many
    tokens an expression takes.
  - `Signature` and `Constructor` keep the group token; `RenameAll` keeps the rule's
    name; `Extends` keeps the identifier.
- `escape_return_type` is the `escape` parameter of `TryFromImplItemFn`. The type a member
  renders as (`PyStubType::type_output`) is not part of this model.
- Errors carry no span or message: a `syn::Error` is `Err`.
- Punctuation spacing is not modelled. A `syn` peek for `=` or `,` looks only at the
  character, as the model does.
- `GenStubAttr.IsIdent` does not model generic arguments on a path segment: paths are
  plain identifiers.
- `GenStubAttr.IdentArg` accepts any identifier token. `syn`'s `Ident` parser also rejects
  Rust keywords and `_`, so `#[getter(type)]` and `#[getter(_)]` give `Some("type")` and
  `Some("_")` here and `None` in the source.
  In `#[gen_stub(...)]` the same difference cannot change the result: a keyword there is an
  error either way, and so is `_`.
- `Arg`'s `Display` and `Import`, `TypeInfo`'s `Display`, `indent()` and
  `docstring::write_docstring` are defined outside these files.
  - They are given as data: the text and import set of an `Arg`, and the name of a
    `TypeInfo`.
  - Or they are parameters: `indent`, and `docstring`.
- The lazy providers of `MemberInfo` and `MethodInfo` (`(info.r#type)()`,
  `(info.r#return)()`) are taken as already evaluated.
- Formatter write errors are not modelled: a formatter that never fails writes the
  whole text.
- `HashSet<ModuleRef>` is a mathematical set, so iteration order and hashing are not
  modelled.
- Panics are preconditions:
  - `assert!(is_candidate_item)` and `unreachable!` in `TryFromImplItemFn`;
  - `expect("Getter must return a type")`;
  - `ident.unwrap()` in `TryFromField`, which is evaluated even when a `name` option is
    present.
- Class, enum, module and function rendering, import sorting, and the rest of both crates
  are not part of this model.
- `GenerateMember.RenderedLines`, `GenerateMethod.RenderedLines`: stated only when the
  indent, name, type and default are single lines and the doc has no carriage return. With
  those inputs `lines` reads each written line back unchanged. The `Fmt` methods themselves
  are specified for all inputs.
- `GenerateMethod.ParamsReadBack`: stated only for argument texts without a comma.
  Otherwise splitting at `, ` cannot tell arguments apart.
- `GenStubAttr.GenStubRoundTrip`: stated only for expressions that the expression parser
  ends exactly where they were written to end, including ahead of a comma.
- `GenStubMember.DocTextLines`, `GenStubMember.DocCommentsDocText`: stated only for doc
  lines without line breaks whose last line is not empty. `lines` drops a final empty line,
  so the comments `a` and an empty one read back as the single line `a`.
