/** The values the stub renderer works on that are defined outside the member and method
    renderers: a module reference, a rendered type with the imports it needs, a method
    kind, and an argument as seen through its `Display` and `Import` implementations. */
module StubTypes {

  /** A module that a stub file has to import. Only equality between references matters
      here; how a reference is spelled in an import statement is not part of this model. */
  datatype ModuleRef = ModuleRef(path: string)

  /** `TypeInfo`: the Python spelling of a type and the modules that spelling needs.
      (The Rust field is called `import`, a keyword in Dafny.) Its `Display` writes `name`. */
  datatype TypeInfo = TypeInfo(name: string, imports: set<ModuleRef>)

  /** How a method is bound to its class. */
  datatype MethodType = Static | Class | New | Instance

  /** A method argument, seen only through what the renderer asks of it: the text its
      `Display` writes (`x: int`, `x: int = 0`, a `/` or `*` marker) and its import set.
      Both are computed by code that is not part of this model. */
  datatype Arg = Arg(text: string, imports: set<ModuleRef>)
}
