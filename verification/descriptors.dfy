/** The read-only descriptors of the API description that the C library
    generator consumes, and the registry it consults. */
module Descriptors {
  import opened Results

  /** The annotations of a parameter, field or return value: the declared
      type name, the element type of a template (`type_p`), the modifiers
      and the declared array dimensions. */
  datatype TypeData = TypeData(
    typ: string,
    typeP: Option<string>,
    isPointer: bool,
    isReference: bool,
    isArray: bool,
    isConst: bool,
    dims: seq<int>)

  /** A named parameter; a function's parameters keep their declaration order. */
  datatype Param = Param(name: string, data: TypeData)

  /** A function of the API: its name, parameters and return type. */
  datatype Function = Function(name: string, params: seq<Param>, ret: TypeData)

  /** What the generator reads from outside this file: `rawTypes` gives the
      raw kind tag (`"int"`, `"struct"`, `"typealias"`, ...) that
      `raw_type_for` reports for a type name, a name it knows nothing about
      being absent; `functionPointers` holds the names of the function
      pointer typedefs. */
  datatype Registry = Registry(rawTypes: map<string, string>, functionPointers: set<string>)

  /** The text Ruby interpolates for an optional value: `nil` becomes "". */
  function OptText(o: Option<string>): string
  {
    match o
    case None => ""
    case Some(s) => s
  }
}
