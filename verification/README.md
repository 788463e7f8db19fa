# SplashKit C library translator: type mapping and symbol mangling

SplashKit's translator reads the parsed description of the SplashKit API
and writes a flat C library around it. Its C library translator
(`src/translators/clib.rb`) decides how every SplashKit function, parameter
and struct field looks at the C boundary. It does five jobs:

- it maps each declared type to the C type used at the boundary
  (`lib_map_type_for`, `lib_type_for`);
- it mangles each function's name and parameter types into a deterministic
  C symbol (`lib_function_name_for`);
- it renders parameter lists and full signatures (`lib_parameter_list_for`,
  `lib_signature_for`);
- it flattens N-dimensional struct fields to one dimension
  (`get_Nd_array_size_as_1d`, `get_Nd_array_index_as_1d`,
  `lib_struct_field_for`);
- it names the adapter functions that convert values each way
  (`sk_adapter_fn_for`, `lib_adapter_fn_for`).

The model is pure, as the translator's helpers are. Descriptors are
datatypes. Each helper is a function with a contract. Each `reduce` or
`inject` fold is modelled by a recursive function, proved equal to an
independent reference definition. Lemmas state the properties that hold
across calls.

The modules, in dependency order:

| file | module | contents |
|---|---|---|
| `results.dfy` | `Results` | `Option`, `Result` and the single error kind: an unmapped type name or a division by zero |
| `descriptors.dfy` | `Descriptors` | the type descriptor (`type`, `type_p`, `is_pointer`, `is_reference`, `is_array`, `is_const`, `array_dimension_sizes`), parameters, functions, and the registry of raw kinds and function pointers |
| `ruby.dfy` | `Ruby` | the pieces of Ruby the translator relies on: the two regular expressions, `tr("\s", '_')`, `[2..-1]`, `Integer#to_s`, floored `/` and `%` |
| `typemap.dfy` | `TypeMap` | the direct table and the `lib_type_for` cascade |
| `mangling.dfy` | `Mangling` | symbol names |
| `arrays.dfy` | `ArrayFlattening` | flattened sizes and indices |
| `declarations.dfy` | `Declarations` | parameter lists, signatures, struct fields |
| `adapters.dfy` | `Adapters` | adapter function names |
| `scenarios.dfy` | `Scenarios` | concrete declarations for a small shapes library |

Behaviour of the code worth knowing:

- `tr("\s", '_')` replaces spaces only. In a double-quoted Ruby string
  `"\s"` is the space character, not the `\s` class, so tabs and line
  breaks are kept.
- The `vector` rule of `lib_type_for` does not check that an element type
  is present. A `vector` without one maps to `"__sklib_vector_"`, because
  `nil` interpolates as the empty string.
- An empty parameter list is `nil`, not `""`: `''[2..-1]` is `nil` in
  Ruby. The signature still shows `()`, because `nil` interpolates as the
  empty string.
- Mangling is not injective. `Mangling.MangledNamesCollide` exhibits two
  collisions:
  - a parameter of a type named `int_ref` and an `int &` parameter give
    the same segment;
  - a function named `draw__int` without parameters gets the same symbol
    as `draw(int)`.

  What holds is proved: the symbol depends only on the function's name and
  on each parameter's type and modifiers, and once the name and the
  parameter types are fixed, the symbol gives the modifiers back
  (`Mangling.MangledNameDeterminesModifiers`).

## Model

| member | source | states |
|---|---|---|
| `Ruby.MatchesUnsigned` | src/translators/clib.rb:106 | `=~ /^unsigned\s+\w+/`: some line starts with "unsigned", one or more `\s`, then a word character; a match needs at least ten characters |
| `Ruby.MatchesUnsignedOneLine` | src/translators/clib.rb:106 | on a string without line breaks the pattern matches exactly when the string itself starts with it |
| `Ruby.UnsignedWordMatches` | src/translators/clib.rb:106 | "unsigned " followed by a word, the spelling of the API's unsigned types, always matches |
| `Ruby.LeadingDoubleUnderscore` | src/translators/clib.rb:191 | `=~ /^\_{2}/`: some line starts with two underscores; a match needs at least two characters |
| `Ruby.LeadingDoubleUnderscoreOneLine` | src/translators/clib.rb:191 | on a string without line breaks the pattern matches exactly when the string starts with "__" |
| `Ruby.TrSpace` | src/translators/clib.rb:43 | `tr("\s", '_')` keeps the length and leaves no space |
| `Ruby.TrSpaceIdentity` | src/translators/clib.rb:43 | a string without spaces is unchanged |
| `Ruby.TrSpaceConcat` | src/translators/clib.rb:43 | `tr` distributes over concatenation |
| `Ruby.TrSpaceOneSpace` | src/translators/clib.rb:169 | two space-free words around one space come out joined by "_" (as in "unsigned int" to "unsigned_int") |
| `Ruby.DropTwo` | src/translators/clib.rb:78 | `[2..-1]` is `nil` exactly for strings shorter than two characters; otherwise it is the string without its first two characters |
| `Ruby.NatToString` | src/translators/clib.rb:150 | the decimal text interpolated for a natural number is non-empty, all digits, and has no leading zero |
| `Ruby.NatToStringRoundTrip` | src/translators/clib.rb:150 | that text parses back to the number |
| `Ruby.IntToString` | src/translators/clib.rb:136 | the text interpolated for an integer is an optional minus sign and digits, with the sign exactly for negative numbers |
| `Ruby.IntToStringRoundTrip` | src/translators/clib.rb:136 | the text of any integer, with its sign, parses back to the integer |
| `Ruby.IntToStringInjective` | src/translators/clib.rb:136 | different integers give different texts |
| `Ruby.FloorDiv` | src/translators/clib.rb:134 | Ruby's `/` on integers rounds toward negative infinity: `b * q <= a < b * q + b` for positive `b`, mirrored for negative `b` |
| `Ruby.FloorMod` | src/translators/clib.rb:134 | Ruby's `%` completes the floored division, `a == b * (a / b) + a % b`, with the remainder in `[0, b)` for positive `b` and `(b, 0]` for negative `b` |
| `TypeMap.DirectMapShape` | src/translators/clib.rb:84-96 | the `direct_map` hash has exactly the ten raw kinds as keys; `struct` maps to "__sklib_" and the type name, every other entry is the same whatever the name, and every entry is a C builtin or a library type |
| `TypeMap.LibMapTypeFor` | src/translators/clib.rb:83-98 | the table gives a type exactly when the raw kind of the name is one of its ten keys; the result is a C builtin or carries the `__sklib_` prefix; a struct maps to `__sklib_` and its own name |
| `TypeMap.DirectTableEntries` | src/translators/clib.rb:84-97 | the table entry for each of the ten raw kinds, and `nil` for any other kind |
| `TypeMap.LibTypeFor` | src/translators/clib.rb:103-116 | mapping succeeds exactly when a rule applies (unsigned, `void *`, function pointer, `vector`, or a table kind); otherwise it raises the unmapped-type error naming the type; a result is never empty and is a C builtin, a library type, or the unsigned type itself |
| `TypeMap.FirstMatchWins` | src/translators/clib.rb:105-115 | the rules apply in order: unsigned before everything, `void *` before the registry, function pointers before `vector`, `vector` before the table; `vector` without an element type gives "__sklib_vector_" |
| `TypeMap.MappingIgnoresOtherModifiers` | src/translators/clib.rb:103-116 | references, arrays, `const` and dimensions never change the C type; only the type name, the element type of `vector`, and whether `void` is a pointer do |
| `Mangling.Segment` | src/translators/clib.rb:38-44 | a parameter's segment starts with "__" and the type with spaces replaced, and holds no space (the text after the type is the modifier suffix, "_ref", "_ptr" and "_array" for the flags that are set, in that order, whose contents the next rows pin down) |
| `Mangling.SuffixLayout` | src/translators/clib.rb:39-44 | the modifier suffix has length 4 for "_ref", 4 for "_ptr" and 6 for "_array", and its second character is "r" when it starts with "_ref" and "p" when it starts with "_ptr" |
| `Mangling.SuffixShape` | src/translators/clib.rb:39-44 | the modifier suffix never holds two underscores in a row, does not end with one, and holds no space, so it cannot run into the next segment's "__" |
| `Mangling.SuffixDeterminesModifiers` | src/translators/clib.rb:39-44 | the modifier part gives the three flags back |
| `Mangling.SegmentDeterminesModifiers` | src/translators/clib.rb:38-44 | for one declared type, equal segments mean equal reference, pointer and array flags |
| `Mangling.SegmentsDetermineKeys` | src/translators/clib.rb:37-45 | parameters of the same declared types with the same concatenated segments have the same modifiers, parameter by parameter |
| `Mangling.MangledNameDeterminesModifiers` | src/translators/clib.rb:36-45 | two functions of the same name and parameter types get the same symbol only when their parameters have the same modifiers |
| `Mangling.FoldMangle` | src/translators/clib.rb:37-45 | the `reduce` only extends its memo: the result is the memo followed by the parameters' segments in order |
| `Mangling.LibFunctionName` | src/translators/clib.rb:36-45 | the symbol is "__sklib__", the function name, then one segment per parameter in declaration order; without parameters it is "__sklib__" and the name |
| `Mangling.SegmentsSnoc` | src/translators/clib.rb:37-45 | appending a parameter appends its segment |
| `Mangling.SegmentsDependOnKeysOnly` | src/translators/clib.rb:38-44 | only each parameter's type, reference, pointer and array flags enter its segment |
| `Mangling.MangledNameIgnoresNamesAndReturn` | src/translators/clib.rb:36-45 | functions with the same name and the same parameter types and modifiers get the same symbol, whatever their parameter names, `const` flags, element types and return types |
| `Mangling.MangledNamesCollide` | src/translators/clib.rb:36-45 | the symbol is not injective: an `int_ref` parameter collides with an `int &` one, and `draw__int()` with `draw(int)` |
| `ArrayFlattening.FoldMul` | src/translators/clib.rb:123 | the fold of `inject(:*)` multiplies its start value by the product of the dimensions |
| `ArrayFlattening.ArraySizeAs1d` | src/translators/clib.rb:122-124 | `nil` exactly for no dimensions; otherwise the product of all dimensions |
| `ArrayFlattening.ProductAppend` | src/translators/clib.rb:123 | the product of concatenated dimension lists is the product of the products |
| `ArrayFlattening.ProductRemove` | src/translators/clib.rb:123 | removing one dimension divides it out of the product |
| `ArrayFlattening.SizeIgnoresDimensionOrder` | src/translators/clib.rb:122-124 | any reordering of the dimensions gives the same flattened size |
| `ArrayFlattening.Subscript1` | src/translators/clib.rb:136 | "[i]": brackets around a decimal text that reads back as the index |
| `ArrayFlattening.Subscript2` | src/translators/clib.rb:134 | "[a][b]" is the subscript of `a` followed by the subscript of `b` |
| `ArrayFlattening.NdArrayIndexAs1d` | src/translators/clib.rb:129-138 | as written: for two dimensions, "[idx / rows][idx % cols]" with floored operators, failing with a division by zero when either dimension is 0; for any other number of dimensions, "[idx]" |
| `ArrayFlattening.SquareIndexIsRowMajor` | src/translators/clib.rb:129-138 | on an n-by-n array every flat index in range becomes the in-range coordinates (i, j) with `i * n + j == idx` |
| `ArrayFlattening.NonSquareIndexOutOfRange` | src/translators/clib.rb:132-134 | on the 2-by-3 array, flat index 5 becomes "[2][2]": row 2 does not exist |
| `ArrayFlattening.NonSquareIndicesCollide` | src/translators/clib.rb:132-134 | on the 3-by-2 array, flat indices 0 and 2 both become "[0][0]" |
| `ArrayFlattening.RowMajorIndexAs1d` | src/translators/clib.rb:129-138 | the corrected index: it divides by the column count, fails only on zero columns, and agrees with the original off two dimensions |
| `ArrayFlattening.RowMajorIndexInverts` | src/translators/clib.rb:129-138 | the corrected index inverts row-major flattening on every rows-by-columns array: each flat index in range becomes in-range (i, j) with `i * cols + j == idx` |
| `ArrayFlattening.RowMajorCoordinatesUnique` | src/translators/clib.rb:129-138 | two in-range column positions that flatten to the same index have the same row and column, so the coordinates the corrected index gives are the only ones |
| `ArrayFlattening.CorrectionAgreesOnSquareArrays` | src/translators/clib.rb:129-138 | on square arrays the corrected index and the one as written coincide |
| `Declarations.FirstUnmapped` | src/translators/clib.rb:69-72 | the position of the first parameter whose type has no C type: every earlier one maps, that one does not |
| `Declarations.RenderParam` | src/translators/clib.rb:70-76 | a parameter renders exactly when its type maps, otherwise it fails naming the type; the text is "const " for a const parameter, the C type and a space, then "*" exactly for a pointer or a reference, then the name, and nothing else (its length is the sum of those parts) |
| `Declarations.RenderAll` | src/translators/clib.rb:69-77 | the parameters render exactly when every type maps, one text per parameter in order; otherwise the first unmapped parameter decides the error |
| `Declarations.FoldParamList` | src/translators/clib.rb:69-76 | the `reduce('')` fold succeeds exactly when every parameter type maps, else fails naming the first unmapped one; it only extends its memo, and a non-empty list adds ", " right after the memo |
| `Declarations.FoldParamListJoins` | src/translators/clib.rb:69-77 | the `reduce('')` fold yields the memo, ", ", and the rendered parameters joined by ", ", and fails with the same error as rendering them |
| `Declarations.LibParameterListFor` | src/translators/clib.rb:68-78 | the list is `nil` for no parameters and the rendered parameters joined by ", " otherwise; the first parameter without a C type aborts with its type name |
| `Declarations.LibSignatureFor` | src/translators/clib.rb:58-63 | the signature renders exactly when the return type and every parameter map; an unmapped return type is reported before any parameter; the text is the C return type, a space, the symbol, and the joined parameters in parentheses |
| `Declarations.ArrayDecl` | src/translators/clib.rb:149-150 | an array field's suffix is "[n]" with n the product of its dimensions, or "[]" without dimensions; any other field has none |
| `Declarations.LibStructFieldFor` | src/translators/clib.rb:143-157 | a `void *` field is "__sklib_ptr" and its name; any other field starts with "__sklib_", its declared type and a space, then "*" for a pointer, its name and its array suffix, and nothing else (its length is the sum of those parts) |
| `Declarations.StructFieldUsesLibType` | src/translators/clib.rb:143-157 | for a struct or function-pointer field, the field text starts with the type `lib_type_for` gives a parameter of that type, and a space |
| `Adapters.SkAdapterFnFor` | src/translators/clib.rb:162-182 | "__skadapter__to_" then, by the first rule that applies: "sklib_ptr" for `void *`, the unsigned type with underscores, "unsigned_char" for `byte`, type "_" element type for a template, and otherwise the declared type itself |
| `Adapters.LibAdapterFnFor` | src/translators/clib.rb:187-195 | the name exists exactly when the C type does, with the same error otherwise; it starts with "__skadapter__to_" and has no space; for a one-line C type it is the C type without a leading "__", spaces replaced |
| `Adapters.LibAdapterOfPrefixedType` | src/translators/clib.rb:189-194 | a C type starting with "__" loses those two characters in the adapter name |
| `Adapters.LibAdapterOfPlainType` | src/translators/clib.rb:189-194 | a one-line C type not starting with "__" keeps all its characters, spaces replaced |
| `Adapters.AdapterNamesAgreeOnVoidPointer` | src/translators/clib.rb:162-195 | `void *` gives "__skadapter__to_sklib_ptr" in both directions |
| `Adapters.AdapterNamesAgreeOnUnsigned` | src/translators/clib.rb:162-195 | a one-line unsigned type gives the same adapter name in both directions |
| `Adapters.AdapterNamesAgreeOnByte` | src/translators/clib.rb:162-195 | `byte` gives "__skadapter__to_unsigned_char" in both directions |
| `Adapters.AdapterNamesAgreeOnPrimitives` | src/translators/clib.rb:162-195 | `int`, `float` and `double` registered as themselves give their own name in both directions |
| `Adapters.AdapterNamesForLibraryTypes` | src/translators/clib.rb:162-195 | for a struct or a function pointer the adapter into the C library carries "sklib_" and the adapter into SplashKit does not |
| `Scenarios.MoveCircleSymbol` | src/translators/clib.rb:36-45 | `move_circle(circle &circle, float dx)` mangles to "__sklib__move_circle__circle_ref__float" |
| `Scenarios.MoveCircleSignature` | src/translators/clib.rb:58-78 | its signature is "void __sklib__move_circle__circle_ref__float(__sklib_circle *circle, float dx)" |
| `Scenarios.MoveCircleParams` | src/translators/clib.rb:69-77 | its parameters render as "__sklib_circle *circle" and "float dx" |
| `Scenarios.NoParameters` | src/translators/clib.rb:58-78 | no parameters give a `nil` list and the signature "void __sklib__refresh()" |
| `Scenarios.ConstAndOpaqueParameters` | src/translators/clib.rb:70-76 | a const `int *p` renders "const int *p"; a `void *data` renders "__sklib_ptr *data" |
| `Scenarios.UnknownParameterType` | src/translators/clib.rb:111-115 | an unregistered parameter type aborts the parameter list with its name |
| `Scenarios.MatrixField` | src/translators/clib.rb:143-157 | the field `float m[3][3]` renders "__sklib_float m[9]" |
| `Scenarios.Sizes` | src/translators/clib.rb:122-124 | [3, 3] flattens to 9, [4] to 4, [2, 3, 4] to 24, and no dimensions to `nil` |
| `Scenarios.Indices` | src/translators/clib.rb:129-138 | flat index 4 of a 3-by-3 array is "[1][1]"; index 3 of a one-dimensional array is "[3]" |

## Left out

- `initialize` (clib.rb:10-13) only calls the base class and sets `@direct_types`, which no modelled method reads.
- `render_templates` (clib.rb:15-21) returns a hash from the three output file names to `read_template(...)`; `read_template` lives in the translator's base class and is not part of this model.
- `post_execute` (clib.rb:23-26) prints a message to the console. Console output is not modelled.
- `src/translators/docs.rb` is not part of this model.
- `raw_type_for` lives in the translator's base class and reads the parsed API description. It is not part of this model: its answers are a parameter, the `rawTypes` map of a `Registry`.
- The function-pointer registry `@function_pointers.pluck(:name)` is a parameter: the `functionPointers` set of a `Registry`.
- `TypeMap.LibTypeFor`: the error keeps only the offending type name, not the text of the message the translator raises.
- `Ruby.MatchesUnsigned`, `Ruby.LeadingDoubleUnderscore`: only the two patterns the translator uses are modelled, as predicates on strings. `\s` and `\w` are taken with their ASCII meaning; Ruby's regular-expression engine and Unicode classes are not modelled.
- `Adapters.LibAdapterFnFor`: the closed form of the name is stated for C types without line breaks, the only ones the type rules produce from one-line type names. The general case is covered by the function's definition and by its prefix and no-space clauses.
- `Ruby.IntToStringRoundTrip`: integers are unbounded, as Ruby's are, so there is no width or overflow to model.
- The instance alias `lib_function_name_for` (clib.rb:51-53) forwards to the class method and is modelled by the same function.

## Findings

| source | as written | input that shows it | evidently intended | confidence | as-written member | corrected member |
|---|---|---|---|---|---|---|
| src/translators/clib.rb:132-134 | the row of a two-dimensional index is the flat index divided by the first dimension, the row count | dimensions [2, 3] and flat index 5 give "[2][2]", a row that does not exist; dimensions [3, 2] give "[0][0]" for both 0 and 2 | divide by the column count, the inverse of row-major flattening (it agrees with the code on square arrays) | medium, not executed | `ArrayFlattening.NonSquareIndexOutOfRange` | `ArrayFlattening.RowMajorIndexInverts` |
