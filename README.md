# wasabi's wasmparser-to-AST converter, in Dafny

wasabi is a dynamic-analysis framework for WebAssembly. It reads a binary with
the external `wasmparser` decoder and converts the decoder's event stream
("payloads") into its own high-level AST. This project models that conversion,
`lib/wasm/src/ast/wasmparser.rs`, and proves properties about it. The model has
eight modules, one per file:

- `Base` (`base.dfy`) has `Result` and the error values, and
  `Fold`, which states a `for _ in 0..count { …? }` section loop as a function.
  It also has `RunEntries`, the loop itself, proved equal to `Fold`.
- `Ast` (`ast.dfy`) holds the AST the converter builds: value, block,
  function, global, table and memory types, instructions, and functions with
  their code, exports and names.
- `Decoded` (`decoded.dfy`) holds what the decoder hands over: type codes,
  immediates, operators, function bodies, section entries and payloads.
  Byte-level decoding is not modelled. These values are the converter's inputs.
- `Conversions` (`conversions.dfy`) holds `convert_ty`, `convert_block_ty`,
  `convert_func_ty`, `convert_global_ty`, `convert_memarg`,
  `convert_memory_ty`, `convert_elem_ty` and `convert_table_ty`.
  `convert_ty`, `convert_block_ty`, `convert_func_ty`, `convert_memarg` and
  `convert_table_ty` come with an inverse encoding and a round trip. The
  other three state which fields they keep.
- `FuncTypes` (`func_types.dfy`) holds `Types`, the type table. It is a class
  whose `table` field the methods update in place. There are pure functions on
  the table value, and the lookup property is proved for a whole type section.
- `Instructions` (`instructions.dfy`) holds `convert_instr`. WebAssembly 1.0
  operators are kept and every later proposal is rejected by name. `Lower`
  encodes an instruction again. There are round trips in both directions,
  operator-sequence conversion, and the `br_table` target loop.
- `Bodies` (`bodies.dfy`) holds `parse_body`: run-length expansion of local
  declarations, then operator conversion in order. It has pure
  specifications and the loops.
- `ModuleParser` (`module_parser.dfy`) holds the payload loop of
  `parse_module_with_offsets`. Each section and each section entry is a
  function on a `ParseState` value: the module so far, the type table, the
  loop's counters, and the kind of the last section seen. The last is what
  `section_offsets.last()` gives, and it is recorded in each raw custom
  section's `after` field. `ParseModule` is the imperative loop over the payloads
  with a `Types` object, proved equal to the fold of `Step`. The lemmas
  cover the function index space:
  - imported functions come first;
  - the k-th code-section entry is stored as function
    `imported_function_count + k`;
  - the code section fails exactly when some body fails to convert or some of
    those indices is missing, and it fails with the first error in order.

## Model

| member | source | states |
|---|---|---|
| Conversions.ConvertTy | lib/wasm/src/ast/wasmparser.rs:1197-1212 | Succeeds exactly on I32/I64/F32/F64, and the result encodes back to the input (one-to-one). V128 is rejected as Simd, FuncRef and ExternRef as ReferenceTypes, ExnRef as ExceptionHandling. The two panicking codes are excluded by precondition. |
| Conversions.ConvertTyEncodeValType | lib/wasm/src/ast/wasmparser.rs:1197-1203 | Every AST value type is the conversion of its decoder code. |
| Conversions.ConvertBlockTy | lib/wasm/src/ast/wasmparser.rs:1161-1168 | The empty block type gives `BlockType(None)`. A value type gives `Some` of its `convert_ty`, or that call's error. A type-indexed block type is rejected as MultiValue. Every result encodes back to the input. |
| Conversions.ConvertBlockTyEncodeBlockType | lib/wasm/src/ast/wasmparser.rs:1161-1165 | Every AST block type is the conversion of its decoder form. |
| Conversions.ConvertTys | lib/wasm/src/ast/wasmparser.rs:1171-1178 | The `map`/`collect` succeeds exactly when every type is a 1.0 value type, and the result encodes back, element by element. On failure the error is that of the first rejected type. |
| Conversions.ConvertTysEncodeValTypes | lib/wasm/src/ast/wasmparser.rs:1171-1178 | Every sequence of AST value types is the conversion of its encoding. |
| Conversions.ConvertFuncTy | lib/wasm/src/ast/wasmparser.rs:1170-1184 | Succeeds exactly when all parameters and results are 1.0 value types. The result encodes back to the input. Parameters are checked before results, so a parameter error wins. |
| Conversions.ConvertFuncTyEncodeFuncType | lib/wasm/src/ast/wasmparser.rs:1170-1184 | Every AST function type is the conversion of its encoding. |
| Conversions.ConvertGlobalTy | lib/wasm/src/ast/wasmparser.rs:1186-1195 | Succeeds exactly when the content type is a 1.0 value type. It keeps that type and maps mutable to `Mut`. On failure the error is `convert_ty`'s. |
| Conversions.ConvertMemarg | lib/wasm/src/ast/wasmparser.rs:1108-1120 | Succeeds exactly when the offset fits in 32 bits and the memory index is 0. An offset too wide for 32 bits is a Memory64 error, checked first. Otherwise a non-zero memory index is a MultiMemory error. On success, alignment and offset are kept. |
| Conversions.EncodeMemarg | lib/wasm/src/ast/wasmparser.rs:1108-1120 | Every AST memarg is the conversion of its encoding with memory 0. |
| Conversions.ConvertMemoryTy | lib/wasm/src/ast/wasmparser.rs:1122-1135 | Succeeds exactly on 32-bit memories, keeping the initial size and the optional maximum. A 64-bit memory is a Memory64 error. |
| Conversions.ConvertElemTy | lib/wasm/src/ast/wasmparser.rs:1147-1159 | Succeeds exactly on funcref. ExternRef is rejected as ReferenceTypes and ExnRef as ExceptionHandling. The panicking codes are excluded by precondition. |
| Conversions.ConvertTableTy | lib/wasm/src/ast/wasmparser.rs:1137-1145 | Succeeds exactly when the element type is funcref, keeping the limits. On failure the error is `convert_elem_ty`'s. |
| Conversions.ConvertTableTyEncodeTableType | lib/wasm/src/ast/wasmparser.rs:1137-1145 | Every AST table type is the conversion of its encoding. |
| FuncTypes.Lookup | lib/wasm/src/ast/wasmparser.rs:1358-1367 | `get` before the type section is "missing type section". Otherwise it succeeds exactly when the index is in range and returns that entry. An index at or beyond the length is an index error. |
| FuncTypes.AddType | lib/wasm/src/ast/wasmparser.rs:1349-1356 | `add` before the type section is "missing type section" (checked before the conversion). Otherwise it succeeds exactly when the type converts, and on success the table is the old one plus that converted type. |
| FuncTypes.TypeDefEntry | lib/wasm/src/ast/wasmparser.rs:63-70 | A function type entry is `add`ed. Instance and module entries are rejected as ModuleLinking. |
| FuncTypes.TypeSectionSpec | lib/wasm/src/ast/wasmparser.rs:52-72 | A successful type section was the first one, and its table holds one type per entry. What those types are, and what `get` returns, is in `AddAllAppends` and `TypeSectionLookup`. |
| FuncTypes.AddAllAppends | lib/wasm/src/ast/wasmparser.rs:61-71 | The additions of a type section succeed exactly when every entry is a function type that converts. The table is then the previous one followed by each entry's converted type, in order. |
| FuncTypes.TypeSectionLookup | lib/wasm/src/ast/wasmparser.rs:1340-1367 | After a first type section, `get(i)` returns the i-th entry's converted type. An index at or beyond the section's length is an index error. |
| FuncTypes.Types.constructor | lib/wasm/src/ast/wasmparser.rs:1334-1336 | `Types::none` starts with no type section. |
| FuncTypes.Types.SetCapacity | lib/wasm/src/ast/wasmparser.rs:1340-1346 | The table always becomes empty and sized. The call fails with "duplicate type section" exactly when a table was already there. |
| FuncTypes.Types.Add | lib/wasm/src/ast/wasmparser.rs:1349-1356 | Before the type section it fails with "missing type section". A conversion error is returned with the table unchanged. Otherwise exactly the converted type is appended. |
| FuncTypes.Types.Get | lib/wasm/src/ast/wasmparser.rs:1358-1367 | Returns `Lookup` of the current table. |
| FuncTypes.Types.TypeSection | lib/wasm/src/ast/wasmparser.rs:61-71 | The loop over the entries succeeds exactly when the pure section does, and it leaves that section's table, or returns its error. |
| FuncTypes.DuplicateTypeSectionScenario | lib/wasm/src/ast/wasmparser.rs:1340-1346 | A second `set_capacity` after a successful `add` fails. Afterwards `get(0)` is an index error: the earlier types are gone. |
| Instructions.BrTableTargets | lib/wasm/src/ast/wasmparser.rs:552-563 | The target loop yields one label per target, in order. |
| Instructions.ConvertInstr | lib/wasm/src/ast/wasmparser.rs:525-1106 | The conversion of one operator. Its contract is in the lemmas below. Only 1.0 operators convert (`ConvertInstrOnlyMvp`), and each later proposal is rejected by name (the `Rejects` lemmas). Immediates decide success and error (`ConvertInstrImmediates`). Conversion and `Lower` are inverse both ways (`ConvertInstrRoundTrip`, `ConvertInstrLower`). |
| Instructions.ConvertInstrRejectsControl | lib/wasm/src/ast/wasmparser.rs:541-574 | try/catch/catch_all/throw/rethrow/delegate are rejected as ExceptionHandling, and return_call and return_call_indirect as TailCalls, whatever their immediates. |
| Instructions.ConvertInstrRejectsReferenceTypes | lib/wasm/src/ast/wasmparser.rs:792-797 | The table instructions are rejected as ReferenceTypes. So are typed `select` (line 579) and `ref.null`/`ref.is_null`/`ref.func` (lines 635-637). |
| Instructions.ConvertInstrRejectsNumericExtensions | lib/wasm/src/ast/wasmparser.rs:763-776 | The sign-extension operators are rejected as SignExtensionOps and the saturating truncations as NontrappingFloatToInt. |
| Instructions.ConvertInstrRejectsBulkMemory | lib/wasm/src/ast/wasmparser.rs:778-790 | The seven bulk-memory operators are rejected as BulkMemoryOperations. |
| Instructions.ConvertInstrRejectsAtomicsAndSimd | lib/wasm/src/ast/wasmparser.rs:799-1104 | Every atomic operator is rejected as ThreadsAtomics and every SIMD operator as Simd. |
| Instructions.ConvertInstrImmediates | lib/wasm/src/ast/wasmparser.rs:535-626 | block/loop/if succeed exactly when their block type converts, and fail with its error otherwise. `call_indirect` succeeds exactly when the type index resolves, carries the looked-up type, and otherwise fails with the lookup error. Loads and stores succeed or fail with their memarg. `memory.size`/`memory.grow` succeed exactly on memory 0, and otherwise fail as MultiMemory. |
| Instructions.ConvertInstrTotal | lib/wasm/src/ast/wasmparser.rs:532-761 | The 1.0 operators without a convertible immediate always convert: control without block types, variables, constants and numeric operators. |
| Instructions.ConvertInstrOnlyMvp | lib/wasm/src/ast/wasmparser.rs:525-1106 | Only WebAssembly 1.0 operators convert. |
| Instructions.RoundTripControl | lib/wasm/src/ast/wasmparser.rs:532-577 | A converted control operator encodes back to itself, including `br_table` label lists. |
| Instructions.RoundTripVariable | lib/wasm/src/ast/wasmparser.rs:581-585 | A converted local or global operator encodes back to itself. |
| Instructions.RoundTripMemory | lib/wasm/src/ast/wasmparser.rs:587-628 | A converted load, store, `memory.size` or `memory.grow` encodes back to itself. |
| Instructions.RoundTripNumeric | lib/wasm/src/ast/wasmparser.rs:630-761 | A converted constant or numeric operator encodes back to itself. |
| Instructions.ConvertInstrRoundTrip | lib/wasm/src/ast/wasmparser.rs:525-1106 | Every operator that converts is the encoding of its conversion. |
| Instructions.ConvertInstrLower | lib/wasm/src/ast/wasmparser.rs:525-1106 | Every AST instruction is the conversion of its encoding. This needs memory 0 and, for `call_indirect`, a table holding its type at the given index. |
| Instructions.ConvertOps | lib/wasm/src/ast/wasmparser.rs:514-516 | An operator sequence converts exactly when every operator does. The result has one instruction per operator, in order. On failure the error is that of the first operator that fails. |
| Instructions.ConvertOpsFirstError | lib/wasm/src/ast/wasmparser.rs:514-516 | If the operators before position i convert and the one at i fails, the sequence fails with that operator's error. |
| Instructions.ConvertOperator | lib/wasm/src/ast/wasmparser.rs:525-1106 | The method form of `convert_instr`, reading the `Types` object. Its result is `ConvertInstr` of the table. |
| Bodies.ExpandLocals | lib/wasm/src/ast/wasmparser.rs:501-507 | A successful expansion has as many locals as the declarations' counts add up to. A declaration with count 0 is skipped without converting its code, whatever that code is. Its success condition, contents and error are in `ExpandLocalsOk`, `ExpandLocalsTypes` and `ExpandLocalsError`. |
| Bodies.LocalTypes | lib/wasm/src/ast/wasmparser.rs:501-507 | The declared local types, expanded: their number is the sum of the counts. |
| Bodies.LocalTypesAt | lib/wasm/src/ast/wasmparser.rs:501-507 | The j-th copy of declaration i sits at position (sum of the earlier counts) + j. So each type appears `count` times, contiguously, in declaration order. |
| Bodies.ExpandLocalsOk | lib/wasm/src/ast/wasmparser.rs:501-507 | Expanding the locals succeeds exactly when every declaration with a non-zero count has a 1.0 value type. |
| Bodies.ExpandLocalsTypes | lib/wasm/src/ast/wasmparser.rs:501-507 | An expansion that succeeds yields exactly the expanded declared types. |
| Bodies.ExpandLocalsError | lib/wasm/src/ast/wasmparser.rs:501-507 | A failed expansion fails with `convert_ty`'s error on the first non-empty declaration whose type is rejected. |
| Bodies.ExpandLocalsFirstError | lib/wasm/src/ast/wasmparser.rs:501-507 | Conversely, the first non-empty declaration with a rejected type determines the error. |
| Bodies.ParseBodySpec | lib/wasm/src/ast/wasmparser.rs:497-522 | A converted body has one local per declared count and one instruction per operator. The i-th instruction is the i-th operator's conversion. The success condition and the order of errors are in `ParseBodyMeaning`. |
| Bodies.ParseBodyMeaning | lib/wasm/src/ast/wasmparser.rs:497-522 | `parse_body` succeeds exactly when the locals expand and the operators convert. A locals error comes first. On success the locals are those declared, and there is one instruction per operator, in order. |
| Bodies.ExpandLocalDecls | lib/wasm/src/ast/wasmparser.rs:501-507 | The nested locals loop computes the expansion. |
| Bodies.ConvertOperators | lib/wasm/src/ast/wasmparser.rs:514-516 | The operator loop computes the sequence conversion. |
| Bodies.ParseBody | lib/wasm/src/ast/wasmparser.rs:497-522 | The method computes `parse_body`'s result against the `Types` object. |
| ModuleParser.ImportEntry | lib/wasm/src/ast/wasmparser.rs:78-116 | A missing field name is rejected as ModuleLinking, first. Tag imports are rejected as ExceptionHandling, and module and instance imports as ModuleLinking. A function import succeeds exactly when its type resolves. It appends an imported function with that type and adds 1 to `imported_function_count`. Globals, tables and memories are appended with their converted type and origin, and leave the count alone. The type table and the code counters never change. |
| ModuleParser.FunctionEntry | lib/wasm/src/ast/wasmparser.rs:126-131 | Succeeds exactly when the type index resolves, and appends a function with that type and empty code. Otherwise it fails with the lookup error. |
| ModuleParser.TableEntry | lib/wasm/src/ast/wasmparser.rs:139-144 | Succeeds exactly when the table type converts, and appends a table without elements. |
| ModuleParser.MemoryEntry | lib/wasm/src/ast/wasmparser.rs:152-157 | Succeeds exactly on 32-bit memories, and appends a memory without data. Otherwise it fails as Memory64. |
| ModuleParser.GlobalEntry | lib/wasm/src/ast/wasmparser.rs:166-177 | Succeeds exactly when the type and every initializer operator convert, with the type error first. It appends the global with its converted initializer. |
| ModuleParser.ExportEntry | lib/wasm/src/ast/wasmparser.rs:184-222 | For function, table, memory and global exports, it succeeds exactly when the index is in range for that kind, and otherwise fails with an index error for that kind. On success only that entity changes, gaining the export name at the end of its list. Tag, type, module and instance exports are rejected by proposal name. |
| ModuleParser.ElementFunctions | lib/wasm/src/ast/wasmparser.rs:241-250 | The items succeed exactly when all are function indices, and keep them in order. An expression item is rejected as ReferenceTypes. |
| ModuleParser.ElementEntry | lib/wasm/src/ast/wasmparser.rs:236-285 | Checked in order: the element type, the items, the kind, the table index. Passive segments are rejected as BulkMemoryOperations and declared ones as ReferenceTypes. A missing table is an index error. Success appends the segment to exactly that table's elements. |
| ModuleParser.DataEntry | lib/wasm/src/ast/wasmparser.rs:295-324 | A passive segment is rejected as BulkMemoryOperations, and a missing memory is an index error. An active segment whose offset converts is appended to exactly that memory's data. |
| ModuleParser.FunctionNaming | lib/wasm/src/ast/wasmparser.rs:351-361 | A function name succeeds exactly when the function exists, and otherwise fails with an index error. It sets that function's name and nothing else. |
| ModuleParser.LocalNaming | lib/wasm/src/ast/wasmparser.rs:362-382 | The local names of a function succeed exactly when the function exists, and otherwise fail with an index error. |
| ModuleParser.NameEntry | lib/wasm/src/ast/wasmparser.rs:344-396 | A module name is accepted exactly when none was set, and it is recorded. A second one fails with "duplicate module name". Function and local names are their loops. Other subsections change nothing. |
| ModuleParser.FlushBodies | lib/wasm/src/ast/wasmparser.rs:447-464 | Converts the waiting bodies, then stores them in order. When it succeeds, and what it leaves, is in `ConvertedStoresOk`, `StoreCodesAt` and `StoreCodesFirstError`. |
| ModuleParser.ConvertAll | lib/wasm/src/ast/wasmparser.rs:451-457 | The waiting bodies are converted one result each, in order, and keep their function index. |
| ModuleParser.StoreCode | lib/wasm/src/ast/wasmparser.rs:458-463 | A converted body is stored exactly when its function index exists and it converted. The index is checked first and gives an index error. A conversion error comes next. Only that function's code changes. |
| ModuleParser.CodeEntry | lib/wasm/src/ast/wasmparser.rs:439-465 | An entry gets index `imported_function_count + current_code_idx` and waits. The entry that reaches the announced count converts and stores every waiting body and clears them, or fails with the store's error. |
| ModuleParser.Step | lib/wasm/src/ast/wasmparser.rs:48-485 | One arm of the payload `match`. It has no contract of its own. `ProcessPayload` is proved equal to it. What each arm does is in the entry functions and the lemmas that step one section (`CodeSectionAsEntries`, `StepRecordsSection`). |
| ModuleParser.ParseModuleSpec | lib/wasm/src/ast/wasmparser.rs:21-495 | The fold of `Step` from the empty module. `ParseModule` is proved equal to it. `FunctionIndexSpace` states the function index space of its result. |
| ModuleParser.ImportSection | lib/wasm/src/ast/wasmparser.rs:73-117 | The import loop computes the fold of `ImportEntry` and keeps the type table. |
| ModuleParser.FunctionSection | lib/wasm/src/ast/wasmparser.rs:120-132 | The function loop computes the fold of `FunctionEntry`. |
| ModuleParser.TableSection | lib/wasm/src/ast/wasmparser.rs:133-145 | The table loop computes the fold of `TableEntry`. |
| ModuleParser.MemorySection | lib/wasm/src/ast/wasmparser.rs:146-158 | The memory loop computes the fold of `MemoryEntry`. |
| ModuleParser.GlobalSection | lib/wasm/src/ast/wasmparser.rs:160-178 | The global loop computes the fold of `GlobalEntry`. |
| ModuleParser.ExportSection | lib/wasm/src/ast/wasmparser.rs:179-223 | The export loop computes the fold of `ExportEntry`. |
| ModuleParser.ElementItems | lib/wasm/src/ast/wasmparser.rs:241-250 | The items loop computes `ElementFunctions`. |
| ModuleParser.ElementSection | lib/wasm/src/ast/wasmparser.rs:231-286 | The element loop computes the fold of `ElementEntry`. |
| ModuleParser.DataSection | lib/wasm/src/ast/wasmparser.rs:290-325 | The data loop computes the fold of `DataEntry`. |
| ModuleParser.NameSection | lib/wasm/src/ast/wasmparser.rs:340-398 | The subsection loop computes the fold of `NameEntry`. |
| ModuleParser.TypeSection | lib/wasm/src/ast/wasmparser.rs:52-72 | The type section against the `Types` object succeeds exactly when the pure section does. The object and the state then hold its table; otherwise the call returns its error. |
| ModuleParser.StoreBodies | lib/wasm/src/ast/wasmparser.rs:447-464 | Converting every waiting body, then storing the results in order, computes `FlushBodies`. |
| ModuleParser.CodeSectionEntry | lib/wasm/src/ast/wasmparser.rs:439-465 | The method computes `CodeEntry`. |
| ModuleParser.EntrySection | lib/wasm/src/ast/wasmparser.rs:73-425 | Every section with an entry loop computes `Step` and does not change the type table. |
| ModuleParser.ProcessPayload | lib/wasm/src/ast/wasmparser.rs:48-485 | One payload computes `Step`, and the `Types` object keeps holding the state's table. |
| ModuleParser.ParseModule | lib/wasm/src/ast/wasmparser.rs:21-495 | The payload loop returns `ParseModuleSpec`: the fold of `Step` from the empty module, without a type section. |
| ModuleParser.ImportSectionNumbering | lib/wasm/src/ast/wasmparser.rs:78-116 | `imported_function_count` grows by exactly the number of function imports. Those are appended as imported functions after the existing ones. The table and the code counters are untouched. |
| ModuleParser.FunctionSectionAppends | lib/wasm/src/ast/wasmparser.rs:120-132 | The section succeeds exactly when every type index resolves. It then appends one function per entry, in order, with the type it names and empty code, and changes nothing else. |
| ModuleParser.CodeEntriesWait | lib/wasm/src/ast/wasmparser.rs:439-449 | Entries before the last announced one only wait. The k-th is given index `imported_function_count + current_code_idx + k`. |
| ModuleParser.CodeSectionEnds | lib/wasm/src/ast/wasmparser.rs:439-464 | The entry completing the count stores all waiting bodies at the indices they were given, and resets the waiting list, or fails with the store's error. |
| ModuleParser.StoreCodesOk | lib/wasm/src/ast/wasmparser.rs:458-463 | Storing consecutively numbered results succeeds exactly when all converted and all their indices exist. |
| ModuleParser.StoreCodesAt | lib/wasm/src/ast/wasmparser.rs:458-463 | After storing, function `base + k` holds the k-th result as its code. Every other function is unchanged. |
| ModuleParser.StoreCodesFirstError | lib/wasm/src/ast/wasmparser.rs:458-463 | A failed store fails at the first result with a missing index or an error. The error is the index error or that result's error. |
| ModuleParser.ConvertedStoresOk | lib/wasm/src/ast/wasmparser.rs:451-463 | Converting and storing bodies numbered from `base` succeeds exactly when every body converts and all indices exist. |
| ModuleParser.CodeSectionStores | lib/wasm/src/ast/wasmparser.rs:426-464 | A whole code section numbers its bodies from `imported_function_count`, converts them and stores them in order. |
| ModuleParser.CodeSectionOk | lib/wasm/src/ast/wasmparser.rs:426-464 | A code section succeeds exactly when every body converts and functions `imported_function_count + k` exist for all its entries. |
| ModuleParser.CodeSectionNumbering | lib/wasm/src/ast/wasmparser.rs:439-464 | The k-th code entry is converted and stored as the code of function `imported_function_count + k`. No other function and nothing else in the module changes. |
| ModuleParser.CodeSectionFirstError | lib/wasm/src/ast/wasmparser.rs:439-464 | A failed code section fails at the first entry whose index is missing or whose body fails. The error is that index error or that body's error. |
| ModuleParser.CodeEntriesAsPayloads | lib/wasm/src/ast/wasmparser.rs:439-465 | A run of code-entry payloads is the fold of `CodeEntry`. |
| ModuleParser.CodeSectionAsEntries | lib/wasm/src/ast/wasmparser.rs:426-465 | A code-section start followed by its entries resets the waiting list, sets the count, then runs the entries. |
| ModuleParser.DeclaredFunctions | lib/wasm/src/ast/wasmparser.rs:52-132 | After a type, an import and a function section, the imported functions come first. The k-th function-section entry is function `imported_function_count + k`, with the type it names, and no code entry has been seen. |
| ModuleParser.ImportsThenFunctions | lib/wasm/src/ast/wasmparser.rs:73-132 | An import section, then a function section, on a module without functions: the imported functions, then the defined ones. |
| ModuleParser.StoresAfterDeclarations | lib/wasm/src/ast/wasmparser.rs:458-463 | Storing the code section's bodies over the declared functions gives the numbered function index space. |
| ModuleParser.CodeSectionModule | lib/wasm/src/ast/wasmparser.rs:439-464 | A successful code section leaves the module the stores produce. |
| ModuleParser.CodeEntriesAfterDeclarations | lib/wasm/src/ast/wasmparser.rs:426-464 | A code section after the declarations gives each function `imported_function_count + k` the k-th body's code and keeps the declared types. |
| ModuleParser.CodeAfterDeclarations | lib/wasm/src/ast/wasmparser.rs:426-465 | The same, for the code-section payloads themselves. |
| ModuleParser.FunctionIndexSpace | lib/wasm/src/ast/wasmparser.rs:21-495 | In a successful module of a type, an import, a function and a code section, the index space is: the function imports first, then function `n + k` with the type the k-th function-section entry names and the k-th body's conversion as code. |
| ModuleParser.StepRecordsSection | lib/wasm/src/ast/wasmparser.rs:48-432 | After a successful payload, the last section seen is that payload's kind if it pushes to `section_offsets`. Every other payload keeps the previous one: data count, code entries, version and end. A name section and a raw custom section are the same kind, as `std::mem::discriminant` sees them. |
| ModuleParser.CustomSectionAfter | lib/wasm/src/ast/wasmparser.rs:400-425 | A custom section other than "name", directly after a payload that records a section, is kept as bytes. Its `after` field names that payload's kind. |

## Left out

- Byte-level decoding (`read_to_end`, `Parser::parse_all`, the section readers, LEB128) belongs to the external decoder. The model starts from decoded values, so decoder errors (`reader.read()?`, `op?`, `target?`) are not modelled.
- Section and function-code offsets record where sections start in the byte stream, which the model does not have. These are the byte positions in `section_offsets`, `function_offsets` and the returned `Offsets`. Only the kind of the last section is kept. `ParseModule` returns the module alone.
- The parallel conversion of bodies (`par_drain`) is modelled sequentially. `collect` keeps the order, and the results are stored in that order.
- Float constants are kept as their bit patterns. The `OrderedFloat` reconstruction is floating point.
- Error values are datatypes. The `Display` text, the `WasmExtension` name and URL tables, the conversion of a body error to a string, and the boxing of errors are formatting only.
- The name-section arms that only print a "todo" message change nothing and are modelled as such. The printing is I/O.
- ModuleParser.LocalNaming: only the function-index check is modelled. Assigning each local's name goes through `param_or_local_name_mut`, which is not part of this model.
- The panics are preconditions or subset types: `convert_ty` on the function and empty-block codes (a local declaration may carry them only with count 0, since `Decoded.LocalDecl` admits any code there), `convert_elem_ty` on non-reference types, memory limits beyond 32 bits on a 32-bit memory, and `u32_to_usize`.
- Counters and indices (`imported_function_count`, `current_code_idx`, function indices) are unbounded naturals. The model does not capture the wrap-around of the source's `u32` addition `imported_function_count + current_code_idx`, which would take on the order of 2^32 functions.
- Capacity hints (`set_capacity`'s count, `reserve`, `with_capacity`) do not change behaviour and are ignored.
- The element-segment check "table and element not fitting together" is modelled, but it cannot fire: funcref is the only element type that converts.
- A local declaration with count 0 is not converted at all, so a zero-count declaration of any type code does not fail, the function and empty-block codes included. The model follows the code here: `Decoded.LocalDecl` accepts any code at count 0, and `ExpandLocalsOk` only constrains declarations with a nonzero count.
- `Base.Fold` and its lemmas are generic helpers and have no row.
- Some helper lemmas only split a proof and have no row either: `LowerBlock`, `LowerBranch`, `LowerMemory`, `LowerPlain`, `LowerVariable`, `LowerConst`, `ConvertedPrefix`, `AddAllOk`, `AddAllContents`, `NameEntryKeepsLastSection`, `EntriesKeepLastSection`, `StoredNumbering`, `PendingFromSnoc`, the `Steps*` lemmas, `FrontSections` and `SumCountsMonotone`.
