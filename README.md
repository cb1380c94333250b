# KWasm binary parser: KAST term builder

The KWasm binary parser turns a WebAssembly module into KAST. KAST is K's
abstract-syntax-tree format. The K semantics of WebAssembly takes these terms as input.
This project models the term builder in `binary-parser/kwasm_ast.py` and proves
properties of it in Dafny:

- `kast.dfy` (module `KAst`): the term shape. A term is `KApply(klabel, args)` or
  `KToken(text, sort)`. `Unapply` reads an application of a given label and arity
  back into its children.
- `decimal.dfy` (module `Decimal`): how Python's `str` renders an `int` as decimal
  text, plus `ParseInt`, which reads an optional minus sign and ASCII digits back.
  On canonical text (no leading zero, no `-0`) the two are inverse, a bijection
  between the integers and canonical decimal strings.
- `kwasm_ast.dfy` (module `KwasmAst`): the KLabel constants and `KInt`. It also holds
  the cons-list builder `KNamedList` and its wrappers `Defns`, `Instrs` and
  `ValTypes`, the `EMPTY_*` terms, the value-type terms, and the fixed-arity
  constructors `VecType`, `FuncType`, `Block`, `TypeDefn` (Python `type`), `Func` and
  `Module`.

`KNamedList` changes the caller's list in place. It pops from the end until the list
is empty. So the caller's list is a class, `TermList`, with a `seq` field, and
`KNamedList` is a method with a loop. That method is proved against the pure
specification `ConsList`. `Flatten` is the inverse of `ConsList`, and the lemmas
connect the two in both directions. Python's default arguments become Dafny
default-valued parameters.

Two quirks of the source are kept as written:
- The label constant `I64` is `"i32"`. The value-type term for i64 is built with the
  literal `"i64"` instead.
- `EMPTY_ID` is first the string `".Identifier"`. It is then rebound to the term
  `KApply(".Identifier", [])`. Here the string is `EMPTY_ID_LABEL` and the term is
  `EMPTY_ID`. The metadata terms and the default for `TypeDefn` use the term.

The rewrite-based symbolic execution and proof engine that consumes these terms
(matcher, lemma sets, explorer, prover) is not part of this model. Its code is not
among the modelled files. Only the term builder is modelled.

## Model

| member | source | states |
|---|---|---|
| KwasmAst.KInt | binary-parser/kwasm_ast.py:35-36 | the result is a token of sort `Int` whose text is canonical decimal that parses back to the given value |
| Decimal.IntToDecimal | binary-parser/kwasm_ast.py:36 | `str(value)` is canonical decimal (optional minus, no leading zero, no `-0`) and parses back to `value` |
| Decimal.DecimalRoundTrip | binary-parser/kwasm_ast.py:36 | every canonical decimal string parses, and rendering the parsed integer gives that string back |
| Decimal.IntToDecimalInjective | binary-parser/kwasm_ast.py:36 | distinct integers get distinct token texts |
| KwasmAst.ConsList | binary-parser/kwasm_ast.py:42-47 | the cons encoding is exactly the nullary `empty_klabel` node if and only if the list is empty |
| KwasmAst.FlattenConsList | binary-parser/kwasm_ast.py:44-46 | flattening the `klabel` spine of the cons encoding gives back the original elements in their original order |
| KwasmAst.ConsListOfFlatten | binary-parser/kwasm_ast.py:42-47 | every term whose spine flattens to `xs` is the cons encoding of `xs`, so flattening and encoding are inverses |
| KwasmAst.ConsListInjective | binary-parser/kwasm_ast.py:42-47 | two lists with the same labels have the same encoding only if they are equal |
| KwasmAst.ConsListSpine | binary-parser/kwasm_ast.py:43-47 | the spine has exactly `len(items)` binary `klabel` nodes and ends in the single node `KApply(empty_klabel, [])` |
| KwasmAst.TermList.Pop | binary-parser/kwasm_ast.py:45 | `items.pop()` removes the last element and returns it |
| KwasmAst.KNamedList | binary-parser/kwasm_ast.py:42-47 | returns the cons encoding of the caller's original list and leaves that list empty; the loop keeps `items` a prefix of the original and `tail` the encoding of the popped suffix |
| KwasmAst.Defns | binary-parser/kwasm_ast.py:49-50 | encodes with label `DEFNS` and nil `EMPTY_STMTS`, and empties the caller's list |
| KwasmAst.Instrs | binary-parser/kwasm_ast.py:52-53 | encodes with label `INSTRS` and nil `EMPTY_STMTS`, and empties the caller's list |
| KwasmAst.ValTypes | binary-parser/kwasm_ast.py:55-56 | encodes with label `VAL_TYPES` and nil `VAL_TYPES_NIL`, and empties the caller's list |
| KwasmAst.DefnsAndInstrsShareNil | binary-parser/kwasm_ast.py:49-53 | empty definition and instruction lists are both `EMPTY_DEFNS`, which reads back as empty under either label; a non-empty list of one never reads back as the other |
| KwasmAst.ValTypesNilDiffers | binary-parser/kwasm_ast.py:55-56 | an empty value-type list is not `EMPTY_DEFNS`, and `EMPTY_DEFNS` does not read back as a value-type list |
| KwasmAst.ValTypesDistinct | binary-parser/kwasm_ast.py:74-77 | the four value-type terms are nullary with pairwise distinct labels; the `I64` constant equals `I32` and differs from the i64 term's label |
| KwasmAst.VecType | binary-parser/kwasm_ast.py:79-80 | builds `aVecType` with the one child `valtypes` |
| KwasmAst.FuncType | binary-parser/kwasm_ast.py:82-83 | builds `aFuncType` with two children, params then results |
| KwasmAst.Block | binary-parser/kwasm_ast.py:91-92 | builds `aBlock` with two children, the vector type then the instructions |
| KwasmAst.TypeDefn | binary-parser/kwasm_ast.py:193-194 | builds `aTypeDefn` with two children, the function type then the metadata |
| KwasmAst.Func | binary-parser/kwasm_ast.py:196-197 | builds `aFuncDefn` with four children: type, locals, body, metadata |
| KwasmAst.Module | binary-parser/kwasm_ast.py:199-222 | builds `aModuleDecl` with eleven children in the order types, funcs, tables, mems, globs, elem, data, start, imports, exports, metadata |
| KwasmAst.DeclarationDefaults | binary-parser/kwasm_ast.py:193-197 | an omitted type metadata is `KApply(".Identifier", [])`; an omitted function metadata is `funcMeta(.Identifier, .Map)` |
| KwasmAst.ModuleDefaults | binary-parser/kwasm_ast.py:199-209 | a module given only its types and functions has eight empty definition lists after them and `moduleMeta(.Identifier, .Map)` as metadata; `module()` with no arguments is `aModuleDecl` of ten `EMPTY_DEFNS` and `EMPTY_MODULE_METADATA` |
| KwasmAst.LabelsDistinct | binary-parser/kwasm_ast.py:11-89 | the twenty labels in use (constructors, nils, metadata and the four value types) are pairwise distinct |
| KwasmAst.ConstructorsDistinct | binary-parser/kwasm_ast.py:42-222 | the twelve terms built by `VecType`, `FuncType`, `Block`, `TypeDefn`, `Func`, `Module`, `NOP`, the three non-empty list kinds and the two nils (`EMPTY_DEFNS` and the empty value-type list) are pairwise distinct, each with children of its own |

## Left out

- The `pyk.kast` library (`KApply`, `KToken`, `KSequence`, `KConstant`) is reduced to the two-case `Term` datatype. Its printing, hashing and equality are not part of this model. `KSequence` and `KConstant` are imported by the source but never used.
- The opcode names at `binary-parser/kwasm_ast.py:94-187` are left out. Each is only another name for `NOP`, which is modelled as `KApply("aNop", [])`.
- `KInt` models Python's `str` only for an `int`. A `bool` or other value passed despite the annotation is not modelled. `ParseInt` reads an optional `-` and ASCII digits, leading zeros and `-0` included. It rejects the `+`, whitespace, `_` and non-ASCII digits that Python's `int()` accepts. It inverts `IntToDecimal` only on canonical text.
- `KInt`: Python's digit limit on `str(int)` is not modelled. Recent CPython raises `ValueError` for integers of more than 4300 digits; WebAssembly constants have at most 20.
- `TermList.Pop` requires a non-empty list, where Python raises `IndexError`. The loop guard of `KNamedList` never lets the list be empty when it pops.
- Floating point is not modelled: `f32` and `f64` appear only as nullary type labels.
