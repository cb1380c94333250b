/**
 The KAST term builder of the KWasm binary parser: the KLabels of the
 WebAssembly syntax, cons lists of definitions, instructions and value
 types, and the fixed-arity constructors for types, functions and modules
 whose terms the parser hands to the K semantics.
 */
module KwasmAst {
  import opened KAst
  import opened Decimal

  // KLabels

  const MODULE := "aModuleDecl"
  const MODULE_METADATA := "moduleMeta"
  const TYPE := "aTypeDefn"
  const FUNC_TYPE := "aFuncType"
  const VEC_TYPE := "aVecType"
  const VAL_TYPES := "listValTypes"
  const VAL_TYPES_NIL := ".List{\"listValTypes\"}_ValTypes"
  const I32 := "i32"
  /** Bound to the same label as I32; the i64 value-type term below does not use it. */
  const I64 := "i32"

  const FUNC := "aFuncDefn"
  const FUNC_METADATA := "funcMeta"

  const DEFNS := "___WASM-COMMON-SYNTAX_Defns_Defn_Defns"
  const INSTRS := "___WASM-COMMON-SYNTAX_Instrs_Instr_Instrs"

  const EMPTY_STMTS := ".List{\"listStmt\"}_EmptyStmts"
  /** The label that EMPTY_ID names before it is rebound to a term. */
  const EMPTY_ID_LABEL := ".Identifier"
  const EMPTY_MAP := ".Map"

  // Basic datatypes

  /** An integer token: sort Int, text the decimal rendering of the value. */
  function KInt(value: int): (r: Term)
    ensures r.KToken? && r.sort == "Int"
    ensures CanonicalDecimal(r.text) && ParseInt(r.text) == Some(value)
  {
    KToken(IntToDecimal(value), "Int")
  }

  // Lists

  /**
   The cons encoding of `xs`: each element is the first child of a binary
   `klabel` node whose second child encodes the rest, and the chain ends in
   the nullary `emptyLabel` node.
   */
  function ConsList(klabel: string, emptyLabel: string, xs: seq<Term>): (r: Term)
    ensures r == KApply(emptyLabel, []) <==> xs == []
  {
    if xs == [] then KApply(emptyLabel, [])
    else KApply(klabel, [xs[0], ConsList(klabel, emptyLabel, xs[1..])])
  }

  /**
   Reads a cons-encoded list back: the elements along the `klabel` spine,
   or None when the spine does not end in the nullary `emptyLabel` node.
   */
  function Flatten(t: Term, klabel: string, emptyLabel: string): (r: Option<seq<Term>>)
  {
    match t
    case KToken(_, _) => None
    case KApply(l, args) =>
      if l == emptyLabel && |args| == 0 then Some([])
      else if l == klabel && |args| == 2 then
        match Flatten(args[1], klabel, emptyLabel)
        case None => None
        case Some(rest) => Some([args[0]] + rest)
      else None
  }

  /** The number of binary `klabel` nodes along the spine of `t`. */
  function SpineLength(t: Term, klabel: string): (n: nat)
  {
    if t.KApply? && t.klabel == klabel && |t.args| == 2 then 1 + SpineLength(t.args[1], klabel) else 0
  }

  /** The first node along the spine of `t` that is not a binary `klabel` node. */
  function SpineEnd(t: Term, klabel: string): (e: Term)
  {
    if t.KApply? && t.klabel == klabel && |t.args| == 2 then SpineEnd(t.args[1], klabel) else t
  }

  /** Flattening the cons encoding gives back the original elements, in order. */
  lemma {:induction false} FlattenConsList(klabel: string, emptyLabel: string, xs: seq<Term>)
    ensures Flatten(ConsList(klabel, emptyLabel, xs), klabel, emptyLabel) == Some(xs)
  {
    if xs != [] {
      FlattenConsList(klabel, emptyLabel, xs[1..]);
      assert [xs[0]] + xs[1..] == xs;
    }
  }

  /** Every term that flattens to `xs` is the cons encoding of `xs`. */
  lemma {:induction false} ConsListOfFlatten(t: Term, klabel: string, emptyLabel: string, xs: seq<Term>)
    requires Flatten(t, klabel, emptyLabel) == Some(xs)
    ensures t == ConsList(klabel, emptyLabel, xs)
  {
    if xs != [] {
      ConsListOfFlatten(t.args[1], klabel, emptyLabel, xs[1..]);
    }
  }

  /** Distinct element sequences have distinct cons encodings. */
  lemma ConsListInjective(klabel: string, emptyLabel: string, xs: seq<Term>, ys: seq<Term>)
    requires ConsList(klabel, emptyLabel, xs) == ConsList(klabel, emptyLabel, ys)
    ensures xs == ys
  {
  }

  /**
   The spine of the cons encoding has one `klabel` node per element and ends
   in the single nullary `emptyLabel` node.
   */
  lemma {:induction false} ConsListSpine(klabel: string, emptyLabel: string, xs: seq<Term>)
    ensures SpineLength(ConsList(klabel, emptyLabel, xs), klabel) == |xs|
    ensures SpineEnd(ConsList(klabel, emptyLabel, xs), klabel) == KApply(emptyLabel, [])
  {
    if xs != [] {
      ConsListSpine(klabel, emptyLabel, xs[1..]);
    }
  }

  /** The caller's Python list, which the list builders empty. */
  class TermList {
    var elems: seq<Term>

    constructor (elems: seq<Term>)
      ensures this.elems == elems
    {
      this.elems := elems;
    }

    /** Removes and returns the last element; the builders call it only on a non-empty list. */
    method Pop() returns (last: Term)
      requires elems != []
      modifies this
      ensures elems + [last] == old(elems)
    {
      last := elems[|elems| - 1];
      elems := elems[..|elems| - 1];
    }
  }

  /**
   Builds the cons encoding of the caller's list by popping its elements
   from the end and prepending each to the accumulated tail; the caller's
   list is left empty.
   */
  method KNamedList(klabel: string, emptyLabel: string, items: TermList) returns (tail: Term)
    modifies items
    ensures items.elems == []
    ensures tail == ConsList(klabel, emptyLabel, old(items.elems))
  {
    ghost var original := items.elems;
    tail := KApply(emptyLabel, []);
    while items.elems != []
      invariant |items.elems| <= |original|
      invariant items.elems == original[..|items.elems|]
      invariant tail == ConsList(klabel, emptyLabel, original[|items.elems|..])
      decreases |items.elems|
    {
      var last := items.Pop();
      assert original[|items.elems|..][1..] == original[|items.elems| + 1..];
      tail := KApply(klabel, [last, tail]);
    }
  }

  /** A list of definitions; empties the caller's list. */
  method Defns(items: TermList) returns (r: Term)
    modifies items
    ensures items.elems == []
    ensures r == ConsList(DEFNS, EMPTY_STMTS, old(items.elems))
  {
    r := KNamedList(DEFNS, EMPTY_STMTS, items);
  }

  /** A list of instructions; empties the caller's list. */
  method Instrs(items: TermList) returns (r: Term)
    modifies items
    ensures items.elems == []
    ensures r == ConsList(INSTRS, EMPTY_STMTS, old(items.elems))
  {
    r := KNamedList(INSTRS, EMPTY_STMTS, items);
  }

  /** A list of value types; empties the caller's list. */
  method ValTypes(items: TermList) returns (r: Term)
    modifies items
    ensures items.elems == []
    ensures r == ConsList(VAL_TYPES, VAL_TYPES_NIL, old(items.elems))
  {
    r := KNamedList(VAL_TYPES, VAL_TYPES_NIL, items);
  }

  // Empties

  const EMPTY_ID := KApply(EMPTY_ID_LABEL, [])

  const EMPTY_DEFNS := KApply(EMPTY_STMTS, [])

  const EMPTY_MODULE_METADATA := KApply(MODULE_METADATA, [EMPTY_ID, KApply(EMPTY_MAP, [])])

  const EMPTY_FUNC_METADATA := KApply(FUNC_METADATA, [EMPTY_ID, KApply(EMPTY_MAP, [])])

  /**
   Definitions and instructions share their nil: the empty list of either
   is EMPTY_DEFNS, which reads back as an empty list of either. A non-empty
   list of one never reads back as a list of the other.
   */
  lemma DefnsAndInstrsShareNil(xs: seq<Term>)
    ensures ConsList(DEFNS, EMPTY_STMTS, []) == ConsList(INSTRS, EMPTY_STMTS, []) == EMPTY_DEFNS
    ensures Flatten(EMPTY_DEFNS, DEFNS, EMPTY_STMTS) == Flatten(EMPTY_DEFNS, INSTRS, EMPTY_STMTS) == Some([])
    ensures xs != [] ==> Flatten(ConsList(DEFNS, EMPTY_STMTS, xs), INSTRS, EMPTY_STMTS).None?
    ensures xs != [] ==> Flatten(ConsList(INSTRS, EMPTY_STMTS, xs), DEFNS, EMPTY_STMTS).None?
  {
  }

  /** An empty list of value types is not EMPTY_DEFNS: its nil label differs. */
  lemma ValTypesNilDiffers()
    ensures ConsList(VAL_TYPES, VAL_TYPES_NIL, []) != EMPTY_DEFNS
    ensures Flatten(EMPTY_DEFNS, VAL_TYPES, VAL_TYPES_NIL).None?
  {
  }

  // Value types

  const I32_VALTYPE := KApply("i32", [])
  const I64_VALTYPE := KApply("i64", [])
  const F32_VALTYPE := KApply("f32", [])
  const F64_VALTYPE := KApply("f64", [])

  /**
   The four value-type terms are nullary and pairwise distinct; the I64
   label constant, however, is the i32 label and not that of I64_VALTYPE.
   */
  lemma ValTypesDistinct()
    ensures forall v :: v in [I32_VALTYPE, I64_VALTYPE, F32_VALTYPE, F64_VALTYPE] ==> v.KApply? && v.args == []
    ensures |{I32_VALTYPE.klabel, I64_VALTYPE.klabel, F32_VALTYPE.klabel, F64_VALTYPE.klabel}| == 4
    ensures I64 == I32 == I32_VALTYPE.klabel && I64 != I64_VALTYPE.klabel
  {
  }

  function VecType(valtypes: Term): (r: Term)
    ensures Unapply(r, VEC_TYPE, 1) == Some([valtypes])
  {
    KApply(VEC_TYPE, [valtypes])
  }

  function FuncType(params: Term, results: Term): (r: Term)
    ensures Unapply(r, FUNC_TYPE, 2) == Some([params, results])
  {
    KApply(FUNC_TYPE, [params, results])
  }

  // Instructions

  const NOP := KApply("aNop", [])

  function Block(vecType: Term, instrs: Term): (r: Term)
    ensures Unapply(r, "aBlock", 2) == Some([vecType, instrs])
  {
    KApply("aBlock", [vecType, instrs])
  }

  // Declarations

  function TypeDefn(funcType: Term, metadata: Term := EMPTY_ID): (r: Term)
    ensures Unapply(r, TYPE, 2) == Some([funcType, metadata])
  {
    KApply(TYPE, [funcType, metadata])
  }

  function Func(typ: Term, locals: Term, body: Term, metadata: Term := EMPTY_FUNC_METADATA): (r: Term)
    ensures Unapply(r, FUNC, 4) == Some([typ, locals, body, metadata])
  {
    KApply(FUNC, [typ, locals, body, metadata])
  }

  function Module(types: Term := EMPTY_DEFNS,
                  funcs: Term := EMPTY_DEFNS,
                  tables: Term := EMPTY_DEFNS,
                  mems: Term := EMPTY_DEFNS,
                  globs: Term := EMPTY_DEFNS,
                  elem: Term := EMPTY_DEFNS,
                  data: Term := EMPTY_DEFNS,
                  start: Term := EMPTY_DEFNS,
                  imports: Term := EMPTY_DEFNS,
                  exports: Term := EMPTY_DEFNS,
                  metadata: Term := EMPTY_MODULE_METADATA): (r: Term)
    ensures Unapply(r, MODULE, 11)
            == Some([types, funcs, tables, mems, globs, elem, data, start, imports, exports, metadata])
  {
    KApply(MODULE, [types, funcs, tables, mems, globs, elem, data, start, imports, exports, metadata])
  }

  /**
   Omitted arguments take their defaults: a type definition's metadata is the
   empty identifier, a function's is funcMeta of the empty identifier and the
   empty map.
   */
  lemma DeclarationDefaults(funcType: Term, typ: Term, locals: Term, body: Term)
    ensures TypeDefn(funcType).args[1] == KApply(".Identifier", [])
    ensures Func(typ, locals, body).args[3] == KApply("funcMeta", [KApply(".Identifier", []), KApply(".Map", [])])
  {
  }

  /**
   A module given only its types and functions has eight empty lists of
   definitions after them, in which every list reads back as empty, and the
   empty module metadata last; a module given nothing has ten empty lists.
   */
  lemma ModuleDefaults(types: Term, funcs: Term)
    ensures var m := Module(types, funcs);
      && m.args[..2] == [types, funcs]
      && (forall i :: 2 <= i < 10 ==> Flatten(m.args[i], DEFNS, EMPTY_STMTS) == Some([]))
      && m.args[10] == KApply("moduleMeta", [KApply(".Identifier", []), KApply(".Map", [])])
    ensures Module() == KApply(MODULE, seq(10, _ => EMPTY_DEFNS) + [EMPTY_MODULE_METADATA])
  {
  }

  /** The twenty labels the builder uses. */
  const LABELS := [MODULE, TYPE, FUNC, FUNC_TYPE, VEC_TYPE, "aBlock", "aNop", DEFNS, INSTRS, VAL_TYPES,
                   EMPTY_STMTS, VAL_TYPES_NIL, MODULE_METADATA, FUNC_METADATA, EMPTY_ID_LABEL, EMPTY_MAP,
                   "i32", "i64", "f32", "f64"]

  /** No two of the twenty labels the builder uses are the same. */
  lemma LabelsDistinct()
    ensures |LABELS| == 20
    ensures forall i, j :: 0 <= i < j < |LABELS| ==> LABELS[i] != LABELS[j]
  {
  }

  /**
   Terms built by different constructors never coincide, whatever their
   children: each constructor below gets children of its own, and the
   twelve results are pairwise distinct. The non-empty lists of the three
   kinds and the two distinct nils are included.
   */
  lemma ConstructorsDistinct(v: Term, p: Term, q: Term, bv: Term, bi: Term, tf: Term, tm: Term,
                             f1: Term, f2: Term, f3: Term, f4: Term, m: seq<Term>,
                             xs: seq<Term>, ys: seq<Term>, zs: seq<Term>)
    requires |m| == 11 && xs != [] && ys != [] && zs != []
    ensures var ts := [VecType(v), FuncType(p, q), Block(bv, bi), TypeDefn(tf, tm), Func(f1, f2, f3, f4),
                       Module(m[0], m[1], m[2], m[3], m[4], m[5], m[6], m[7], m[8], m[9], m[10]), NOP,
                       ConsList(DEFNS, EMPTY_STMTS, xs), ConsList(INSTRS, EMPTY_STMTS, ys),
                       ConsList(VAL_TYPES, VAL_TYPES_NIL, zs), EMPTY_DEFNS, ConsList(VAL_TYPES, VAL_TYPES_NIL, [])];
      forall i, j :: 0 <= i < j < |ts| ==> ts[i] != ts[j]
  {
  }
}
