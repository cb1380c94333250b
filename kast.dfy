/**
 The abstract-syntax-tree terms of K (KAST) that the binary parser builds.
 Only the shape of a term matters here: an application of a label to an
 ordered sequence of children, or a token carrying its text and its sort.
 */
module KAst {

  datatype Option<T> = None | Some(value: T)

  /** A KAST term: `KApply(klabel, args)` or `KToken(text, sort)`. */
  datatype Term = KApply(klabel: string, args: seq<Term>) | KToken(text: string, sort: string)

  /**
   Reads a term back as an application of `klabel` with exactly `arity`
   children, giving those children in order, or None when the label or the
   number of children differs.
   */
  function Unapply(t: Term, klabel: string, arity: nat): (r: Option<seq<Term>>)
  {
    if t.KApply? && t.klabel == klabel && |t.args| == arity then Some(t.args) else None
  }
}
