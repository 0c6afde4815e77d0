/** Right-hand-side expressions, kept opaque: the model needs only their free
    symbols, the function names they call, renaming of free symbols and
    substitution of a symbol by another expression. */
module Expressions {

  datatype Expr =
    | Num(value: int)
    | Sym(name: string)
    | Not(arg: Expr)
    | Bin(op: string, left: Expr, right: Expr)
    | Call(func: string, arg: Expr)

  /** The names of the free symbols of `e` (sympy's `free_symbols`). */
  function FreeSymbols(e: Expr): set<string>
  {
    match e
    case Num(_) => {}
    case Sym(n) => {n}
    case Not(a) => FreeSymbols(a)
    case Bin(_, l, r) => FreeSymbols(l) + FreeSymbols(r)
    case Call(_, a) => FreeSymbols(a)
  }

  /** The names of the functions `e` calls. */
  function Functions(e: Expr): set<string>
  {
    match e
    case Num(_) => {}
    case Sym(_) => {}
    case Not(a) => Functions(a)
    case Bin(_, l, r) => Functions(l) + Functions(r)
    case Call(f, a) => {f} + Functions(a)
  }

  /** `rhs_atoms`: the free symbol names together with the function names. */
  function Atoms(e: Expr): set<string>
  {
    FreeSymbols(e) + Functions(e)
  }

  /** Every free symbol `s` becomes `f(s)`; function names are left alone. */
  function MapSymbols(e: Expr, f: string -> string): Expr
  {
    match e
    case Num(v) => Num(v)
    case Sym(n) => Sym(f(n))
    case Not(a) => Not(MapSymbols(a, f))
    case Bin(op, l, r) => Bin(op, MapSymbols(l, f), MapSymbols(r, f))
    case Call(g, a) => Call(g, MapSymbols(a, f))
  }

  /** The free symbols after `MapSymbols` are the images of the free symbols
      before, and the called functions do not change. */
  lemma {:induction false} MapSymbolsFree(e: Expr, f: string -> string)
    ensures forall x :: x in FreeSymbols(MapSymbols(e, f)) <==> exists s :: s in FreeSymbols(e) && f(s) == x
    ensures Functions(MapSymbols(e, f)) == Functions(e)
  {
    match e
    case Num(_) =>
    case Sym(n) =>
    case Not(a) => MapSymbolsFree(a, f);
    case Bin(_, l, r) => MapSymbolsFree(l, f); MapSymbolsFree(r, f);
    case Call(_, a) => MapSymbolsFree(a, f);
  }

  /** The `name_transform` of one symbol: `src` becomes `dst`. */
  function RenameSymbol(e: Expr, src: string, dst: string): Expr
  {
    MapSymbols(e, x => if x == src then dst else x)
  }

  /** After renaming, `src` is no longer free (unless it equals `dst`), `dst`
      is free exactly when `src` or `dst` was, and every other
      symbol is unaffected. */
  lemma RenameSymbolFree(e: Expr, src: string, dst: string)
    ensures src != dst ==> src !in FreeSymbols(RenameSymbol(e, src, dst))
    ensures dst in FreeSymbols(RenameSymbol(e, src, dst)) <==> (src in FreeSymbols(e) || dst in FreeSymbols(e))
    ensures forall x :: x != src && x != dst ==> (x in FreeSymbols(RenameSymbol(e, src, dst)) <==> x in FreeSymbols(e))
  {
    MapSymbolsFree(e, x => if x == src then dst else x);
  }

  /** Renaming a symbol that does not occur changes nothing. */
  lemma {:induction false} RenameAbsent(e: Expr, src: string, dst: string)
    requires src !in FreeSymbols(e)
    ensures RenameSymbol(e, src, dst) == e
  {
    match e
    case Num(_) =>
    case Sym(n) =>
    case Not(a) => RenameAbsent(a, src, dst);
    case Bin(_, l, r) => RenameAbsent(l, src, dst); RenameAbsent(r, src, dst);
    case Call(_, a) => RenameAbsent(a, src, dst);
  }

  /** `subs(name, value)`: every free occurrence of `name` becomes `value`. */
  function Substitute(e: Expr, name: string, value: Expr): Expr
  {
    match e
    case Num(v) => Num(v)
    case Sym(n) => if n == name then value else Sym(n)
    case Not(a) => Not(Substitute(a, name, value))
    case Bin(op, l, r) => Bin(op, Substitute(l, name, value), Substitute(r, name, value))
    case Call(g, a) => Call(g, Substitute(a, name, value))
  }

  /** Substituting a value that does not mention `name` removes `name` and
      adds at most the value's own symbols. */
  lemma {:induction false} SubstituteFree(e: Expr, name: string, value: Expr)
    requires name !in FreeSymbols(value)
    ensures name !in FreeSymbols(Substitute(e, name, value))
    ensures FreeSymbols(Substitute(e, name, value)) <= (FreeSymbols(e) - {name}) + FreeSymbols(value)
  {
    match e
    case Num(_) =>
    case Sym(n) =>
    case Not(a) => SubstituteFree(a, name, value);
    case Bin(_, l, r) => SubstituteFree(l, name, value); SubstituteFree(r, name, value);
    case Call(_, a) => SubstituteFree(a, name, value);
  }

  /** The sum `0 + s1 + s2 + ...` that `rhs += Symbol(s)` builds in a loop. */
  function SumOf(names: seq<string>): Expr
  {
    if |names| == 0 then Num(0)
    else Bin("+", SumOf(names[..|names| - 1]), Sym(names[|names| - 1]))
  }

  /** The symbols of the sum are exactly the summed names. */
  lemma {:induction false} SumOfFree(names: seq<string>)
    ensures forall x :: x in FreeSymbols(SumOf(names)) <==> x in names
  {
    if |names| > 0 {
      SumOfFree(names[..|names| - 1]);
      assert names == names[..|names| - 1] + [names[|names| - 1]];
    }
  }
}
