/**
 An abstract syntax for a single Rust function item, as the `print_source`
 attribute macro sees it through the `syn` crate (`syn::ItemFn`).

 Only the parts of the item that the macro inspects or rebuilds are given
 structure: the identifier, the parameter list (`syn::FnArg`, `syn::Pat`),
 the return type and the block. Everything the macro carries along without
 looking at it (attributes, qualifiers, generics, types, ordinary
 statements) is kept as opaque text.
 */
module Syntax {

  /** An optional value. */
  datatype Option<+T> = None | Some(value: T)

  /** Either a value or an error, for operations that can abort. */
  datatype Result<+T, +E> = Ok(value: T) | Err(error: E)

  /** A Rust identifier, as text (`format!("{}", ident)`). */
  type Ident = string

  /** `syn::Visibility`: no keyword, `pub`, or `pub(in path)` and friends. */
  datatype Vis = Inherited | Public | Restricted(path: string)

  /** A type expression; the macro copies types but never interprets them. */
  datatype Ty = Ty(text: string)

  /** `syn::Pat`. `PatIdent` is `[ref] [mut] ident`; every other pattern
      shape (tuples, structs, wildcards, ...) is `PatOther`. */
  datatype Pat =
    | PatIdent(byRef: bool, mutable: bool, ident: Ident)
    | PatOther(text: string)

  /** `syn::FnArg`: a `self` receiver or a typed `pattern: Type` parameter. */
  datatype FnArg =
    | Receiver(text: string)
    | Typed(pat: Pat, ty: Ty)

  /** `syn::ReturnType`: no `-> T` at all, or an explicit one. */
  datatype ReturnType = DefaultReturn | Arrow(ty: Ty)

  /** `syn::Signature`. `qualifiers` holds `const`/`async`/`unsafe`/`extern`
      and `generics` the generic parameters and where-clause, as text. */
  datatype Signature = Signature(
    qualifiers: seq<string>,
    ident: Ident,
    generics: seq<string>,
    inputs: seq<FnArg>,
    output: ReturnType)

  /** Statements of a block. Ordinary statements are opaque. `Print(code)`
      is the statement `println!("\n{}", code)` the macro injects; `Nested`
      is a block used as a statement or tail expression; `Call` is the call
      expression `callee(a1, ..., an)` with identifier arguments that the
      forwarding wrapper consists of. */
  datatype Stmt =
    | Opaque(text: string)
    | Print(code: string)
    | Nested(block: Block)
    | Call(callee: Ident, args: seq<Ident>)

  /** `syn::Block`: `{ stmts }`; the value of the last statement is the
      value of the block. */
  datatype Block = Block(stmts: seq<Stmt>)

  /** `syn::ItemFn`: outer attributes, visibility, signature and body. */
  datatype ItemFn = ItemFn(attrs: seq<string>, vis: Vis, sig: Signature, block: Block)

  /** Number of print statements anywhere in a statement list, nested
      blocks included. */
  function CountPrints(ss: seq<Stmt>): nat
    decreases ss
  {
    if ss == [] then 0 else CountPrintsIn(ss[0]) + CountPrints(ss[1..])
  }

  /** Number of print statements in one statement, nested blocks included. */
  function CountPrintsIn(s: Stmt): nat
    decreases s
  {
    match s
    case Print(_) => 1
    case Nested(b) => CountPrints(b.stmts)
    case _ => 0
  }
}
