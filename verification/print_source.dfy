/**
 The `print_source` attribute macro (my_proc_macro/src/lib.rs).

 Given one function item, the macro emits two items: the original function
 with its block replaced by `{ println!("\n{}", code); <original block> }`,
 where `code` is the pretty-printed source of the macro's input tokens, and
 a `pub` forwarding wrapper `<name>_wrapper` with the same parameters and
 return type whose body calls the original with the parameter identifiers.

 The foreign pieces are parameters of the model: `parseItemFn` stands for
 `parse_macro_input!(item as ItemFn)`, `parseFile` for
 `syn::parse2::<syn::File>` and `unparse` for `prettyplease::unparse`.
 */
module PrintSource {
  import opened Syntax

  /** Why an expansion produced no items. `ParseError` is the compile error
      `parse_macro_input!` returns; the other three are panics. */
  datatype MacroError =
    | ParseError
    | FileParsePanic
    | UnsupportedPattern
    | UnsupportedType

  /** Appended to the original identifier to name the wrapper. */
  const WrapperSuffix: string := "_wrapper"

  /** The wrapper's identifier, `format!("{}_wrapper", fn_name)`. */
  function WrapperName(name: Ident): (w: Ident)
    ensures |w| == |name| + |WrapperSuffix|
    ensures w[..|name|] == name && w[|name|..] == WrapperSuffix
  {
    name + WrapperSuffix
  }

  /** Distinct functions get distinct wrappers, and no wrapper shares its
      original's name. */
  lemma WrapperNameInjective(a: Ident, b: Ident)
    ensures WrapperName(a) == WrapperName(b) <==> a == b
    ensures WrapperName(a) != a
  {
  }

  /** The injected block: print the source, then run the original block,
      nested verbatim as the tail expression. The signature, attributes and
      visibility are not touched. */
  function Instrument(f: ItemFn, code: string): (g: ItemFn)
    ensures g.attrs == f.attrs && g.vis == f.vis && g.sig == f.sig
  {
    f.(block := Block([Print(code), Nested(f.block)]))
  }

  /** Recovers the original item and the printed source from an
      instrumented item; `None` when the block does not have the injected
      shape. */
  function Uninstrument(g: ItemFn): Option<(ItemFn, string)>
  {
    var ss := g.block.stmts;
    if |ss| == 2 && ss[0].Print? && ss[1].Nested? then
      Some((g.(block := ss[1].block), ss[0].code))
    else
      None
  }

  /** Instrumenting loses nothing: the original item and the printed text
      are recovered exactly, and every item of the injected shape is the
      instrumentation of exactly one (item, text) pair. */
  lemma InstrumentRoundTrip(f: ItemFn, code: string, g: ItemFn)
    ensures Uninstrument(Instrument(f, code)) == Some((f, code))
    ensures Uninstrument(g) == Some((f, code)) ==> Instrument(f, code) == g
  {
  }

  /** Exactly one print statement is added, and none of the original
      statements is dropped or reordered: the original block is the tail. */
  lemma InstrumentAddsOnePrint(f: ItemFn, code: string)
    ensures CountPrints(Instrument(f, code).block.stmts) == CountPrints(f.block.stmts) + 1
    ensures Instrument(f, code).block.stmts[0] == Print(code)
    ensures Instrument(f, code).block.stmts[|Instrument(f, code).block.stmts| - 1] == Nested(f.block)
  {
    var ss := Instrument(f, code).block.stmts;
    assert ss[1..] == [Nested(f.block)];
    assert ss[1..][1..] == [];
    assert CountPrints(ss[1..]) == CountPrints(f.block.stmts) + CountPrints([]);
  }

  /** A parameter the wrapper can forward: a typed parameter whose pattern
      is a (possibly `ref`/`mut`) identifier. */
  predicate IsForwardable(a: FnArg)
  {
    a.Typed? && a.pat.PatIdent?
  }

  /** The panic a non-forwardable parameter causes. */
  predicate Rejects(a: FnArg, e: MacroError)
  {
    || (a.Receiver? && e == UnsupportedType)
    || (a.Typed? && a.pat.PatOther? && e == UnsupportedPattern)
  }

  /** One step of the `arg_names` iterator. */
  function ArgName(a: FnArg): Result<Ident, MacroError>
  {
    match a
    case Typed(PatIdent(_, _, id), _) => Ok(id)
    case Typed(PatOther(_), _) => Err(UnsupportedPattern)
    case Receiver(_) => Err(UnsupportedType)
  }

  /** The identifiers the wrapper passes on, in declared order. The iterator
      is consumed front to back, so the first parameter that is not
      forwardable decides which panic is raised. */
  function ArgNames(inputs: seq<FnArg>): (r: Result<seq<Ident>, MacroError>)
    ensures r.Ok? <==> forall i :: 0 <= i < |inputs| ==> IsForwardable(inputs[i])
    ensures r.Ok? ==> |r.value| == |inputs|
    ensures r.Ok? ==> forall i :: 0 <= i < |inputs| ==> r.value[i] == inputs[i].pat.ident
    ensures r.Err? ==>
      exists k :: 0 <= k < |inputs| && Rejects(inputs[k], r.error)
        && forall i :: 0 <= i < k ==> IsForwardable(inputs[i])
  {
    if inputs == [] then Ok([])
    else
      match ArgName(inputs[0])
      case Err(e) => Err(e)
      case Ok(n) =>
        match ArgNames(inputs[1..])
        case Err(e) =>
          ghost var k :| 0 <= k < |inputs[1..]| && Rejects(inputs[1..][k], e)
            && forall i :: 0 <= i < k ==> IsForwardable(inputs[1..][i]);
          assert Rejects(inputs[k + 1], e);
          Err(e)
        case Ok(ns) => Ok([n] + ns)
  }

  /** The forwarding wrapper: always `pub`, no attributes, qualifiers or
      generics, the same parameter list and return type, and a body that is
      the single call `name(args...)`. */
  function Wrapper(f: ItemFn, names: seq<Ident>): (w: ItemFn)
  {
    ItemFn([], Public,
           Signature([], WrapperName(f.sig.ident), [], f.sig.inputs, f.sig.output),
           Block([Call(f.sig.ident, names)]))
  }

  /** Synthesizes the wrapper of `f`, or reports the first parameter that
      cannot be forwarded. */
  function SynthesizeWrapper(f: ItemFn): (r: Result<ItemFn, MacroError>)
    ensures r.Ok? <==> forall i :: 0 <= i < |f.sig.inputs| ==> IsForwardable(f.sig.inputs[i])
    ensures r.Ok? ==> r.value.vis == Public && r.value.attrs == []
    ensures r.Ok? ==> r.value.sig.ident == WrapperName(f.sig.ident)
    ensures r.Ok? ==> r.value.sig.inputs == f.sig.inputs && r.value.sig.output == f.sig.output
    ensures r.Ok? ==> r.value.sig.qualifiers == [] && r.value.sig.generics == []
    ensures r.Ok? ==>
      && |r.value.block.stmts| == 1
      && r.value.block.stmts[0].Call?
      && r.value.block.stmts[0].callee == f.sig.ident
      && |r.value.block.stmts[0].args| == |f.sig.inputs|
      && forall i :: 0 <= i < |f.sig.inputs| ==>
           r.value.block.stmts[0].args[i] == f.sig.inputs[i].pat.ident
    ensures r.Err? ==>
      exists k :: 0 <= k < |f.sig.inputs| && Rejects(f.sig.inputs[k], r.error)
        && forall i :: 0 <= i < k ==> IsForwardable(f.sig.inputs[i])
  {
    match ArgNames(f.sig.inputs)
    case Err(e) => Err(e)
    case Ok(names) => Ok(Wrapper(f, names))
  }

  /** The whole macro. The printed text is computed from the unmodified
      input tokens; the wrapper is built from the item after its block was
      replaced (the signature is the same). Any failure yields no items. */
  function Expand<Tokens, File>(
    item: Tokens,
    parseItemFn: Tokens -> Option<ItemFn>,
    parseFile: Tokens -> Option<File>,
    unparse: File -> string
  ): (r: Result<seq<ItemFn>, MacroError>)
    ensures r.Ok? ==> |r.value| == 2
    ensures r.Ok? <==>
      && parseItemFn(item).Some?
      && parseFile(item).Some?
      && forall i :: 0 <= i < |parseItemFn(item).value.sig.inputs| ==>
           IsForwardable(parseItemFn(item).value.sig.inputs[i])
    ensures parseItemFn(item).None? ==> r == Err(ParseError)
    ensures parseItemFn(item).Some? && parseFile(item).None? ==> r == Err(FileParsePanic)
    ensures parseItemFn(item).Some? && parseFile(item).Some? && r.Err? ==>
      exists k :: 0 <= k < |parseItemFn(item).value.sig.inputs|
        && Rejects(parseItemFn(item).value.sig.inputs[k], r.error)
        && forall i :: 0 <= i < k ==> IsForwardable(parseItemFn(item).value.sig.inputs[i])
  {
    match parseItemFn(item)
    case None => Err(ParseError)
    case Some(f) =>
      match parseFile(item)
      case None => Err(FileParsePanic)
      case Some(file) =>
        var g := Instrument(f, unparse(file));
        match SynthesizeWrapper(g)
        case Err(e) => Err(e)
        case Ok(w) => Ok([g, w])
  }

  /** On success the first item is the instrumented original: same
      signature, attributes and visibility, printing the source rendered
      from the input tokens before running the original block; the second
      is the wrapper, which forwards every parameter in order. */
  lemma ExpandOutput<Tokens, File>(
    item: Tokens,
    parseItemFn: Tokens -> Option<ItemFn>,
    parseFile: Tokens -> Option<File>,
    unparse: File -> string,
    f: ItemFn,
    file: File
  )
    requires parseItemFn(item) == Some(f) && parseFile(item) == Some(file)
    requires forall i :: 0 <= i < |f.sig.inputs| ==> IsForwardable(f.sig.inputs[i])
    ensures Expand(item, parseItemFn, parseFile, unparse).Ok?
    ensures var items := Expand(item, parseItemFn, parseFile, unparse).value;
      && items[0].sig == f.sig && items[0].attrs == f.attrs && items[0].vis == f.vis
      && Uninstrument(items[0]) == Some((f, unparse(file)))
      && items[1].vis == Public
      && items[1].sig.ident == WrapperName(f.sig.ident)
      && items[1].sig.inputs == f.sig.inputs
      && items[1].sig.output == f.sig.output
      && items[1].block.stmts == [Call(f.sig.ident, ArgNames(f.sig.inputs).value)]
  {
  }
}
