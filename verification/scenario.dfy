/**
 Worked instances of the expansion: a two-parameter adder, and the two
 parameter shapes the macro rejects.
 */
module Scenario {
  import opened Syntax
  import opened PrintSource
  import opened Semantics

  const AddSource: string := "fn add(x: i32, y: i32) -> i32 { x + y }"

  const I32: Ty := Ty("i32")

  /** `fn add(x: i32, y: i32) -> i32 { x + y }` */
  const Add: ItemFn :=
    ItemFn([], Inherited,
           Signature([], "add", [],
                     [Typed(PatIdent(false, false, "x"), I32), Typed(PatIdent(false, false, "y"), I32)],
                     Arrow(I32)),
           Block([Opaque("x + y")]))

  /** A parser that knows one input. */
  function ParseAdd(tokens: string): Option<ItemFn>
  {
    if tokens == AddSource then Some(Add) else None
  }

  /** Every token text is a file of itself. */
  function ParseAsFile(tokens: string): Option<string>
  {
    Some(tokens)
  }

  /** A pretty-printer that leaves the text alone. */
  function AsWritten(file: string): string
  {
    file
  }

  /** `x + y` on integers; every other statement does nothing. */
  function AddSem(t: string, env: Env): Effect
  {
    if t == "x + y" && "x" in env && "y" in env && env["x"].Int? && env["y"].Int? then
      Continue([], env, Int(env["x"].n + env["y"].n))
    else
      Continue([], env, Unit)
  }

  /** Both parameters of `add` are forwarded, in order. */
  lemma AddArgNames()
    ensures ArgNames(Add.sig.inputs) == Ok(["x", "y"])
  {
    var inputs := Add.sig.inputs;
    assert |inputs| == 2 && inputs[0].pat.ident == "x" && inputs[1].pat.ident == "y";
    var r := ArgNames(inputs);
    assert IsForwardable(Add.sig.inputs[0]) && IsForwardable(Add.sig.inputs[1]);
    assert r.Ok? && |r.value| == 2;
    assert r.value[0] == "x" && r.value[1] == "y";
    assert r.value == ["x", "y"];
  }

  /** What `add` expands to. */
  const AddItems: seq<ItemFn> :=
    [Instrument(Add, AddSource), Wrapper(Instrument(Add, AddSource), ["x", "y"])]

  /** `add` expands to the instrumented `add` and a `pub add_wrapper` that
      calls `add(x, y)`. */
  lemma AddExpansion()
    ensures Expand(AddSource, ParseAdd, ParseAsFile, AsWritten) == Ok(AddItems)
    ensures AddItems[0].sig == Add.sig
    ensures AddItems[0].block.stmts == [Print(AddSource), Nested(Add.block)]
    ensures AddItems[1].sig.ident == "add_wrapper" && AddItems[1].vis == Public
    ensures AddItems[1].block.stmts == [Call("add", ["x", "y"])]
  {
    AddArgNames();
  }

  /** The original `add(3, 4)` returns 7 without printing anything. */
  lemma AddBody(prog: seq<ItemFn>)
    ensures Invoke(0, prog, AddSem, Add, [Int(3), Int(4)]) == Done([], Fell(Int(7)))
  {
    AddArgNames();
    var env := Bind(["x", "y"], [Int(3), Int(4)]);
    assert LastIndex(["x", "y"], "x") == 0;
    assert LastIndex(["x", "y"], "y") == 1;
    assert env["x"] == Int(3) && env["y"] == Int(4);
    assert AddSem("x + y", env) == Continue([], env, Int(7));
    assert Add.block.stmts[1..] == [];
  }

  /** After expansion, `add(3, 4)` prints the source once and returns 7. */
  lemma AddRuns()
    ensures CallFn(0, AddItems, AddSem, "add", [Int(3), Int(4)])
         == Done([PrintedLine(AddSource)], Fell(Int(7)))
  {
    assert Lookup(AddItems, "add") == Some(AddItems[0]);
    InvokeInstrumented(0, AddItems, AddSem, Add, AddSource, [Int(3), Int(4)]);
    AddBody(AddItems);
  }

  /** The wrapper is found under `add_wrapper`. */
  lemma AddWrapperLookup()
    ensures Lookup(AddItems, "add_wrapper") == Some(AddItems[1])
  {
  }

  /** `add_wrapper(3, 4)` runs exactly as `add(3, 4)` does. */
  lemma AddWrapperRuns()
    ensures CallFn(1, AddItems, AddSem, "add_wrapper", [Int(3), Int(4)])
         == Done([PrintedLine(AddSource)], Fell(Int(7)))
  {
    var args := [Int(3), Int(4)];
    AddWrapperLookup();
    AddArgNames();
    AddRuns();
    assert AddItems[0].sig == Add.sig;
    WrapperForwards(0, AddItems, AddSem, AddItems[0], ["x", "y"], args);
  }

  /** `fn area(&self) -> f64` is rejected: a receiver cannot be forwarded. */
  lemma ReceiverIsRejected(f: ItemFn, tokens: string)
    requires f.sig.inputs == [Receiver("&self")]
    ensures Expand(tokens, (t: string) => Some(f), ParseAsFile, AsWritten) == Err(UnsupportedType)
  {
  }

  /** `fn sum((a, b): (i32, i32)) -> i32` is rejected: a tuple pattern has no
      single name to forward. */
  lemma TuplePatternIsRejected(f: ItemFn, tokens: string)
    requires f.sig.inputs == [Typed(PatOther("(a, b)"), Ty("(i32, i32)"))]
    ensures Expand(tokens, (t: string) => Some(f), ParseAsFile, AsWritten) == Err(UnsupportedPattern)
  {
  }

  /** With a receiver before a tuple pattern, the receiver's panic wins:
      parameters are examined in declared order. */
  lemma FirstOffenderDecides(f: ItemFn, tokens: string)
    requires f.sig.inputs == [Receiver("self"), Typed(PatOther("(a, b)"), Ty("(i32, i32)"))]
    ensures Expand(tokens, (t: string) => Some(f), ParseAsFile, AsWritten) == Err(UnsupportedType)
  {
  }
}
