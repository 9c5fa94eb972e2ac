/**
 A small big-step semantics for the items `print_source` emits, used to state
 what the expansion means when the emitted functions are later called: the
 instrumented function prints its source exactly once, before anything else,
 and otherwise behaves as the original body; the wrapper returns what the
 original returns.

 Ordinary statements stay opaque: their effect is a parameter `sem` that
 maps a statement and the current environment to output, a new environment
 and a value, or to an early `return`. Calls carry a fuel bound so that the
 semantics is a total function.
 */
module Semantics {
  import opened Syntax
  import opened PrintSource

  /** Run-time values; `Int` is enough for the examples, `Data` stands for
      every other value. */
  datatype Value = Unit | Int(n: int) | Data(repr: string)

  /** Local variables in scope. */
  type Env = map<Ident, Value>

  /** What an opaque statement does. */
  datatype Effect =
    | Continue(out: seq<string>, env: Env, value: Value)
    | Return(out: seq<string>, value: Value)

  /** How a statement list ends: by falling off its end with the value of
      its last statement, or by an early `return`. */
  datatype Exit = Fell(value: Value) | Returned(value: Value)

  /** The lines written to standard output, and how execution ended;
      `Stuck` when fuel runs out or a call cannot be made. */
  datatype Run = Stuck | Done(out: seq<string>, exit: Exit)

  /** Result of one statement. */
  datatype Step =
    | StepStuck
    | Next(out: seq<string>, env: Env, value: Value)
    | Exit(out: seq<string>, value: Value)

  /** The line `println!("\n{}", code)` writes. */
  function PrintedLine(code: string): string
  {
    "\n" + code
  }

  /** Puts earlier output in front of a run. */
  function Prepend(out: seq<string>, r: Run): Run
  {
    match r
    case Stuck => Stuck
    case Done(o, e) => Done(out + o, e)
  }

  /** The first item of a program with the given name. */
  function Lookup(prog: seq<ItemFn>, name: Ident): (r: Option<ItemFn>)
    ensures r.Some? ==> r.value in prog && r.value.sig.ident == name
    ensures r.None? ==> forall i :: 0 <= i < |prog| ==> prog[i].sig.ident != name
  {
    if prog == [] then None
    else if prog[0].sig.ident == name then Some(prog[0])
    else Lookup(prog[1..], name)
  }

  /** The last position at which `k` occurs in `names`. */
  function LastIndex(names: seq<Ident>, k: Ident): (r: nat)
    requires k in names
    ensures r < |names| && names[r] == k
    ensures forall j :: r < j < |names| ==> names[j] != k
  {
    if names[|names| - 1] == k then |names| - 1
    else LastIndex(names[..|names| - 1], k)
  }

  /** Binds parameters to argument values; a later parameter of the same
      name shadows an earlier one. */
  function Bind(names: seq<Ident>, vals: seq<Value>): (env: Env)
    requires |names| == |vals|
    ensures env.Keys == set k | k in names
  {
    map k | k in names :: vals[LastIndex(names, k)]
  }

  /** The values of identifier arguments, or `None` if one is unbound. */
  function ArgValues(env: Env, args: seq<Ident>): (r: Option<seq<Value>>)
    ensures r.Some? <==> forall i :: 0 <= i < |args| ==> args[i] in env
    ensures r.Some? ==> |r.value| == |args|
    ensures r.Some? ==> forall i :: 0 <= i < |args| ==> r.value[i] == env[args[i]]
  {
    if args == [] then Some([])
    else if args[0] !in env then None
    else
      match ArgValues(env, args[1..])
      case None => None
      case Some(vs) => Some([env[args[0]]] + vs)
  }

  /** Executes one statement. A nested block sees the enclosing variables;
      its own bindings end with it. */
  function ExecStmt(fuel: nat, prog: seq<ItemFn>, sem: (string, Env) -> Effect, s: Stmt, env: Env): Step
    decreases fuel, 0, s
  {
    match s
    case Opaque(t) =>
      (match sem(t, env)
       case Continue(o, env', v) => Next(o, env', v)
       case Return(o, v) => Exit(o, v))
    case Print(code) => Next([PrintedLine(code)], env, Unit)
    case Nested(b) =>
      (match ExecStmts(fuel, prog, sem, b.stmts, env, Unit)
       case Stuck => StepStuck
       case Done(o, Fell(v)) => Next(o, env, v)
       case Done(o, Returned(v)) => Exit(o, v))
    case Call(callee, args) =>
      if fuel == 0 then StepStuck
      else
        match ArgValues(env, args)
        case None => StepStuck
        case Some(vs) =>
          match CallFn(fuel - 1, prog, sem, callee, vs)
          case Stuck => StepStuck
          case Done(o, e) => Next(o, env, e.value)
  }

  /** Executes a statement list; `last` is the value of the statement
      before it (`Unit` at the start of a block). */
  function ExecStmts(fuel: nat, prog: seq<ItemFn>, sem: (string, Env) -> Effect,
                     ss: seq<Stmt>, env: Env, last: Value): Run
    decreases fuel, 0, ss
  {
    if ss == [] then Done([], Fell(last))
    else
      match ExecStmt(fuel, prog, sem, ss[0], env)
      case StepStuck => Stuck
      case Exit(o, v) => Done(o, Returned(v))
      case Next(o, env', v) => Prepend(o, ExecStmts(fuel, prog, sem, ss[1..], env', v))
  }

  /** Calls a given function item: binds its parameters and runs its block;
      an early `return` ends the call like falling off the end does. Only
      identifier parameters can be bound. */
  function Invoke(fuel: nat, prog: seq<ItemFn>, sem: (string, Env) -> Effect,
                  g: ItemFn, args: seq<Value>): (r: Run)
    decreases fuel, 1
    ensures r.Done? ==> r.exit.Fell?
    ensures ArgNames(g.sig.inputs).Err? || |args| != |g.sig.inputs| ==> r == Stuck
  {
    match ArgNames(g.sig.inputs)
    case Err(_) => Stuck
    case Ok(names) =>
      if |names| != |args| then Stuck
      else
        match ExecStmts(fuel, prog, sem, g.block.stmts, Bind(names, args), Unit)
        case Stuck => Stuck
        case Done(o, e) => Done(o, Fell(e.value))
  }

  /** Calls the function of the given name. */
  function CallFn(fuel: nat, prog: seq<ItemFn>, sem: (string, Env) -> Effect,
                  name: Ident, args: seq<Value>): (r: Run)
    decreases fuel, 2
    ensures r.Done? ==> r.exit.Fell?
  {
    match Lookup(prog, name)
    case None => Stuck
    case Some(g) => Invoke(fuel, prog, sem, g, args)
  }

  /** Reading the parameters back out of the environment a call built and
      binding them again gives the same environment. */
  lemma RebindIsIdentity(names: seq<Ident>, vals: seq<Value>, vs: seq<Value>)
    requires |names| == |vals| == |vs|
    requires forall i :: 0 <= i < |names| ==> vs[i] == Bind(names, vals)[names[i]]
    ensures Bind(names, vs) == Bind(names, vals)
  {
  }

  /** The instrumented block writes the printed line first and then does
      exactly what the original block does, including an early `return`
      and getting stuck. */
  lemma InstrumentedBlock(fuel: nat, prog: seq<ItemFn>, sem: (string, Env) -> Effect,
                          f: ItemFn, code: string, env: Env)
    ensures ExecStmts(fuel, prog, sem, Instrument(f, code).block.stmts, env, Unit)
         == Prepend([PrintedLine(code)], ExecStmts(fuel, prog, sem, f.block.stmts, env, Unit))
  {
    var ss := Instrument(f, code).block.stmts;
    var inner := ExecStmts(fuel, prog, sem, f.block.stmts, env, Unit);
    var tail := ExecStmts(fuel, prog, sem, [Nested(f.block)], env, Unit);
    assert ss[1..] == [Nested(f.block)];
    assert [Nested(f.block)][1..] == [];
    var step := ExecStmt(fuel, prog, sem, Nested(f.block), env);
    match inner
    case Stuck =>
      assert step == StepStuck;
    case Done(o, Returned(v)) =>
      assert step == Exit(o, v);
    case Done(o, Fell(v)) =>
      assert step == Next(o, env, v);
      assert tail == Prepend(o, ExecStmts(fuel, prog, sem, [], env, v));
    assert tail == inner;
    assert ExecStmts(fuel, prog, sem, ss, env, Unit) == Prepend([PrintedLine(code)], tail);
  }

  /** Calling the instrumented function prints the source once, before any
      other output, and ends with the original's value. */
  lemma InvokeInstrumented(fuel: nat, prog: seq<ItemFn>, sem: (string, Env) -> Effect,
                           f: ItemFn, code: string, args: seq<Value>)
    ensures Invoke(fuel, prog, sem, Instrument(f, code), args)
         == Prepend([PrintedLine(code)], Invoke(fuel, prog, sem, f, args))
  {
    match ArgNames(f.sig.inputs)
    case Err(_) =>
    case Ok(names) =>
      if |names| == |args| {
        InstrumentedBlock(fuel, prog, sem, f, code, Bind(names, args));
      }
  }

  /** The wrapper's body is one call with the parameters looked up in the
      caller's environment; it ends with what the call ends with. */
  lemma ForwardingCall(fuel: nat, prog: seq<ItemFn>, sem: (string, Env) -> Effect,
                       name: Ident, names: seq<Ident>, env: Env)
    requires forall i :: 0 <= i < |names| ==> names[i] in env
    ensures ExecStmts(fuel + 1, prog, sem, [Call(name, names)], env, Unit)
         == CallFn(fuel, prog, sem, name, ArgValues(env, names).value)
  {
  }

  /** The wrapper forwards: with one more unit of fuel for its own call,
      calling the wrapper is calling the function it names, with the same
      arguments, whenever that function has the wrapped parameter list. */
  lemma WrapperForwards(fuel: nat, prog: seq<ItemFn>, sem: (string, Env) -> Effect,
                        f: ItemFn, names: seq<Ident>, args: seq<Value>)
    requires ArgNames(f.sig.inputs) == Ok(names)
    requires Lookup(prog, f.sig.ident).Some?
    requires Lookup(prog, f.sig.ident).value.sig.inputs == f.sig.inputs
    ensures Invoke(fuel + 1, prog, sem, Wrapper(f, names), args)
         == CallFn(fuel, prog, sem, f.sig.ident, args)
  {
    var w := Wrapper(f, names);
    assert ArgNames(w.sig.inputs) == Ok(names);
    if |names| == |args| {
      var env := Bind(names, args);
      var vs := ArgValues(env, names).value;
      RebindIsIdentity(names, args, vs);
      var g := Lookup(prog, f.sig.ident).value;
      ForwardingCall(fuel, prog, sem, f.sig.ident, names, env);
    }
  }

  /** End to end: in a program where the macro's two items are the ones
      found under their names, calling the original name prints the source
      rendered from the input tokens and then behaves as the original item,
      and calling the wrapper gives exactly the same run. */
  lemma ExpansionBehaviour<Tokens, File>(
    item: Tokens,
    parseItemFn: Tokens -> Option<ItemFn>,
    parseFile: Tokens -> Option<File>,
    unparse: File -> string,
    f: ItemFn,
    file: File,
    prog: seq<ItemFn>,
    fuel: nat,
    sem: (string, Env) -> Effect,
    args: seq<Value>
  )
    requires parseItemFn(item) == Some(f) && parseFile(item) == Some(file)
    requires Expand(item, parseItemFn, parseFile, unparse).Ok?
    requires Lookup(prog, f.sig.ident) == Some(Expand(item, parseItemFn, parseFile, unparse).value[0])
    requires Lookup(prog, WrapperName(f.sig.ident)) == Some(Expand(item, parseItemFn, parseFile, unparse).value[1])
    ensures CallFn(fuel, prog, sem, f.sig.ident, args)
         == Prepend([PrintedLine(unparse(file))], Invoke(fuel, prog, sem, f, args))
    ensures CallFn(fuel + 1, prog, sem, WrapperName(f.sig.ident), args)
         == CallFn(fuel, prog, sem, f.sig.ident, args)
  {
    var code := unparse(file);
    var g := Instrument(f, code);
    var names := ArgNames(f.sig.inputs).value;
    ExpandOutput(item, parseItemFn, parseFile, unparse, f, file);
    InvokeInstrumented(fuel, prog, sem, f, code, args);
    WrapperForwards(fuel, prog, sem, g, names, args);
  }
}
