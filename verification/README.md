# print_source and the string helpers, modelled in Dafny

This project models the one engineered piece of the Polars examples
repository: the `print_source` attribute macro in
`my_proc_macro/src/lib.rs`. It also models the pure string logic in
`src/utilities.rs`. That logic is the name trimming done by the
`print_function!` macro and the rule strings of `hr1`, `hr2` and `hr3`.

`print_source` receives the tokens of one function item. It produces two items:

1. **The instrumented original.** The attributes, visibility and signature
   are kept. The block becomes `{ println!("\n{}", code); <original block> }`.
   Here `code` is the `prettyplease` rendering of the macro's input tokens.
2. **A forwarding wrapper.** It is declared as
   `pub fn <name>_wrapper(<same params>) <same return type>`. Its body is
   `<name>(<param identifiers>)`.

The expansion aborts, and emits neither item, in these cases:

- the input does not parse as a function item (a compile error);
- the tokens do not parse as a file (the `unwrap` panics);
- a parameter is a `self` receiver (panic "Unsupported argument type");
- a typed parameter's pattern is not an identifier (panic "Unsupported argument pattern").

Parameters are examined in declared order, so the first parameter that
cannot be forwarded decides which panic is raised.

Files:

- `syntax.dfy` (module `Syntax`): an abstract syntax for `syn::ItemFn`.
  Identifiers, parameters (`FnArg`, `Pat`), the return type and blocks have
  structure. Attributes, qualifiers, generics, types and ordinary statements
  are opaque text.
- `print_source.dfy` (module `PrintSource`): the macro itself. This covers
  wrapper naming, block injection and its inverse, argument-name extraction
  with both abort cases, wrapper synthesis and the whole expansion.
  The foreign pieces are function-valued parameters:
  - `parseItemFn` for `parse_macro_input!`;
  - `parseFile` for `syn::parse2::<syn::File>`;
  - `unparse` for `prettyplease::unparse`.
- `semantics.dfy` (module `Semantics`): a small big-step semantics with fuel
  for the emitted items. It is used to state what the expansion means at
  run time:
  - a call of the instrumented function writes the source line once, before
    any other output, and then behaves exactly like the original, early
    `return` included;
  - a call of the wrapper behaves exactly like a call of the original name.
- `scenario.dfy` (module `Scenario`): the adder
  `fn add(x: i32, y: i32) -> i32 { x + y }` and the rejected shapes, worked
  through.
- `utilities.dfy` (module `Utilities`): the `print_function!` slice, on
  UTF-8 bytes, and the rule strings.

## Behaviour of the code worth knowing

A description of a forwarding wrapper would usually promise more than the
code does. The model follows the code in each of these points.

- The wrapper is always `pub`. It carries no attributes, no
  `const`/`async`/`unsafe`/`extern` qualifiers and no generics, even when
  the original has them. Only the parameter list and the return type are
  copied.
- The original block is not prefixed statement by statement. It is nested
  whole as the tail expression of a new block. Its `let` scoping and its
  value are therefore untouched.
- The code never checks that parameter names are unique. Identifier
  patterns with `ref` or `mut` are accepted and forwarded by their bare
  name.
- Parsing the tokens a second time, as a file, is a separate step. It can
  panic on its own (`unwrap`).
- Nothing in the code establishes that the rendered source is canonical or
  idempotent under re-rendering, so no formatting property is claimed.

## Model

| member | source | states |
|---|---|---|
| PrintSource.WrapperName | my_proc_macro/src/lib.rs:18-19 | the wrapper identifier is the original identifier followed by `_wrapper`: the original is its prefix, `_wrapper` the rest |
| PrintSource.WrapperNameInjective | my_proc_macro/src/lib.rs:18-19 | two functions get the same wrapper name exactly when they have the same name, and no wrapper is named like its original |
| PrintSource.Instrument | my_proc_macro/src/lib.rs:29-34 | replacing the block leaves attributes, visibility and the whole signature unchanged |
| PrintSource.InstrumentRoundTrip | my_proc_macro/src/lib.rs:29-34 | from an instrumented item the original item and the printed text are recovered exactly, and an item of the injected shape comes from exactly one (item, text) pair: nothing is dropped or altered |
| PrintSource.InstrumentAddsOnePrint | my_proc_macro/src/lib.rs:29-34 | the new block adds exactly one print statement, puts it first, and ends with the original block nested verbatim |
| PrintSource.ArgNames | my_proc_macro/src/lib.rs:37-48 | names are produced exactly when every parameter is a typed identifier pattern; they are the parameter identifiers in declared order, one per parameter; otherwise the error is the panic of the first parameter that is a receiver (`Unsupported argument type`) or a non-identifier pattern (`Unsupported argument pattern`) |
| PrintSource.SynthesizeWrapper | my_proc_macro/src/lib.rs:36-55 | the wrapper exists exactly when every parameter is forwardable; it is `pub`, without attributes, qualifiers or generics, named `<name>_wrapper`, has the original's parameter list and return type, and its body is one call of the original name whose arguments are the parameter identifiers in order (arity equals parameter count); otherwise the first offending parameter's panic |
| PrintSource.Expand | my_proc_macro/src/lib.rs:13-58 | the macro yields exactly two items or an error; it succeeds exactly when the item parses, the tokens parse as a file and every parameter is forwardable; a parse failure gives the parse error, a file failure the unwrap panic, otherwise the panic of the first offending parameter |
| PrintSource.ExpandOutput | my_proc_macro/src/lib.rs:15-56 | on success the first item is the instrumented original (same signature, attributes, visibility) whose printed text is `unparse` of the input tokens' file and whose nested block is the original's, and the second is the `pub` wrapper with the same parameters and return type calling the original with the parameter names |
| Semantics.RebindIsIdentity | my_proc_macro/src/lib.rs:53-54 | reading the parameters back out of the environment a call built and binding them again yields the same environment, even with repeated names |
| Semantics.InstrumentedBlock | my_proc_macro/src/lib.rs:29-34 | running the new block writes the printed line first and then does exactly what the original block does, including early `return` and failure |
| Semantics.InvokeInstrumented | my_proc_macro/src/lib.rs:29-34 | calling the instrumented function writes the source line once before any other output and ends with the original's value |
| Semantics.ForwardingCall | my_proc_macro/src/lib.rs:53-55 | the wrapper's one-statement body ends exactly as the call of the original name with the looked-up parameter values ends |
| Semantics.WrapperForwards | my_proc_macro/src/lib.rs:53-55 | calling the wrapper with any arguments gives the same output and value as calling the original name with the same arguments |
| Semantics.ExpansionBehaviour | my_proc_macro/src/lib.rs:13-58 | in any program where the two emitted items are found under their names, the original name prints the rendering of the input tokens and then behaves as the unmodified item, and the wrapper behaves as the original name |
| Scenario.AddArgNames | my_proc_macro/src/lib.rs:37-41 | `add(x, y)` forwards `x` then `y` |
| Scenario.AddExpansion | my_proc_macro/src/lib.rs:50-56 | `add` expands to itself with the injected block and `pub add_wrapper` calling `add(x, y)` |
| Scenario.AddRuns | my_proc_macro/src/lib.rs:29-34 | after expansion `add(3, 4)` prints its source once and returns 7 |
| Scenario.AddWrapperRuns | my_proc_macro/src/lib.rs:53-55 | `add_wrapper(3, 4)` prints the same and returns 7 |
| Scenario.ReceiverIsRejected | my_proc_macro/src/lib.rs:45-47 | a `&self` receiver aborts with `Unsupported argument type` |
| Scenario.TuplePatternIsRejected | my_proc_macro/src/lib.rs:42-44 | a tuple pattern parameter aborts with `Unsupported argument pattern` |
| Scenario.FirstOffenderDecides | my_proc_macro/src/lib.rs:38-48 | with a receiver before a tuple pattern the receiver's panic is raised |
| Utilities.TrimmedName | src/utilities.rs:13-15 | the slice succeeds exactly when the name has at least three bytes and the cut is a character boundary; the result has three bytes fewer and is a prefix of the name; fewer than three bytes panics |
| Utilities.TrimmedNameOfInnerFn | src/utilities.rs:9-15 | for a type name of the form `P::f` the result is exactly the enclosing path `P` |
| Utilities.TrimmedNameSplitsName | src/utilities.rs:14-15 | the name is the result followed by the cut bytes, and the result plus `::f` is the name exactly when the name ends in `::f` |
| Utilities.Repeat | src/utilities.rs:22 | `c.repeat(n)` has length `n` and every character is `c` |
| Utilities.RepeatIsUniform | src/utilities.rs:21-31 | any string of length `n` made only of `c` is `c.repeat(n)`, so the rule strings are determined by character and length |
| Utilities.Hr1 | src/utilities.rs:21-23 | `hr1` prints 80 `=` and nothing else |
| Utilities.Hr2 | src/utilities.rs:25-27 | `hr2` prints 70 `*` and nothing else |
| Utilities.Hr3 | src/utilities.rs:29-31 | `hr3` prints 60 `-` and nothing else |

## Left out

- The internals of `syn` parsing and `prettyplease::unparse`. These are
  foreign libraries, so they are parameters of `Expand`. Nothing is claimed
  about the rendered text's format, its determinism beyond being a function,
  or its idempotence.
- Token streams, spans, the `proc_macro`/`proc_macro2` conversions and the
  exact compile-error tokens. The error is reported only as its kind.
- Raw identifiers (`r#name`). The wrapper name is built by text
  concatenation. Whether `syn::Ident::new` accepts `r#name_wrapper` depends
  on a foreign library.
- Macro hygiene and name resolution of the emitted items. The semantics
  resolves a call by the first item with that name.
- The `println!` side effect. It is an output line, `"\n" + code`, in the
  semantics. The format machinery of `println!` is not modelled.
- Semantics: opaque statements cannot call functions. Only identifier
  parameters can be bound. Assignments made inside a nested block to
  variables of the enclosing block are not carried back out. Calls consume
  one unit of fuel, and a run that needs more fuel ends as `Stuck`.
  Panics and unwinding are not part of the semantics.
- `print_function!`: the compiler's `type_name` reflection is not modelled.
  The name is a byte-string parameter, and the lemma for `P::f` covers the
  real use. The unused `name_out` binding and the `FUNCTION  : ` prefix of
  the printed line are left out.
- `hr1`/`hr2`/`hr3`: only the printed text is modelled, not the write to
  standard output.
- `print_data`, `print_type`, `clear_screen`, `pause`, `download_file` and
  `check_threads_n` in `src/utilities.rs`. They are terminal I/O, compiler
  type-name reflection, a DataFrame debug dump, network and file access,
  and an operating-system query.
- `src/main.rs` (command-line parsing and dispatch) and every
  `src/ex_0xx_*.rs` example. These are call sites of the Polars library,
  whose behaviour is not visible here.
