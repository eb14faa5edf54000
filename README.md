# uniffi export scaffolding, futures fixture and Swift external type names, in Dafny

This project models three pieces of uniffi-rs and proves properties of the model.

- **The export scaffolding planner** (`scaffolding.dfy`, module `Scaffolding`). This is the part of the
  `#[uniffi::export]` procedural macro that turns an exported function or method signature into
  `extern "C"` boundary functions. The model does not build token streams. Instead it computes an
  abstract plan: the entry's parameters (`arg{i}`, `this`, `&self`), the argument conversions and their
  failure messages, the wrapped call (free function, call on the lifted receiver, or associated function
  with its compile error), the return type (`RustFuture` handle or `FfiReturn` type), the body
  (`call_with_output` or `call_with_result`, with `RustFuture::new` or `new_tokio` for async entries),
  the `_poll`/`_drop` companions, and the error for an `async_runtime` directive on a sync function.
  - `is_receiver`, `collect_params` and the return-shape `match` are functions.
  - `gen_ffi_function` and `gen_method_scaffolding` build their vectors step by step, so they are
    methods whose postconditions state the plan they return. `gen_fn_scaffolding` unzips the result of
    `collect_params` in one expression, but it calls `gen_ffi_function`, so it is a method as well.
  - `decimal.dfy` (module `Decimal`) renders the index `{i}` in decimal and proves it can be read back.
    From this, the emitted parameter names are pairwise distinct.
- **The timer future of the futures fixture** (`futures.dfy`, module `Futures`).
  - `SharedState` is a class with the two fields the mutex guards.
  - `TimerFuture::poll` and the timer thread's firing step are atomic methods on it.
  - The same two steps on values (`PollStep`, `FireStep`, `PollAll`) carry the lemmas about a timer's
    whole life: Pending before the fire, Ready after it, the last registered waker woken exactly once,
    superseded wakers never woken.
  - The fixture's exported functions `greet`, `say_after`, `Megaphone::say_after` and `fallible_me` are
    functions whose results are stated.
- **Swift external type naming** (`swift_external.dfy`, module `SwiftExternal`). `type_label` is the
  stored name. `canonical_name` is `Type` followed by it. The code oracle is ignored.

`fixture_exports.dfy` (module `FixtureExports`) applies the planner to two exports of the fixture.
`wrappers.dfy` holds `Option` and `Result`.

Two cases one might expect to be refused during classification are not:

- An associated function in an exported `impl` block is not rejected outright. The macro still emits a
  complete entry, with the parameters collected from `arg0`, and places the compile error in front of
  the call. The model's plan keeps both.
- A misplaced receiver is not refused at classification time. `collect_params` gives its slot the
  parameter `&self` and a compile error in place of the argument (`CollectParamsReceiverErrors`).

The fixture's timer has no release or cancellation. That lives in the `RustFuture` runtime, which is
not part of this model.

## Model

| member | source | states |
|---|---|---|
| `Scaffolding.IsReceiver` | uniffi_macros/src/export/scaffolding.rs:96-101 | an argument is a receiver exactly when it is a `Receiver`, or a typed argument whose pattern is the identifier `self` |
| `Scaffolding.ArgName` | uniffi_macros/src/export/scaffolding.rs:134 | the i-th parameter name is `arg` followed by a decimal numeral that reads back as i and has no leading zero |
| `Scaffolding.ArgNameInjective` | uniffi_macros/src/export/scaffolding.rs:134 | different indices give different parameter names |
| `Scaffolding.ArgNameIsFresh` | uniffi_macros/src/export/scaffolding.rs:134 | no `arg{i}` equals `this` (line 62) or `call_status` (line 310) |
| `Scaffolding.PanicFormat` | uniffi_macros/src/export/scaffolding.rs:139-142 | the conversion-failure message names the argument (`'name'`) for an identifier pattern and gives `#i` for any other pattern |
| `Scaffolding.CollectParams` | uniffi_macros/src/export/scaffolding.rs:103-151 | one pair per input, in input order; a receiver gets exactly `&self` and the receiver error; any other input gets `arg{i}` of its own type, a lift of `arg{i}` and the message by name or by index |
| `Scaffolding.CollectParamsCollected` | uniffi_macros/src/export/scaffolding.rs:103-151 | the unzipped parameters and arguments of collect_params satisfy `Collected`, the per-slot description both scaffolding methods promise |
| `Scaffolding.CollectParamsNamesDistinct` | uniffi_macros/src/export/scaffolding.rs:116-135 | the emitted `arg{i}` parameters have pairwise distinct names, none of them `this` or `call_status` |
| `Scaffolding.CollectParamsReceiverErrors` | uniffi_macros/src/export/scaffolding.rs:107-124 | collect_params reports a receiver error in some slot exactly when some input is a receiver |
| `Scaffolding.ClassifyReturn` | uniffi_macros/src/export/scaffolding.rs:164-214 | the success type is the declared one, or `()` when there is no output; an async signature always returns a `RustFuture` handle whose error type is the declared one, or `Infallible` when there is none; a sync signature has no throw type and returns its success type's `FfiReturn` type |
| `Scaffolding.FutureConstructor` | uniffi_macros/src/export/scaffolding.rs:217-220 | the Tokio directive selects `new_tokio`, and no directive selects `new` |
| `Scaffolding.GenFfiFunction` | uniffi_macros/src/export/scaffolding.rs:153-320 | the entry keeps the given identifier, parameters and call, and has the return shape above. The body spawns a future (wrapping the value in `Ok` exactly when no error type is declared) when async, uses `call_with_result` for a sync signature with an error type and `call_with_output` otherwise. `_poll` and `_drop` companions, named by suffixing the identifier and distinct from it and from each other, exist if and only if the signature is async. The "only allowed on async functions" error appears if and only if a directive is given on a sync signature |
| `Scaffolding.GenFnScaffolding` | uniffi_macros/src/export/scaffolding.rs:11-34 | a free function's entry is named by the symbol scheme on its own name, calls the function directly with no associated-function error, collects every input from `arg0` with the impl-block receiver message, and has distinct parameter names |
| `Scaffolding.GenMethodScaffolding` | uniffi_macros/src/export/scaffolding.rs:36-94 | the entry is named by the symbol scheme on `impl_{Self}_{name}`. With a receiver first, the parameters are `this` followed by the remaining inputs collected from `arg0`, the call is on the lifted receiver, and there is no associated-function error. Otherwise there is the "associated functions are not currently supported" error, the call is `Self::name`, and all inputs are collected from `arg0`. In both cases `this` occurs only in position 0 and parameter names are distinct |
| `Decimal.Show` | uniffi_macros/src/export/scaffolding.rs:134 | the decimal numeral of a number is nonempty and made of digits, is one digit long exactly for numbers below 10, and starts with `0` only for 0 itself (no leading zero) |
| `Decimal.ParseShow` | uniffi_macros/src/export/scaffolding.rs:141 | reading a numeral back gives the number |
| `Decimal.ShowInjective` | uniffi_macros/src/export/scaffolding.rs:141 | distinct numbers have distinct numerals |
| `Futures.PollStep` | fixtures/futures/src/lib.rs:27-36 | poll is Ready exactly on a completed state, which it leaves unchanged; on an uncompleted state it stores the given waker |
| `Futures.FireStep` | fixtures/futures/src/lib.rs:52-57 | the fire step completes the state, empties the waker slot and wakes the waker that was registered, or none |
| `Futures.PollAll` | fixtures/futures/src/lib.rs:27-36 | a sequence of polls yields one result per poll |
| `Futures.StepsKeepReachable` | fixtures/futures/src/lib.rs:30-57 | the invariant "a completed timer holds no waker" is kept by poll and by the fire step |
| `Futures.CompletedStaysReady` | fixtures/futures/src/lib.rs:30-31 | once completed, every later poll returns Ready and changes nothing |
| `Futures.PendingSupersedes` | fixtures/futures/src/lib.rs:32-35 | before completion every poll returns Pending, and the stored waker is that of the last poll, replacing earlier ones |
| `Futures.TimerLifecycle` | fixtures/futures/src/lib.rs:27-58 | from a new timer: polls before the fire are Pending, the fire wakes exactly the last poll's waker (none if none polled), polls after it are Ready, and the timer ends completed without a waker |
| `Futures.SupersededNeverWoken` | fixtures/futures/src/lib.rs:32-35 | a waker replaced by a later, different one before the fire is not woken |
| `Futures.SharedState.constructor` | fixtures/futures/src/lib.rs:41-44 | the shared state starts uncompleted with no waker |
| `Futures.TimerFuture.constructor` | fixtures/futures/src/lib.rs:40-61 | a new timer owns a fresh shared state that is uncompleted and holds no waker |
| `Futures.TimerFuture.Poll` | fixtures/futures/src/lib.rs:27-36 | on a completed state, Ready with the waker slot unchanged; otherwise Pending with the given waker stored; completion is not changed |
| `Futures.TimerFuture.Fire` | fixtures/futures/src/lib.rs:49-58 | sets `completed`, leaves the waker slot empty and wakes exactly the previously registered waker |
| `Futures.PollTimerAcrossFire` | fixtures/futures/src/lib.rs:27-58 | a task that polls a new timer twice sees Pending twice; the fire wakes the second waker; the next poll is Ready |
| `Futures.Greet` | fixtures/futures/src/lib.rs:66-68 | `greet(who)` is `Hello, ` followed by `who` |
| `Futures.SayAfter` | fixtures/futures/src/lib.rs:89-93 | `say_after(_, who)` is `greet(who)` followed by `!` |
| `Futures.SayAfterWithTokio` | fixtures/futures/src/lib.rs:123-128 | `say_after_with_tokio(_, who)` is `greet(who)` followed by ` (with Tokio)!`, which is never the plain `say_after` result |
| `Futures.UpperChar` | fixtures/futures/src/lib.rs:119 | lower-case ASCII letters map to their upper-case letter; every other character is kept (see "Left out" for non-ASCII letters) |
| `Futures.ToUppercase` | fixtures/futures/src/lib.rs:119 | upper-casing keeps the length and maps each character |
| `Futures.UppercaseAppend` | fixtures/futures/src/lib.rs:119 | upper-casing distributes over concatenation |
| `Futures.MegaphoneSayAfter` | fixtures/futures/src/lib.rs:118-120 | `Megaphone::say_after` is the upper-cased free `say_after`, that is `HELLO, ` followed by the upper-cased name and `!` |
| `Futures.FallibleMe` | fixtures/futures/src/lib.rs:136-144 | `fallible_me(true)` is `Err(Foo)` and `fallible_me(false)` is `Ok(42)` |
| `FixtureExports.MegaphoneSayAfterScaffolding` | fixtures/futures/src/lib.rs:115-121 | the exported async method gets `this`, `arg0: u8`, `arg1: String`, a call on the lifted receiver with messages naming `secs` and `who`, a `RustFuture<String, Infallible>` handle, `new`, two companions and no error |
| `FixtureExports.SayAfterWithTokioScaffolding` | fixtures/futures/src/lib.rs:123-128 | `async_runtime = "tokio"` on an async function selects `new_tokio`, raises no error, and names the companions `_poll` and `_drop` |
| `SwiftExternal.New` | uniffi_bindgen/src/bindings/swift/gen_swift/external.rs:12-14 | the constructor stores the name unchanged |
| `SwiftExternal.TypeLabel` | uniffi_bindgen/src/bindings/swift/gen_swift/external.rs:18-20 | the type label is the stored name |
| `SwiftExternal.CanonicalName` | uniffi_bindgen/src/bindings/swift/gen_swift/external.rs:22-24 | the canonical name is 4 characters longer than the label, starts with `Type` and has the label as its suffix |
| `SwiftExternal.OracleIgnored` | uniffi_bindgen/src/bindings/swift/gen_swift/external.rs:18-24 | both names are the same whatever oracle is passed |
| `SwiftExternal.CanonicalNameInjective` | uniffi_bindgen/src/bindings/swift/gen_swift/external.rs:22-24 | equal canonical names come from equal external types |
| `SwiftExternal.LabelOfNew` | uniffi_bindgen/src/bindings/swift/gen_swift/external.rs:12-24 | the label of a newly built type is the name it was built from, and the canonical name is `Type` plus that name |

## Left out

- Token streams, spans and `into_compile_error` are replaced by the abstract plan. Compile errors are kept as their message text.
- The `log::debug!` line of every entry is not modelled.
- The trailing `call_status` parameter of every entry is implicit in `FfiFunction`.
- `uniffi_meta::fn_ffi_symbol_name` and its checksum are not part of this model. The symbol scheme is a function-valued parameter (`SymbolName`) of the scaffolding methods.
- `RustFuture`, `uniffi_rustfuture_poll`/`_drop`, `call_with_output`/`call_with_result` and `FfiConverter::try_lift`/`lower` are runtime code that is not part of this model. The plan records which of them the emitted code calls, not what they do. This includes release and cancellation of a future.
- The hand-written `extern "C"` entries of `fallible_me` and its `UNIFFI_META_fallible_me` byte array are not modelled. They delegate to the runtime, and the metadata encoding is not part of this model.
- Threads, sleeping, the mutex, `Waker` internals and time are not modelled. Each locked region is one atomic method. The timer thread is one `Fire` step, taken once. A waker is an opaque identity, and `cx.waker().clone()` keeps that identity.
- Futures.SayAfter: gives the value the future resolves to once its timer has fired. The awaiting of the timer inside `say_after` is not modelled.
- Futures.ToUppercase: maps only the ASCII letters `a`-`z`. Rust's `to_uppercase` also maps other Unicode letters, some of them to several characters.
- Futures.UpperChar: this is where the ASCII-only mapping is defined. It keeps every non-ASCII letter unchanged, so it gives `é` where Rust's `char::to_uppercase` gives `É`.
- Futures.MegaphoneSayAfter: inherits the ASCII-only upper-casing. For the name `José` the model gives `HELLO, JOSé!`, where the source gives `HELLO, JOSÉ!`.
- The fixture's other exports (`always_ready`, `void`, `say`, `sleep`, `new_megaphone`) are constant or delay-only bodies. They are not modelled.
- Futures.SayAfterWithTokio: gives the value `Hello, {who} (with Tokio)!` that `say_after_with_tokio` resolves to. Its Tokio sleep is not modelled. Its export signature is planned separately in `FixtureExports.SayAfterWithTokioScaffolding`.
- `tokio::time::sleep` and the Tokio runtime are not modelled.
- The Python test harness of the fixture depends on wall-clock timing and generated bindings, so it is not modelled.
- The code oracle argument of the Swift backend is a type parameter, because both members ignore it.
