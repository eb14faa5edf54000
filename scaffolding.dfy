/**
 * The boundary-function planner of the `#[uniffi::export]` procedural macro.
 *
 * From an exported signature the macro decides which `extern "C"` functions to emit:
 * the parameters and the argument conversions of the main entry, its return type and
 * body, the `_poll`/`_drop` companions of an async export, and the compile errors it
 * attaches. Token streams are replaced by the abstract plan below; the Rust types a
 * signature mentions are kept as opaque text (`Ty`).
 */
module Scaffolding {
  import opened Wrappers
  import Decimal

  // ---------------------------------------------------------------------------------
  // Input: the exported signature and the attribute's arguments

  /** A Rust type as written in the signature. */
  datatype Ty = Ty(tokens: string)

  const UnitTy := Ty("()")
  const InfallibleTy := Ty("::std::convert::Infallible")

  /** The pattern of a typed argument: a plain identifier, or any other pattern (`(a, b)`, `_`, ...). */
  datatype Pat = PatIdent(ident: string) | PatOther

  /** An argument of the signature: `self`/`&self`/`&mut self`, or `pat: ty`. */
  datatype FnArg = Receiver | Typed(pat: Pat, ty: Ty)

  /** `-> ty` of the signature, with the error type when `ty` is a `Result`. */
  datatype FunctionReturn = FunctionReturn(ty: Ty, throws: Option<Ty>)

  datatype Signature = Signature(
    ident: string,
    inputs: seq<FnArg>,
    output: Option<FunctionReturn>,
    isAsync: bool)

  datatype AsyncRuntime = Tokio

  /** The arguments of `#[uniffi::export(...)]`: only `async_runtime = "tokio"` exists. */
  datatype ExportAttributeArguments = ExportAttributeArguments(asyncRuntime: Option<AsyncRuntime>)

  newtype u16 = x: int | 0 <= x < 0x1_0000

  /** The symbol-name scheme of `uniffi_meta::fn_ffi_symbol_name(mod_path, name, checksum)`. */
  type SymbolName = (seq<string>, string, u16) -> string

  // ---------------------------------------------------------------------------------
  // Output: the plan of the emitted code

  /** A parameter of the emitted `extern "C"` function. */
  datatype Param =
    | FfiParam(name: string, ty: Ty)   // `{name}: <{ty} as ::uniffi::FfiConverter>::FfiType`
    | ThisParam(selfIdent: string)     // `this: <Arc<{Self}> as ::uniffi::FfiConverter>::FfiType`
    | SelfRefParam                     // `&self`, emitted only beside a receiver error

  /** The expression passed for one argument of the wrapped Rust call. */
  datatype Arg =
    | Lifted(param: string, ty: Ty, panicFmt: string)  // `try_lift(param).unwrap_or_else(|err| panic!(panicFmt, err))`
    | ReceiverError(message: string)                   // a compile error spanned on the misplaced receiver

  datatype ParamArg = ParamArg(param: Param, arg: Arg)

  /** What the wrapped call is made on. */
  datatype Callee =
    | FreeFn(name: string)                                           // `name(args)`
    | OnLiftedReceiver(selfIdent: string, name: string, panicFmt: string) // `try_lift(this)....name(args)`
    | AssociatedFn(selfIdent: string, name: string)                  // `Self::name(args)`

  /** The wrapped Rust call, preceded by the associated-function compile error if there is one. */
  datatype FnCall = FnCall(assocFnError: Option<string>, callee: Callee, args: seq<Arg>)

  /** The declared return type of the emitted entry. */
  datatype ReturnExpr =
    | FutureHandle(returnTy: Ty, throwTy: Ty)  // `Option<Box<::uniffi::RustFuture<returnTy, throwTy>>>`
    | FfiReturnType(returnTy: Ty)              // `<returnTy as ::uniffi::FfiReturn>::FfiType`

  /** The four values the return-shape `match` computes. */
  datatype ReturnShape = ReturnShape(returnTy: Ty, throwTy: Option<Ty>, returnExpr: ReturnExpr, throws: Option<Ty>)

  /** The constructor of `::uniffi::RustFuture` an async entry calls. */
  datatype FutureCtor = New | NewTokio

  /** The body of the emitted entry. */
  datatype Body =
    | SpawnFuture(ctor: FutureCtor, wrapOk: bool)  // `call_with_output(.., || Some(Box::new(RustFuture::ctor(async move { body }))))`,
                                                 // `body` is `Ok(call.await)` when wrapOk, else `call.await`
    | CallWithResult(errorTy: Ty, returnTy: Ty)    // `call_with_result`, the error lowered through errorTy's FfiConverter
    | CallWithOutput(returnTy: Ty)                 // `call_with_output(.., || <returnTy as FfiReturn>::lower(call))`

  /** The main `#[no_mangle] extern "C"` entry; its trailing `call_status` parameter is implicit. */
  datatype FfiFunction = FfiFunction(ident: string, params: seq<Param>, returnExpr: ReturnExpr, body: Body, call: FnCall)

  /** A monomorphised companion of an async entry. */
  datatype ExtraFunction =
    | PollFunction(ident: string, returnTy: Ty, throwTy: Ty)
    | DropFunction(ident: string, returnTy: Ty, throwTy: Ty)

  /** Everything one export expands to. */
  datatype Expansion = Expansion(entry: FfiFunction, extraFunctions: seq<ExtraFunction>, argumentError: Option<string>)

  // ---------------------------------------------------------------------------------
  // Constants of the macro

  const FnReceiverErrorMsg := "uniffi::export must be used on the impl block, not its containing fn's"
  const MethodReceiverErrorMsg := "unreachable: only first parameter can be method receiver"
  const AssocFnErrorMsg := "associated functions are not currently supported"
  const AsyncRuntimeErrorMsg := "this attribute is only allowed on async functions"
  const SelfLiftPanicFmt := "Failed to convert arg 'self': {}"
  const CallStatusParam := "call_status"

  // ---------------------------------------------------------------------------------
  // Names and messages

  /** The name `arg{i}` of the i-th emitted parameter. */
  function ArgName(i: nat): (r: string)
    ensures |r| > 3 && r[..3] == "arg"
    ensures Decimal.AllDigits(r[3..]) && Decimal.Parse(r[3..]) == i
    ensures |r| > 4 ==> r[3] != '0'
    ensures r[3] == '0' ==> i == 0
  {
    var r := "arg" + Decimal.Show(i);
    assert r[3..] == Decimal.Show(i);
    Decimal.ParseShow(i);
    r
  }

  lemma ArgNameInjective(i: nat, j: nat)
    ensures ArgName(i) == ArgName(j) ==> i == j
  {
  }

  /** No `arg{i}` collides with the other parameter names an entry can have. */
  lemma ArgNameIsFresh(i: nat)
    ensures ArgName(i) != "this" && ArgName(i) != CallStatusParam
  {
  }

  /** The conversion-failure message of the i-th argument: by name when it names one, by index otherwise. */
  function PanicFormat(i: nat, pat: Pat): (r: string)
    ensures pat.PatIdent? ==> r == "Failed to convert arg '" + pat.ident + "': {}"
    ensures pat.PatOther? ==> r == "Failed to convert arg #" + Decimal.Show(i) + ": {}"
  {
    match pat
    case PatIdent(name) => "Failed to convert arg '" + name + "': {}"
    case PatOther => "Failed to convert arg #" + Decimal.Show(i) + ": {}"
  }

  // ---------------------------------------------------------------------------------
  // is_receiver and collect_params

  /** An argument is a receiver when it is `self` in either of its two syntactic forms. */
  predicate IsReceiver(a: FnArg)
    ensures IsReceiver(a) <==> a == Receiver || (a.Typed? && a.pat == PatIdent("self"))
  {
    match a
    case Receiver => true
    case Typed(pat, _) => pat.PatIdent? && pat.ident == "self"
  }

  /** The (param, arg) pair of the input at index i. */
  function CollectParam(i: nat, a: FnArg, receiverErrorMsg: string): ParamArg
  {
    match a
    case Receiver => ParamArg(SelfRefParam, ReceiverError(receiverErrorMsg))
    case Typed(pat, ty) =>
      if pat.PatIdent? && pat.ident == "self" then ParamArg(SelfRefParam, ReceiverError(receiverErrorMsg))
      else ParamArg(FfiParam(ArgName(i), ty), Lifted(ArgName(i), ty, PanicFormat(i, pat)))
  }

  /** One (param, arg) pair per input, in input order, numbered from 0. */
  function CollectParams(inputs: seq<FnArg>, receiverErrorMsg: string): (r: seq<ParamArg>)
    ensures |r| == |inputs|
    ensures forall i :: 0 <= i < |inputs| ==>
              (IsReceiver(inputs[i]) <==> r[i] == ParamArg(SelfRefParam, ReceiverError(receiverErrorMsg)))
    ensures forall i :: 0 <= i < |inputs| && !IsReceiver(inputs[i]) ==>
              && r[i].param == FfiParam(ArgName(i), inputs[i].ty)
              && r[i].arg.Lifted? && r[i].arg.param == ArgName(i) && r[i].arg.ty == inputs[i].ty
    ensures forall i :: 0 <= i < |inputs| && !IsReceiver(inputs[i]) && inputs[i].pat.PatIdent? ==>
              r[i].arg.panicFmt == "Failed to convert arg '" + inputs[i].pat.ident + "': {}"
    ensures forall i :: 0 <= i < |inputs| && !IsReceiver(inputs[i]) && inputs[i].pat.PatOther? ==>
              r[i].arg.panicFmt == "Failed to convert arg #" + Decimal.Show(i) + ": {}"
  {
    seq(|inputs|, i requires 0 <= i < |inputs| => CollectParam(i, inputs[i], receiverErrorMsg))
  }

  function ParamsOf(pairs: seq<ParamArg>): (r: seq<Param>)
    ensures |r| == |pairs| && forall i :: 0 <= i < |pairs| ==> r[i] == pairs[i].param
  {
    seq(|pairs|, i requires 0 <= i < |pairs| => pairs[i].param)
  }

  function ArgsOf(pairs: seq<ParamArg>): (r: seq<Arg>)
    ensures |r| == |pairs| && forall i :: 0 <= i < |pairs| ==> r[i] == pairs[i].arg
  {
    seq(|pairs|, i requires 0 <= i < |pairs| => pairs[i].arg)
  }

  /** The `FfiParam`s of a parameter list have pairwise distinct names. */
  predicate DistinctFfiNames(params: seq<Param>) {
    forall j, k :: 0 <= j < k < |params| && params[j].FfiParam? && params[k].FfiParam? ==>
      params[j].name != params[k].name
  }

  /** The parameters collect_params emits never repeat a name, and never use `this` or `call_status`. */
  lemma CollectParamsNamesDistinct(inputs: seq<FnArg>, msg: string)
    ensures DistinctFfiNames(ParamsOf(CollectParams(inputs, msg)))
    ensures forall i :: 0 <= i < |inputs| && ParamsOf(CollectParams(inputs, msg))[i].FfiParam? ==>
              ParamsOf(CollectParams(inputs, msg))[i].name !in {"this", CallStatusParam}
  {
  }

  /** collect_params reports a receiver error exactly when some input is a receiver. */
  lemma CollectParamsReceiverErrors(inputs: seq<FnArg>, msg: string)
    ensures (exists i :: 0 <= i < |inputs| && CollectParams(inputs, msg)[i].arg.ReceiverError?) <==>
            (exists i :: 0 <= i < |inputs| && IsReceiver(inputs[i]))
  {
    var r := CollectParams(inputs, msg);
    if exists i :: 0 <= i < |inputs| && r[i].arg.ReceiverError? {
      var i :| 0 <= i < |inputs| && r[i].arg.ReceiverError?;
      assert IsReceiver(inputs[i]);
    }
    if exists i :: 0 <= i < |inputs| && IsReceiver(inputs[i]) {
      var i :| 0 <= i < |inputs| && IsReceiver(inputs[i]);
      assert r[i].arg.ReceiverError?;
    }
  }

  /**
   * `params` and `args` are what collect_params promises for `inputs`, numbered from 0:
   * a receiver gets `&self` and a receiver error, any other input the parameter `arg{i}`
   * of its type and a lift of it that names the argument in its failure message.
   */
  ghost predicate Collected(params: seq<Param>, args: seq<Arg>, inputs: seq<FnArg>, receiverErrorMsg: string)
  {
    && |params| == |inputs| && |args| == |inputs|
    && (forall i :: 0 <= i < |inputs| && IsReceiver(inputs[i]) ==>
          params[i] == SelfRefParam && args[i] == ReceiverError(receiverErrorMsg))
    && (forall i :: 0 <= i < |inputs| && !IsReceiver(inputs[i]) ==>
          && params[i] == FfiParam(ArgName(i), inputs[i].ty)
          && args[i] == Lifted(ArgName(i), inputs[i].ty, PanicFormat(i, inputs[i].pat)))
  }

  lemma CollectParamsCollected(inputs: seq<FnArg>, msg: string)
    ensures Collected(ParamsOf(CollectParams(inputs, msg)), ArgsOf(CollectParams(inputs, msg)), inputs, msg)
  {
  }

  // ---------------------------------------------------------------------------------
  // The return shape and the future constructor

  function ClassifyReturn(output: Option<FunctionReturn>, isAsync: bool): (r: ReturnShape)
    ensures r.returnTy == (if output.Some? then output.value.ty else UnitTy)
    ensures r.throws == (if output.Some? then output.value.throws else None)
    ensures isAsync ==> r.throwTy == Some(if r.throws.Some? then r.throws.value else InfallibleTy)
    ensures isAsync ==> r.returnExpr == FutureHandle(r.returnTy, r.throwTy.value)
    ensures !isAsync ==> r.throwTy == None && r.returnExpr == FfiReturnType(r.returnTy)
  {
    if isAsync then
      match output
      case Some(FunctionReturn(ty, None)) =>
        ReturnShape(ty, Some(InfallibleTy), FutureHandle(ty, InfallibleTy), None)
      case Some(FunctionReturn(ty, Some(errorTy))) =>
        ReturnShape(ty, Some(errorTy), FutureHandle(ty, errorTy), Some(errorTy))
      case None =>
        ReturnShape(UnitTy, Some(InfallibleTy), FutureHandle(UnitTy, InfallibleTy), None)
    else
      match output
      case Some(FunctionReturn(ty, throws)) =>
        ReturnShape(ty, None, FfiReturnType(ty), throws)
      case None =>
        ReturnShape(UnitTy, None, FfiReturnType(UnitTy), None)
  }

  function FutureConstructor(arguments: ExportAttributeArguments): (r: FutureCtor)
    ensures r == NewTokio <==> arguments.asyncRuntime == Some(Tokio)
    ensures r == New <==> arguments.asyncRuntime == None
  {
    match arguments.asyncRuntime
    case Some(Tokio) => NewTokio
    case None => New
  }

  /** The part of a plan that gen_ffi_function decides from the signature and the attribute alone. */
  ghost predicate EntryShape(s: Expansion, sig: Signature, ffiIdent: string, arguments: ExportAttributeArguments)
  {
    var shape := ClassifyReturn(sig.output, sig.isAsync);
    && s.entry.ident == ffiIdent
    && s.entry.returnExpr == shape.returnExpr
    && (sig.isAsync ==> s.entry.body == SpawnFuture(FutureConstructor(arguments), shape.throws.None?))
    && (!sig.isAsync && shape.throws.Some? ==> s.entry.body == CallWithResult(shape.throws.value, shape.returnTy))
    && (!sig.isAsync && shape.throws.None? ==> s.entry.body == CallWithOutput(shape.returnTy))
    && (sig.isAsync ==> s.extraFunctions == [
          PollFunction(ffiIdent + "_poll", shape.returnTy, shape.throwTy.value),
          DropFunction(ffiIdent + "_drop", shape.returnTy, shape.throwTy.value)])
    && (!sig.isAsync ==> s.extraFunctions == [])
    && (s.argumentError.Some? <==> arguments.asyncRuntime.Some? && !sig.isAsync)
    && (s.argumentError.Some? ==> s.argumentError.value == AsyncRuntimeErrorMsg)
  }

  // ---------------------------------------------------------------------------------
  // gen_ffi_function, gen_fn_scaffolding, gen_method_scaffolding

  method GenFfiFunction(sig: Signature, ffiIdent: string, params: seq<Param>, call: FnCall,
                        arguments: ExportAttributeArguments)
    returns (s: Expansion)
    ensures s.entry.params == params && s.entry.call == call
    ensures EntryShape(s, sig, ffiIdent, arguments)
    ensures |s.extraFunctions| == (if sig.isAsync then 2 else 0)
    ensures forall k :: 0 <= k < |s.extraFunctions| ==>
              s.extraFunctions[k].ident != ffiIdent && |s.extraFunctions[k].ident| == |ffiIdent| + 5
    ensures sig.isAsync ==> s.extraFunctions[0].ident != s.extraFunctions[1].ident
  {
    var extraFunctions: seq<ExtraFunction> := [];
    var shape := ClassifyReturn(sig.output, sig.isAsync);

    var body: Body;
    if sig.isAsync {
      var ctor := FutureConstructor(arguments);
      body := SpawnFuture(ctor, shape.throws.None?);
    } else {
      match shape.throws
      case Some(errorTy) => body := CallWithResult(errorTy, shape.returnTy);
      case None => body := CallWithOutput(shape.returnTy);
    }

    if sig.isAsync {
      var pollIdent := ffiIdent + "_poll";
      var dropIdent := ffiIdent + "_drop";
      extraFunctions := extraFunctions + [PollFunction(pollIdent, shape.returnTy, shape.throwTy.value)];
      extraFunctions := extraFunctions + [DropFunction(dropIdent, shape.returnTy, shape.throwTy.value)];
      assert pollIdent[|pollIdent| - 1] != dropIdent[|dropIdent| - 1];
    }

    var argumentError := match arguments.asyncRuntime
      case Some(_) => if !sig.isAsync then Some(AsyncRuntimeErrorMsg) else None
      case None => None;

    s := Expansion(FfiFunction(ffiIdent, params, shape.returnExpr, body, call), extraFunctions, argumentError);
  }

  /** The scaffolding of a free function. */
  method GenFnScaffolding(sig: Signature, modPath: seq<string>, checksum: u16,
                          arguments: ExportAttributeArguments, symbolName: SymbolName)
    returns (s: Expansion)
    ensures EntryShape(s, sig, symbolName(modPath, sig.ident, checksum), arguments)
    ensures s.entry.call.assocFnError == None && s.entry.call.callee == FreeFn(sig.ident)
    ensures Collected(s.entry.params, s.entry.call.args, sig.inputs, FnReceiverErrorMsg)
    ensures DistinctFfiNames(s.entry.params)
  {
    var ffiIdent := symbolName(modPath, sig.ident, checksum);
    var pairs := CollectParams(sig.inputs, FnReceiverErrorMsg);
    var params, args := ParamsOf(pairs), ArgsOf(pairs);
    CollectParamsCollected(sig.inputs, FnReceiverErrorMsg);
    CollectParamsNamesDistinct(sig.inputs, FnReceiverErrorMsg);
    s := GenFfiFunction(sig, ffiIdent, params, FnCall(None, FreeFn(sig.ident), args), arguments);
  }

  /** The scaffolding of a method of an exported `impl` block of the type named `selfIdent`. */
  method GenMethodScaffolding(sig: Signature, modPath: seq<string>, checksum: u16, selfIdent: string,
                              arguments: ExportAttributeArguments, symbolName: SymbolName)
    returns (s: Expansion)
    ensures EntryShape(s, sig, symbolName(modPath, "impl_" + selfIdent + "_" + sig.ident, checksum), arguments)
    // A receiver in position 0: `this`, then the other inputs renumbered from arg0.
    ensures |sig.inputs| > 0 && IsReceiver(sig.inputs[0]) ==>
              && s.entry.call.assocFnError == None
              && s.entry.call.callee == OnLiftedReceiver(selfIdent, sig.ident, SelfLiftPanicFmt)
              && |s.entry.params| == |sig.inputs|
              && s.entry.params[0] == ThisParam(selfIdent)
              && Collected(s.entry.params[1..], s.entry.call.args, sig.inputs[1..], MethodReceiverErrorMsg)
    // No receiver first: an associated function, which is refused; every input is collected from arg0.
    ensures !(|sig.inputs| > 0 && IsReceiver(sig.inputs[0])) ==>
              && s.entry.call.assocFnError == Some(AssocFnErrorMsg)
              && s.entry.call.callee == AssociatedFn(selfIdent, sig.ident)
              && Collected(s.entry.params, s.entry.call.args, sig.inputs, MethodReceiverErrorMsg)
    ensures DistinctFfiNames(s.entry.params)
    ensures forall k :: 1 <= k < |s.entry.params| ==> !s.entry.params[k].ThisParam?
  {
    var ffiName := "impl_" + selfIdent + "_" + sig.ident;
    var ffiIdent := symbolName(modPath, ffiName, checksum);

    var params: seq<Param> := [];
    var args: seq<Arg> := [];
    var assocFnError: Option<string> := None;
    var callee: Callee;

    if |sig.inputs| > 0 && IsReceiver(sig.inputs[0]) {
      params := params + [ThisParam(selfIdent)];
      var remaining := CollectParams(sig.inputs[1..], MethodReceiverErrorMsg);
      CollectParamsCollected(sig.inputs[1..], MethodReceiverErrorMsg);
      CollectParamsNamesDistinct(sig.inputs[1..], MethodReceiverErrorMsg);
      params, args := params + ParamsOf(remaining), args + ArgsOf(remaining);
      assert params[1..] == ParamsOf(remaining);
      callee := OnLiftedReceiver(selfIdent, sig.ident, SelfLiftPanicFmt);
    } else {
      assocFnError := Some(AssocFnErrorMsg);
      var all := CollectParams(sig.inputs, MethodReceiverErrorMsg);
      CollectParamsCollected(sig.inputs, MethodReceiverErrorMsg);
      CollectParamsNamesDistinct(sig.inputs, MethodReceiverErrorMsg);
      params, args := params + ParamsOf(all), args + ArgsOf(all);
      callee := AssociatedFn(selfIdent, sig.ident);
    }

    s := GenFfiFunction(sig, ffiIdent, params, FnCall(assocFnError, callee, args), arguments);
  }
}
