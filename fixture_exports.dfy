/**
 * The planner applied to exports of the futures fixture: the async method
 * `Megaphone::say_after(self: Arc<Self>, secs: u8, who: String) -> String` and the free
 * function `say_after_with_tokio`, exported with `async_runtime = "tokio"`.
 */
module FixtureExports {
  import opened Wrappers
  import opened Scaffolding

  const SayAfterInputs := [
    Typed(PatIdent("secs"), Ty("u8")),
    Typed(PatIdent("who"), Ty("String"))]

  const MegaphoneSayAfterSig := Signature(
    "say_after",
    [Typed(PatIdent("self"), Ty("Arc<Self>"))] + SayAfterInputs,
    Some(FunctionReturn(Ty("String"), None)),
    true)

  const SayAfterWithTokioSig := Signature(
    "say_after_with_tokio",
    SayAfterInputs,
    Some(FunctionReturn(Ty("String"), None)),
    true)

  /** The `self: Arc<Self>` receiver becomes `this`; `secs` and `who` become arg0 and arg1; a future with `_poll`/`_drop`. */
  method MegaphoneSayAfterScaffolding(modPath: seq<string>, checksum: u16, symbolName: SymbolName)
    returns (s: Expansion)
    ensures s.entry.ident == symbolName(modPath, "impl_Megaphone_say_after", checksum)
    ensures s.entry.params == [ThisParam("Megaphone"), FfiParam("arg0", Ty("u8")), FfiParam("arg1", Ty("String"))]
    ensures s.entry.call == FnCall(None, OnLiftedReceiver("Megaphone", "say_after", SelfLiftPanicFmt), [
              Lifted("arg0", Ty("u8"), "Failed to convert arg 'secs': {}"),
              Lifted("arg1", Ty("String"), "Failed to convert arg 'who': {}")])
    ensures s.entry.returnExpr == FutureHandle(Ty("String"), InfallibleTy)
    ensures s.entry.body == SpawnFuture(New, true)
    ensures |s.extraFunctions| == 2 && s.argumentError == None
  {
    var sig := MegaphoneSayAfterSig;
    assert "impl_" + "Megaphone" + "_" + sig.ident == "impl_Megaphone_say_after";
    assert IsReceiver(sig.inputs[0]) && sig.inputs[1..] == SayAfterInputs;
    assert !IsReceiver(SayAfterInputs[0]) && !IsReceiver(SayAfterInputs[1]);
    assert ArgName(0) == "arg0" && ArgName(1) == "arg1";
    assert PanicFormat(0, PatIdent("secs")) == "Failed to convert arg 'secs': {}";
    assert PanicFormat(1, PatIdent("who")) == "Failed to convert arg 'who': {}";
    s := GenMethodScaffolding(sig, modPath, checksum, "Megaphone", ExportAttributeArguments(None), symbolName);
    var params, args := s.entry.params[1..], s.entry.call.args;
    assert Collected(params, args, SayAfterInputs, MethodReceiverErrorMsg);
    assert params[0] == FfiParam("arg0", Ty("u8")) && params[1] == FfiParam("arg1", Ty("String"));
    assert s.entry.params == [s.entry.params[0]] + params;
  }

  /** The Tokio directive on an async function selects `new_tokio` and raises no error. */
  method SayAfterWithTokioScaffolding(modPath: seq<string>, checksum: u16, symbolName: SymbolName)
    returns (s: Expansion)
    ensures s.entry.body == SpawnFuture(NewTokio, true)
    ensures s.argumentError == None
    ensures |s.extraFunctions| == 2
    ensures [s.extraFunctions[0].ident, s.extraFunctions[1].ident] ==
            [symbolName(modPath, "say_after_with_tokio", checksum) + "_poll",
             symbolName(modPath, "say_after_with_tokio", checksum) + "_drop"]
  {
    s := GenFnScaffolding(SayAfterWithTokioSig, modPath, checksum,
                          ExportAttributeArguments(Some(Tokio)), symbolName);
  }
}
