/**
 * The `transpile` facade: validate the options, obtain the engine, and hand
 * it the source and the options. The engine's one-time instantiation is
 * given as its outcome, and the opaque parser/emitter as a function of the
 * source text and the converted emit options; the facade reports the engine
 * events it caused in order.
 */
module TranspileFacade {
  import opened Wrappers
  import TsOptions
  import opened OptionsValidator
  import WasmOptions

  /** One interaction with the compiler engine. */
  datatype EngineEvent =
    | Instantiate
    | Emit(source: string, options: WasmOptions.EmitOptions)

  datatype TranspileError =
    | OptionsRejected(message: string)
    | InstantiationFailed(message: string)
    | EngineFailed(message: string)

  /** The emit options the engine derives from a record the facade passes on. */
  function EngineOptions(js: TsOptions.CompilerOptions): WasmOptions.EmitOptions {
    WasmOptions.ToEmitOptions(WasmOptions.ResolveOptions(Some(WasmOptions.FromJsObject(js))))
  }

  /** The two source-map rules, stated on the engine's side. */
  predicate SourceMapConsistent(e: WasmOptions.EmitOptions) {
    && !(e.inlineSourceMap && e.sourceMap)
    && (e.inlineSources ==> e.inlineSourceMap || e.sourceMap)
  }

  /** A record that passes validation reaches the engine as consistent emit options. */
  lemma ValidatedOptionsAreConsistent(js: TsOptions.CompilerOptions)
    requires CheckCompilerOptions(Some(js)) == Valid
    ensures SourceMapConsistent(EngineOptions(js))
    ensures WasmOptions.Convertible(EngineOptions(js))
  {
  }

  /** Validation accepts a record exactly when the engine would receive it as consistent emit options. */
  lemma ValidationMatchesEngineConsistency(js: TsOptions.CompilerOptions)
    ensures CheckCompilerOptions(Some(js)) == Valid <==> SourceMapConsistent(EngineOptions(js))
  {
  }

  /**
   * The engine can receive, through validation and conversion, exactly the
   * emit options that are convertible and source-map consistent.
   */
  lemma ValidatedImage(e: WasmOptions.EmitOptions)
    ensures (exists js :: CheckCompilerOptions(Some(js)) == Valid && EngineOptions(js) == e)
            <==> WasmOptions.Convertible(e) && SourceMapConsistent(e)
  {
    if WasmOptions.Convertible(e) && SourceMapConsistent(e) {
      var js := WasmOptions.JsObject(WasmOptions.Preimage(e));
      WasmOptions.JsObjectReadsBack(WasmOptions.Preimage(e));
      WasmOptions.PreimageConverts(e);
      assert CheckCompilerOptions(Some(js)) == Valid && EngineOptions(js) == e;
    }
  }

  /**
   * `transpile(content, compilerOptions = {})`: validation comes first and a
   * rejection leaves the engine untouched; only then is the engine
   * instantiated and called, and its result is returned unchanged.
   */
  method Transpile(
    content: string,
    compilerOptions: Option<TsOptions.CompilerOptions>,
    instantiation: Outcome<string>,
    emit: (string, WasmOptions.EmitOptions) -> Result<string, string>
  ) returns (r: Result<string, TranspileError>, events: seq<EngineEvent>)
    ensures var js := compilerOptions.GetOr(TsOptions.Empty());
            && (CheckCompilerOptions(Some(js)).Invalid? ==>
                  r == Failure(OptionsRejected(CheckCompilerOptions(Some(js)).message)) && events == [])
            && (CheckCompilerOptions(Some(js)) == Valid && instantiation.Fail? ==>
                  r == Failure(InstantiationFailed(instantiation.error)) && events == [Instantiate])
            && (CheckCompilerOptions(Some(js)) == Valid && instantiation.Pass? ==>
                  && events == [Instantiate, Emit(content, EngineOptions(js))]
                  && (emit(content, EngineOptions(js)).Success? ==>
                        r == Success(emit(content, EngineOptions(js)).value))
                  && (emit(content, EngineOptions(js)).Failure? ==>
                        r == Failure(EngineFailed(emit(content, EngineOptions(js)).error))))
    ensures r.Failure? && r.error.OptionsRejected? ==> events == []
    ensures r.Success? ==> CheckCompilerOptions(compilerOptions) == Valid
    ensures forall i :: 0 <= i < |events| && events[i].Emit? ==>
              events[i].source == content
              && SourceMapConsistent(events[i].options) && WasmOptions.Convertible(events[i].options)
  {
    var js := compilerOptions.GetOr(TsOptions.Empty());
    var verdict := CheckCompilerOptions(Some(js));
    if verdict.Invalid? {
      return Failure(OptionsRejected(verdict.message)), [];
    }
    events := [Instantiate];
    if instantiation.Fail? {
      return Failure(InstantiationFailed(instantiation.error)), events;
    }
    var options := EngineOptions(js);
    ValidatedOptionsAreConsistent(js);
    events := events + [Emit(content, options)];
    var output := emit(content, options);
    match output
    case Success(text) => r := Success(text);
    case Failure(message) => r := Failure(EngineFailed(message));
  }
}
