/**
 * The Rust side of the compiler: the deserialised `CompilerOptions` struct,
 * its defaults, and its total conversion into the engine's `EmitOptions`.
 */
module WasmOptions {
  import opened Wrappers
  import TsOptions

  /** The deserialised options: every field has a value. */
  datatype CompilerOptions = CompilerOptions(
    checkJs: bool,
    emitDecoratorMetadata: bool,
    importsNotUsedAsValues: string,
    inlineSourceMap: bool,
    inlineSources: bool,
    jsx: string,
    jsxFactory: string,
    jsxFragmentFactory: string,
    jsxImportSource: Option<string>,
    sourceMap: bool
  )

  /** `CompilerOptions::default()`. */
  function DefaultOptions(): CompilerOptions {
    CompilerOptions(
      checkJs := false,
      emitDecoratorMetadata := false,
      importsNotUsedAsValues := "remove",
      inlineSourceMap := false,
      inlineSources := false,
      jsx := "react",
      jsxFactory := "React.createElement",
      jsxFragmentFactory := "React.Fragment",
      jsxImportSource := None,
      sourceMap := false
    )
  }

  datatype ImportsNotUsedAsValues = Remove | Preserve | Error

  /** The options handed to the opaque parser and emitter. */
  datatype EmitOptions = EmitOptions(
    emitMetadata: bool,
    importsNotUsedAsValues: ImportsNotUsedAsValues,
    inlineSourceMap: bool,
    inlineSources: bool,
    jsxFactory: string,
    jsxFragmentFactory: string,
    transformJsx: bool,
    varDeclImports: bool,
    sourceMap: bool,
    jsxAutomatic: bool,
    jsxDevelopment: bool,
    jsxImportSource: Option<string>
  )

  /**
   * Reading a JavaScript record with missing fields filled in from
   * `DefaultOptions()`, field by field (the struct-level `serde(default)`).
   */
  function FromJsObject(js: TsOptions.CompilerOptions): (o: CompilerOptions)
    ensures o.inlineSourceMap == TsOptions.Truthy(js.inlineSourceMap)
    ensures o.sourceMap == TsOptions.Truthy(js.sourceMap)
    ensures o.inlineSources == TsOptions.Truthy(js.inlineSources)
    ensures o.emitDecoratorMetadata == TsOptions.Truthy(js.emitDecoratorMetadata)
    ensures o.checkJs == TsOptions.Truthy(js.checkJs)
    ensures js.jsx.Some? ==> o.jsx == js.jsx.value
    ensures js.jsx.None? ==> o.jsx == DefaultOptions().jsx
    ensures js.importsNotUsedAsValues.Some? ==> o.importsNotUsedAsValues == js.importsNotUsedAsValues.value
    ensures js.importsNotUsedAsValues.None? ==> o.importsNotUsedAsValues == DefaultOptions().importsNotUsedAsValues
    ensures js.jsxFactory.Some? ==> o.jsxFactory == js.jsxFactory.value
    ensures js.jsxFactory.None? ==> o.jsxFactory == DefaultOptions().jsxFactory
    ensures js.jsxFragmentFactory.Some? ==> o.jsxFragmentFactory == js.jsxFragmentFactory.value
    ensures js.jsxFragmentFactory.None? ==> o.jsxFragmentFactory == DefaultOptions().jsxFragmentFactory
    ensures o.jsxImportSource == js.jsxImportSource
  {
    var d := DefaultOptions();
    CompilerOptions(
      checkJs := js.checkJs.GetOr(d.checkJs),
      emitDecoratorMetadata := js.emitDecoratorMetadata.GetOr(d.emitDecoratorMetadata),
      importsNotUsedAsValues := js.importsNotUsedAsValues.GetOr(d.importsNotUsedAsValues),
      inlineSourceMap := js.inlineSourceMap.GetOr(d.inlineSourceMap),
      inlineSources := js.inlineSources.GetOr(d.inlineSources),
      jsx := js.jsx.GetOr(d.jsx),
      jsxFactory := js.jsxFactory.GetOr(d.jsxFactory),
      jsxFragmentFactory := js.jsxFragmentFactory.GetOr(d.jsxFragmentFactory),
      jsxImportSource := if js.jsxImportSource.Some? then js.jsxImportSource else d.jsxImportSource,
      sourceMap := js.sourceMap.GetOr(d.sourceMap)
    )
  }

  /** The JavaScript record that sets every field to the value it has in `o`. */
  function JsObject(o: CompilerOptions): TsOptions.CompilerOptions {
    TsOptions.CompilerOptions(
      checkJs := Some(o.checkJs),
      emitDecoratorMetadata := Some(o.emitDecoratorMetadata),
      importsNotUsedAsValues := Some(o.importsNotUsedAsValues),
      inlineSourceMap := Some(o.inlineSourceMap),
      inlineSources := Some(o.inlineSources),
      jsx := Some(o.jsx),
      jsxFactory := Some(o.jsxFactory),
      jsxFragmentFactory := Some(o.jsxFragmentFactory),
      jsxImportSource := o.jsxImportSource,
      sourceMap := Some(o.sourceMap)
    )
  }

  /** A record that sets every field reads back unchanged: no default overrides a given field. */
  lemma JsObjectReadsBack(o: CompilerOptions)
    ensures FromJsObject(JsObject(o)) == o
  {
  }

  /** The empty JavaScript object `{}` reads as exactly the default options. */
  lemma EmptyObjectReadsAsDefault()
    ensures FromJsObject(TsOptions.Empty()) == DefaultOptions()
  {
  }

  /** `unwrap_or_default` on the deserialised `Option<CompilerOptions>`. */
  function ResolveOptions(maybe: Option<CompilerOptions>): (o: CompilerOptions)
    ensures maybe.Some? ==> o == maybe.value
    ensures maybe.None? ==> o == DefaultOptions()
  {
    maybe.GetOr(DefaultOptions())
  }

  /** Only the strings "preserve" and "error" select a mode other than `Remove`. */
  function ImportsMode(setting: string): (m: ImportsNotUsedAsValues)
    ensures m == Preserve <==> setting == "preserve"
    ensures m == Error <==> setting == "error"
    ensures m == Remove <==> setting != "preserve" && setting != "error"
  {
    match setting
    case "preserve" => Preserve
    case "error" => Error
    case _ => Remove
  }

  /** The three JSX flags are nested: development implies automatic implies transform. */
  predicate NestedJsxFlags(e: EmitOptions) {
    (e.jsxDevelopment ==> e.jsxAutomatic) && (e.jsxAutomatic ==> e.transformJsx)
  }

  /** What every converted value satisfies. */
  predicate Convertible(e: EmitOptions) {
    NestedJsxFlags(e) && !e.varDeclImports
  }

  /** `From<CompilerOptions> for EmitOptions`. */
  function ToEmitOptions(o: CompilerOptions): (e: EmitOptions)
    ensures Convertible(e)
    ensures e.importsNotUsedAsValues == ImportsMode(o.importsNotUsedAsValues)
    ensures e.emitMetadata == o.emitDecoratorMetadata
    ensures e.inlineSourceMap == o.inlineSourceMap
    ensures e.inlineSources == o.inlineSources
    ensures e.sourceMap == o.sourceMap
    ensures e.jsxFactory == o.jsxFactory
    ensures e.jsxFragmentFactory == o.jsxFragmentFactory
    ensures e.jsxImportSource == o.jsxImportSource
    ensures e.transformJsx <==> o.jsx in {"react", "react-jsx", "react-jsxdev"}
    ensures e.jsxAutomatic <==> o.jsx in {"react-jsx", "react-jsxdev"}
    ensures e.jsxDevelopment <==> o.jsx == "react-jsxdev"
  {
    EmitOptions(
      emitMetadata := o.emitDecoratorMetadata,
      importsNotUsedAsValues := ImportsMode(o.importsNotUsedAsValues),
      inlineSourceMap := o.inlineSourceMap,
      inlineSources := o.inlineSources,
      jsxFactory := o.jsxFactory,
      jsxFragmentFactory := o.jsxFragmentFactory,
      transformJsx := o.jsx == "react" || o.jsx == "react-jsx" || o.jsx == "react-jsxdev",
      varDeclImports := false,
      sourceMap := o.sourceMap,
      jsxAutomatic := o.jsx == "react-jsx" || o.jsx == "react-jsxdev",
      jsxDevelopment := o.jsx == "react-jsxdev",
      jsxImportSource := o.jsxImportSource
    )
  }

  /** `checkJs` never influences the conversion. */
  lemma ConversionIgnoresCheckJs(o: CompilerOptions, checkJs: bool)
    ensures ToEmitOptions(o.(checkJs := checkJs)) == ToEmitOptions(o)
  {
  }

  /** The JSX flags for each of the five documented modes. */
  lemma JsxModes(o: CompilerOptions)
    ensures o.jsx == "react" ==>
              var e := ToEmitOptions(o); e.transformJsx && !e.jsxAutomatic && !e.jsxDevelopment
    ensures o.jsx == "react-jsx" ==>
              var e := ToEmitOptions(o); e.transformJsx && e.jsxAutomatic && !e.jsxDevelopment
    ensures o.jsx == "react-jsxdev" ==>
              var e := ToEmitOptions(o); e.transformJsx && e.jsxAutomatic && e.jsxDevelopment
    ensures o.jsx in {"preserve", "react-native"} ==>
              var e := ToEmitOptions(o); !e.transformJsx && !e.jsxAutomatic && !e.jsxDevelopment
  {
  }

  /** Converting an absent record gives classic JSX transformation and `Remove`. */
  lemma DefaultConversion()
    ensures var e := ToEmitOptions(ResolveOptions(None));
            && e.transformJsx && !e.jsxAutomatic && !e.jsxDevelopment
            && e.importsNotUsedAsValues == Remove
            && !e.inlineSourceMap && !e.sourceMap && !e.inlineSources && !e.emitMetadata
            && e.jsxFactory == "React.createElement" && e.jsxFragmentFactory == "React.Fragment"
            && e.jsxImportSource == None
  {
  }

  /** A `jsx` string that selects the given nested flags. */
  function JsxModeFor(e: EmitOptions): string {
    if e.jsxDevelopment then "react-jsxdev"
    else if e.jsxAutomatic then "react-jsx"
    else if e.transformJsx then "react"
    else "preserve"
  }

  /** An `importsNotUsedAsValues` string that selects the given mode. */
  function ImportsSetting(m: ImportsNotUsedAsValues): string {
    match m
    case Remove => "remove"
    case Preserve => "preserve"
    case Error => "error"
  }

  /** A compiler-options record that converts back to `e`. */
  function Preimage(e: EmitOptions): CompilerOptions {
    CompilerOptions(
      checkJs := false,
      emitDecoratorMetadata := e.emitMetadata,
      importsNotUsedAsValues := ImportsSetting(e.importsNotUsedAsValues),
      inlineSourceMap := e.inlineSourceMap,
      inlineSources := e.inlineSources,
      jsx := JsxModeFor(e),
      jsxFactory := e.jsxFactory,
      jsxFragmentFactory := e.jsxFragmentFactory,
      jsxImportSource := e.jsxImportSource,
      sourceMap := e.sourceMap
    )
  }

  lemma PreimageConverts(e: EmitOptions)
    requires Convertible(e)
    ensures ToEmitOptions(Preimage(e)) == e
  {
  }

  /**
   * The conversion reaches exactly the emit options whose JSX flags are
   * nested and whose `varDeclImports` is off.
   */
  lemma ConversionImage(e: EmitOptions)
    ensures (exists o :: ToEmitOptions(o) == e) <==> Convertible(e)
  {
    if Convertible(e) {
      PreimageConverts(e);
    }
  }
}
