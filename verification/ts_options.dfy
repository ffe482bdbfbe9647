/**
 * The `CompilerOptions` record accepted by the TypeScript facade: a flat
 * record in which every field may be left out.
 */
module TsOptions {
  import opened Wrappers

  datatype CompilerOptions = CompilerOptions(
    checkJs: Option<bool>,
    emitDecoratorMetadata: Option<bool>,
    importsNotUsedAsValues: Option<string>,
    inlineSourceMap: Option<bool>,
    inlineSources: Option<bool>,
    jsx: Option<string>,
    jsxFactory: Option<string>,
    jsxFragmentFactory: Option<string>,
    jsxImportSource: Option<string>,
    sourceMap: Option<bool>
  )

  /** The empty object literal `{}`: no field is set. */
  function Empty(): CompilerOptions {
    CompilerOptions(None, None, None, None, None, None, None, None, None, None)
  }

  /** JavaScript truthiness of an optional boolean field: only a present `true` is truthy. */
  predicate Truthy(b: Option<bool>) {
    b == Some(true)
  }

  /** `inlineSourceMap` and `sourceMap` are never both set. */
  predicate SourceMapsExclusive(o: CompilerOptions) {
    !(Truthy(o.inlineSourceMap) && Truthy(o.sourceMap))
  }

  /** `inlineSources` is only set together with one of the two source-map options. */
  predicate InlineSourcesSupported(o: CompilerOptions) {
    Truthy(o.inlineSources) ==> Truthy(o.inlineSourceMap) || Truthy(o.sourceMap)
  }

  /** The two rules a record must obey before it may reach the compiler engine. */
  predicate Admissible(o: CompilerOptions) {
    SourceMapsExclusive(o) && InlineSourcesSupported(o)
  }
}
