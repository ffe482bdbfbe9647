/**
 * `checkCompilerOptions`: the total, side-effect-free check the facade runs
 * before the compiler engine is obtained. It either accepts the record or
 * rejects it with the message of the error it would throw.
 */
module OptionsValidator {
  import opened Wrappers
  import opened TsOptions

  const SourceMapConflictMessage: string :=
    "Option 'sourceMap' cannot be specified with option 'inlineSourceMap'"

  const InlineSourcesMessage: string :=
    "Option 'inlineSources' can only be used when either option 'inlineSourceMap' or option 'sourceMap' is provided"

  datatype Verdict = Valid | Invalid(message: string)

  /**
   * The conflict between the two source-map options is reported before the
   * unmet dependency of `inlineSources`; an absent record is accepted.
   */
  function CheckCompilerOptions(options: Option<CompilerOptions>): (v: Verdict)
    ensures options.None? ==> v == Valid
    ensures options.Some? ==> (v == Valid <==> Admissible(options.value))
    ensures options.Some? && !SourceMapsExclusive(options.value) ==>
              v == Invalid(SourceMapConflictMessage)
    ensures options.Some? && SourceMapsExclusive(options.value) && !InlineSourcesSupported(options.value) ==>
              v == Invalid(InlineSourcesMessage)
  {
    match options
    case None => Valid
    case Some(o) =>
      if Truthy(o.inlineSourceMap) && Truthy(o.sourceMap) then
        Invalid(SourceMapConflictMessage)
      else if Truthy(o.inlineSources) && !(Truthy(o.inlineSourceMap) || Truthy(o.sourceMap)) then
        Invalid(InlineSourcesMessage)
      else
        Valid
  }

  /** Two records whose three source-map fields agree in truthiness get the same verdict. */
  lemma VerdictIgnoresOtherFields(a: CompilerOptions, b: CompilerOptions)
    requires Truthy(a.inlineSourceMap) == Truthy(b.inlineSourceMap)
    requires Truthy(a.sourceMap) == Truthy(b.sourceMap)
    requires Truthy(a.inlineSources) == Truthy(b.inlineSources)
    ensures CheckCompilerOptions(Some(a)) == CheckCompilerOptions(Some(b))
  {
  }

  /** Only the two messages of the source are ever produced. */
  lemma RejectionMessages(options: Option<CompilerOptions>)
    ensures CheckCompilerOptions(options).Invalid? ==>
              CheckCompilerOptions(options).message in {SourceMapConflictMessage, InlineSourcesMessage}
  {
  }

  /** The default record `{}` passes, and so does either source map combined with `inlineSources`. */
  lemma AcceptedExamples()
    ensures CheckCompilerOptions(Some(Empty())) == Valid
    ensures CheckCompilerOptions(Some(Empty().(inlineSourceMap := Some(true), inlineSources := Some(true)))) == Valid
    ensures CheckCompilerOptions(Some(Empty().(sourceMap := Some(true), inlineSources := Some(true)))) == Valid
  {
  }

  /** The two rejecting scenarios: both source maps, and `inlineSources` alone. */
  lemma RejectedExamples()
    ensures CheckCompilerOptions(Some(Empty().(sourceMap := Some(true), inlineSourceMap := Some(true))))
              == Invalid(SourceMapConflictMessage)
    ensures CheckCompilerOptions(Some(Empty().(inlineSources := Some(true)))) == Invalid(InlineSourcesMessage)
    ensures CheckCompilerOptions(Some(Empty().(inlineSources := Some(true), inlineSourceMap := Some(false),
                                               sourceMap := Some(false)))) == Invalid(InlineSourcesMessage)
  {
  }
}
