# TypeScript transpiler options: validation, defaulting and conversion

This project models the logic around an opaque TypeScript-to-JavaScript compiler engine (deno_ast/deno_graph compiled to WebAssembly). That logic decides which compiler-option records reach the engine and what the engine is told:

- **The TypeScript facade** (`mod.ts`). `checkCompilerOptions` rejects a record in two cases: `inlineSourceMap` and `sourceMap` are both set, or `inlineSources` is set without either of them. Each rejection carries an exact error message. `transpile(content, compilerOptions = {})` runs this check before it instantiates the engine. It then passes the source text and the record to the engine and returns the engine's text unchanged.
- **The WebAssembly entry point** (`deno_emit/wasm/src/lib.rs`). A missing field of the deserialised record takes its value from `CompilerOptions::default()`, and an absent record becomes the default record (`unwrap_or_default`). The record is then converted to `EmitOptions`. In that conversion, `importsNotUsedAsValues` becomes a three-way enum, `jsx` becomes three nested flags, `checkJs` is dropped and `varDeclImports` is always false.

Modules:

- `Wrappers` (`wrappers.dfy`): `Option`, `Result` and `Outcome`.
- `TsOptions` (`ts_options.dfy`): the TypeScript `CompilerOptions` record, with every field optional. It also defines JavaScript truthiness of a boolean field and the two rules, `Admissible`.
- `OptionsValidator` (`validator.dfy`): `checkCompilerOptions` as a function that returns `Valid` or `Invalid(message)`.
- `WasmOptions` (`wasm_options.dfy`): the Rust `CompilerOptions` struct and its defaults, the field-wise default fill on deserialisation, `unwrap_or_default`, and `From<CompilerOptions> for EmitOptions`.
- `TranspileFacade` (`facade.dfy`): the `transpile` call order and the lemmas that connect the two files.

The facade is a method. It takes the outcome of `instantiate()` and the opaque parse-and-emit step as parameters. Besides the result, it returns the sequence of engine events it caused (`Instantiate`, then `Emit(source, emitOptions)`). This lets the contract say that a rejected record leaves the engine untouched. It also says that every emit options value the engine receives satisfies the two source-map rules.

Modelling choices:

- `mod.ts` awaits `instantiate()` on every call (mod.ts:51). `emit.generated.js` is not part of this model, so only the outcome of one call is a parameter.
- `checkCompilerOptions` throws a plain `Error` whose only content is its message (mod.ts:63-73). The model carries that exact message.
- The facade defaults its argument to `{}`. As a result, the validator's own `undefined` branch and the Rust side's `unwrap_or_default` are never reached through the facade. Both are still modelled for direct callers.
- The TypeScript `jsx` field is typed as a union of five strings, but no code checks it. The Rust side accepts any string, so the model takes `jsx` as an arbitrary string.

## Model

| member | source | states |
|---|---|---|
| OptionsValidator.CheckCompilerOptions | mod.ts:56-75 | An absent record is accepted. A present record is accepted exactly when it obeys both rules (`Admissible`). Both source maps together are rejected with the conflict message, checked first. `inlineSources` without a source map is otherwise rejected with the dependency message. |
| OptionsValidator.VerdictIgnoresOtherFields | mod.ts:56-75 | The verdict depends only on the truthiness of `inlineSourceMap`, `sourceMap` and `inlineSources`. `checkJs`, the JSX fields, `emitDecoratorMetadata` and `importsNotUsedAsValues` never change it. |
| OptionsValidator.RejectionMessages | mod.ts:62-74 | Every rejection carries one of the two exact messages of the source. |
| OptionsValidator.AcceptedExamples | mod.ts:62-74 | `{}`, `{inlineSourceMap: true, inlineSources: true}` and `{sourceMap: true, inlineSources: true}` all pass. |
| OptionsValidator.RejectedExamples | mod.ts:62-74 | Both source maps together fail with the conflict message. `inlineSources` alone, or with both source maps false, fails with the dependency message. |
| WasmOptions.FromJsObject | deno_emit/wasm/src/lib.rs:21-35 | A field given in the JavaScript record is kept. A missing field takes the value of the default record. A boolean field becomes exactly its JavaScript truthiness. |
| WasmOptions.JsObjectReadsBack | deno_emit/wasm/src/lib.rs:21-22 | A JavaScript record that gives every field reads back as exactly the Rust record it was built from: defaults fill only missing fields. |
| WasmOptions.EmptyObjectReadsAsDefault | deno_emit/wasm/src/lib.rs:37-52 | The empty object `{}` reads as exactly `CompilerOptions::default()`. |
| WasmOptions.ResolveOptions | deno_emit/wasm/src/lib.rs:87-91 | A present record is used as is. An absent one is replaced by the default record. |
| WasmOptions.ImportsMode | deno_emit/wasm/src/lib.rs:56-61 | `"preserve"` gives `Preserve` and `"error"` gives `Error`, each in both directions. Every other string, `"remove"` included, gives `Remove`. |
| WasmOptions.ToEmitOptions | deno_emit/wasm/src/lib.rs:54-78 | The JSX flags of the result are nested and `varDeclImports` is off. The metadata, source-map and JSX factory/import-source fields pass through. `transformJsx`, `jsxAutomatic` and `jsxDevelopment` hold exactly for their sets of `jsx` strings. |
| WasmOptions.ConversionIgnoresCheckJs | deno_emit/wasm/src/lib.rs:54-77 | Changing `checkJs` never changes the converted options. |
| WasmOptions.JsxModes | deno_emit/wasm/src/lib.rs:70-74 | The flag triples are: `"react"` transform only; `"react-jsx"` transform and automatic; `"react-jsxdev"` all three; `"preserve"` and `"react-native"` none. |
| WasmOptions.DefaultConversion | deno_emit/wasm/src/lib.rs:87-93 | An absent record converts to classic JSX transformation (`transformJsx` on, automatic and development off), `Remove`, no source maps, no metadata, and the `React.createElement`/`React.Fragment` factories with no import source. |
| WasmOptions.PreimageConverts | deno_emit/wasm/src/lib.rs:54-77 | Every emit options value with nested JSX flags and `varDeclImports` off is the conversion of some compiler-options record. |
| WasmOptions.ConversionImage | deno_emit/wasm/src/lib.rs:54-77 | The conversion reaches exactly the emit options with nested JSX flags and `varDeclImports` off, in both directions. |
| TranspileFacade.ValidatedOptionsAreConsistent | mod.ts:50-52 | A record that passes validation reaches the engine with `inlineSourceMap` and `sourceMap` not both on, and with `inlineSources` only alongside one of them. |
| TranspileFacade.ValidationMatchesEngineConsistency | mod.ts:62-74 | Validation accepts a record if and only if the emit options the engine would derive from it have `inlineSourceMap` and `sourceMap` not both on, and `inlineSources` only alongside one of them. |
| TranspileFacade.ValidatedImage | mod.ts:50-52 | Through validation and conversion, the engine can receive exactly the emit options that are convertible and source-map consistent. |
| TranspileFacade.Transpile | mod.ts:46-53 | A missing record is replaced by `{}`. On rejection, the validator's message is returned and no engine event occurs. If instantiation fails, only `Instantiate` occurs. Otherwise `Instantiate` is followed by exactly one emit of the source with that record's converted options, and the engine's result is returned unchanged. Every emitted options value is consistent. |

## Left out

- Parsing and emission (`DefaultModuleParser::parse_module`, `ParsedSource::transpile`, the fixed `file:///tmp.ts` specifier) belong to the external compiler engine. They are a function parameter of the facade, not modelled behaviour.
- Deserialisation failures and the conversion of Rust errors into JavaScript `Error` values are foreign-library glue. Only a successful read of a well-typed record is modelled, by `WasmOptions.FromJsObject`.
- `instantiate()` from the generated `emit.generated.js` is not part of this model. Its outcome for one call is a parameter, and nothing is claimed about memoisation or once-only initialisation.
- Promises and `await` are not modelled: `transpile` is a sequential validate-instantiate-call.
- Run-time JavaScript values of the wrong type in a boolean field, such as a non-empty string, are not modelled. The model follows the declared interface, where a boolean field is absent, `true` or `false`.
- `deno_emit/rs-lib/src/lib.rs` (`transpile_isolated`) only forwards to the same external parser and emitter. It has no option logic of its own.
- `postbuild.ts` is a packaging step that rewrites a generated file on disk.
