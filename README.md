# tracelog-rs interceptor, modelled in Dafny

tracelog-rs wraps a tonic/tower gRPC service in an `InterceptedService`. The
wrapper is built with `intercept(inner, options)` and extended with
`.with(fun)`. On each `call` it does five things:

1. It inserts a `u32` marker (32) into the request's extensions.
2. It runs the registered `fn(Request) -> Request` mutators in registration order.
3. It parses the gRPC path `/Service/Method` of the resulting request into an `Info { service, method }`.
4. It forwards that request to the inner service.
5. It logs the identity with the elapsed time and returns the inner result unchanged.

`poll_ready` is forwarded verbatim. `Options` carries the trace header name
(default `x-trace-id`) and an inert `verbose_name` flag (default `false`).

Modules, one concern each:

- `Config` (config.dfy): `Options`, `Header` and their defaults (src/options.rs).
- `Http` (http.dfy): the slice of a hyper request the code touches. That is the path, a header map of byte values with `to_str`, and the `u32` extension slot.
- `Paths` (paths.dfy): `parse_path`, `to_simple_service_name`, and the `strip_prefix`/`splitn`/`rsplitn` calls they make.
- `Trace` (trace.dfy): `extract`, and the fallback behaviour it evidently intends.
- `Interceptor` (interceptor.dfy): the pipeline as a left fold. It also holds the `InterceptedService` class, whose `With` appends to a `funcs` sequence, and whose `Call` runs the mutator loop with an invariant and dispatches.
- `Wrappers` (wrappers.dfy): `Option` and `Outcome` (a value, or a panic).

Behaviours of the code a reader might not expect:

- The logged identity is parsed from the path after the mutators have run: `req` is reassigned by the loop at src/lib.rs:76 and read at src/lib.rs:84. `IdentityFromCallerPath` shows it is the identity of the caller's path when no mutator rewrites the path.
- The path `/` parses to two empty names; only a path without a leading `/` panics, at the `unwrap` of src/lib.rs:125.
- `extract` is never called, because the call at src/lib.rs:87 is commented out, so `call` neither resolves nor logs a trace id.
- `extract` panics on a header value that is not text instead of falling back: the `unwrap` at src/lib.rs:155, which the TODO at src/lib.rs:151 calls dangerous. See Findings.

## Model

| member | source | states |
|---|---|---|
| Config.DefaultHeader | src/options.rs:11-14 | the default trace header is exactly `x-trace-id` |
| Config.DefaultOptions | src/options.rs:1-5 | the derived default delegates field by field: header is `Header::default()`, `verbose_name` is false |
| Config.CloneOptions | src/options.rs:1-8 | a clone is field-for-field equal to the original |
| Http.ToStr | src/lib.rs:155 | a header value reads as text exactly when every byte is visible ASCII or a tab, and the text has the same characters as the bytes |
| Http.ToStrFromText | src/lib.rs:155 | text stored in a header value reads back as the same text |
| Http.FromTextToStr | src/lib.rs:155 | a header value that reads as text is the value built from that text |
| Paths.StripPrefix | src/lib.rs:125 | succeeds exactly when the path starts with the prefix, and the path is prefix + rest |
| Paths.SplitOnce | src/lib.rs:125 | `splitn(2, '/')` gives one part (the whole text) exactly when there is no `/`, else a `/`-free head and a tail that rejoin to the input |
| Paths.RSplitOnce | src/lib.rs:140 | `rsplitn(2, '.')` gives one part exactly when there is no `.`, else a `.`-free last segment and the text before it, which rejoin to the input |
| Paths.ParsePath | src/lib.rs:124-136 | defined when the unwrap succeeds; the service has no `/`; with a second `/` the path is `/service/method`, otherwise the service is the rest and the method empty |
| Paths.ParsePathDefinedIff | src/lib.rs:125 | the unwrap in `parse_path` fails exactly when the path does not start with `/` |
| Paths.FormatPath | src/lib.rs:124-136 | the path `/service/method` that addresses an identity always has the leading `/` the parser requires |
| Paths.ParseSplitRule | src/lib.rs:125-135 | `/s/m` with `/`-free `s` parses to service `s`, method `m`, even when `m` contains `/` |
| Paths.ParseFormatRoundTrip | src/lib.rs:124-136 | parsing the formatted path of an identity with a `/`-free service gives the identity back |
| Paths.FormatParseRoundTrip | src/lib.rs:132-135 | a path with a second `/` is rebuilt exactly from its parsed identity |
| Paths.ParseSingleSegment | src/lib.rs:125-131 | `/s` with `/`-free `s` parses to service `s` and an empty method |
| Paths.ParseRoot | src/lib.rs:125-131 | `/` parses to two empty names without panicking |
| Paths.ToSimpleServiceName | src/lib.rs:139-146 | the result is a `.`-free suffix of the name; it is the whole name when there is no `.`, else the name is some prefix + `.` + result |
| Trace.Extract | src/lib.rs:150-157 | absent header gives the generated id; a present header gives its text, or panics when the value is not text |
| Trace.ExtractEchoesHeader | src/lib.rs:153-155 | a trace id the caller sets as header text is returned unchanged |
| Trace.ExtractPanicsOnNonText | src/lib.rs:153-156 | a trace header holding the byte 0x80 makes `extract` panic |
| Trace.ResolveTraceId | src/lib.rs:150-157 | corrected resolution: the header's text when readable, otherwise the generated id; never panics |
| Trace.ResolveAgreesWithExtract | src/lib.rs:153-156 | the corrected resolution returns what `extract` returns whenever `extract` does not panic |
| Interceptor.Tag | src/lib.rs:70-72 | the request entering the mutators carries the marker 32 and the caller's path and headers |
| Interceptor.Dispatched | src/lib.rs:70-77 | the dispatched request is the tagged request run through each mutator on the previous output, first to last: none gives the tagged request, otherwise the last mutator is applied to the output of all earlier ones |
| Interceptor.PipelineConcat | src/lib.rs:75-77 | running two mutator lists back to back equals running their concatenation |
| Interceptor.PipelineSnoc | src/lib.rs:37-40 | a mutator appended last runs on the output of all the earlier ones |
| Interceptor.PipelineInOrder | src/lib.rs:75-77 | no mutators leave the request as it was; `[m1, m2, m3]` yields `m3(m2(m1(req)))` |
| Interceptor.PipelineKeepsPath | src/lib.rs:75-77 | mutators that each keep the path keep it together |
| Interceptor.InterceptedService.constructor | src/lib.rs:18-24 | `intercept` stores the inner service and options unchanged, with no mutators |
| Interceptor.InterceptedService.With | src/lib.rs:37-40 | `funcs` becomes the old list plus the new mutator; inner and options are unchanged; the same decorator is returned; the dispatched request is the new mutator applied to the old one |
| Interceptor.InterceptedService.PollReady | src/lib.rs:56-58 | readiness is the inner service's answer, verbatim |
| Interceptor.InterceptedService.Call | src/lib.rs:61-116 | the result is exactly the inner service's result for the tagged, mutated request, on the `Ok` and the `Err` path; the logged identity is `parse_path` of the mutated path |
| Interceptor.IdentityFromCallerPath | src/lib.rs:75-84 | when no mutator rewrites the path, the logged identity is that of the caller's path |

## Left out

- Async execution: `BoxFuture`, `Box::pin(async move …)` and `.await`. `Call` is a synchronous composition, and the inner service is a pair of total functions (`call`, `pollReady`).
- State inside the inner service: `call` and `poll_ready` take `&mut self` in the source. The model's inner service answers as a function of its inputs only.
- Timing: `Instant::now()` and the `Debug` rendering of the duration. These are wall-clock values.
- Logging: the `event!` emission and the commented-out span code. `Call` returns the identity it would log instead.
- Random ids: `Uuid::new_v4()` is replaced by a `generated` parameter.
- Header-name normalisation and the rest of hyper's request: header names are plain map keys, and the extension map is reduced to its `u32` slot.
- `NamedService::NAME` passthrough: a compile-time constant with no behaviour.
- The `verbose_name` branch in `call`: its body is empty.
- The derived `Clone` and `Debug` of `InterceptedService` (src/lib.rs:29): the model has no operation that copies or prints a decorator.
- The per-call `self.inner.clone()` (src/lib.rs:62): the inner service is a value in the model, so `Call` copies it into a local (`var svc := inner`) and no sharing of an underlying resource arises.
- Header values are any byte sequence, including control bytes other than tab and 127, which hyper never stores in a header value; `ToStr` rejects those bytes, so what `extract` returns is unaffected.
- info.rs, where `Info` is declared, is not part of this model. `Info` is taken to be the pair of its two strings.
- Interceptor.InterceptedService.Call: requires a leading `/` on the mutated path rather than modelling the panic of `parse_path` when a mutator (or an authority-form URI) leaves none.

## Findings

| source | as written | input that shows it | evidently intended | confidence | as-written member | corrected member |
|---|---|---|---|---|---|---|
| src/lib.rs:153-156 | a trace header that is present but not valid text reaches `to_str().unwrap()` and panics | header `x-trace-id` holding the single byte 0x80 | fall back to a generated id, as for an absent header (the TODO at src/lib.rs:151 calls the operation dangerous) | medium, not executed | Trace.ExtractPanicsOnNonText | Trace.ResolveTraceId |
