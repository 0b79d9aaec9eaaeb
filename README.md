# Streamdata.io patch transformer, in Dafny

This project models `PatchTransformer`, the one piece of logic in the
Streamdata.io Spring WebFlux sample. The transformer turns a stream of
Server-Sent Events carrying JSON payloads into a stream of reconstructed JSON
documents. It works in two stages:

* **Classifier** (`classifier.dfy`, module `Classifier`). Two filters drop
  every event that has no data payload. They also drop every event whose
  type is absent or is not exactly `"data"`, `"patch"` or `"error"`.
* **Reconstructor** (`reconstructor.dfy`, module `Reconstruction`). This is
  the stateful mapping function. It is a class `Reconstructor` with one
  mutable field, `current`, which starts absent. Its `Apply` method does one
  transition:
  * `data` replaces `current` with the payload;
  * `patch` applies the payload as a JSON Patch to `current`;
  * `error` fails the stream;
  * any other tag fails with "Unknown type".

  Each successful step returns the new `current`. `Step` is the same
  transition written as a function, and `Apply` is proved equal to it.

`pipeline.dfy` (module `PatchTransformer`) joins the two stages:

* `Reconstruct` is a fold over a finite event sequence that stops at the
  first failure.
* `Run` is one subscription: the filters, then the fold.
* `Transform` is the same subscription done step by step. It drives one
  `Reconstructor` object over the events and is proved equal to `Run`.

The lemmas say what a subscriber can rely on:

* ineligible events have no effect;
* the defensive branches cannot be reached after filtering;
* `data` replaces the document and `patch` is applied to the last document
  emitted;
* `error` ends the stream with its payload;
* output order follows input order, and nothing is processed after a
  failure.

`sse.dfy` holds the event and JSON types. `wrappers.dfy` holds `Option` and
`Result`.

Patch application comes from the zjsonpatch library, which is not part of
this model. It is a parameter, `apply: Patcher`, a total function from a
patch and a base document that may be absent to a patched document or an
error message. Every result holds for every such function.

Two behaviours of the code are worth spelling out:

* **A patch that arrives before any `data` event.** `current` is still null
  and is passed to `JsonPatch.apply` as it is. The code has no separate
  error for this case. `RunPatchFirst` states that the outcome is
  `apply(p, None)`.
* **State shared between subscriptions.** The mapping-function object is
  created once per call of `PatchTransformer.apply`. So two subscriptions to
  the same transformed stream share `current`. The model covers a single
  subscription.

`Step` also models the branches that filtering makes unreachable, as the
code has them:

* an absent type or payload (`Optional.get()` throws);
* an `error` event without a payload, which falls through to
  `return current` (a null `current` there is refused by Reactor's `map`);
* the "Unknown type" default.

`EligibleStepExpected` and `RunFailsOnlyAsExpected` show that these branches
are dead after the filters.

## Model

| member | source | states |
|---|---|---|
| Classifier.HasData | src/main/java/io/streamdata/samples/springwebflux/StreamdataioSpringWebfluxApplication.java:94 | the first filter passes an event iff its data payload is present |
| Classifier.HasKnownType | src/main/java/io/streamdata/samples/springwebflux/StreamdataioSpringWebfluxApplication.java:95-99 | the second filter passes an event iff its type is present and exactly one of "data", "patch", "error" |
| Classifier.Eligible | src/main/java/io/streamdata/samples/springwebflux/StreamdataioSpringWebfluxApplication.java:94-99 | an event reaches the mapping function iff it has a payload and a type in the three-value whitelist |
| Classifier.Filter | src/main/java/io/streamdata/samples/springwebflux/StreamdataioSpringWebfluxApplication.java:94-99 | a filter stage keeps exactly the events that satisfy its predicate and never adds any |
| Classifier.FilterAppend | src/main/java/io/streamdata/samples/springwebflux/StreamdataioSpringWebfluxApplication.java:94-99 | filtering is per event: the filter of a concatenation is the concatenation of the filters |
| Classifier.Classify | src/main/java/io/streamdata/samples/springwebflux/StreamdataioSpringWebfluxApplication.java:94-99 | the two filters forward an event iff it has a data payload and a present type among data/patch/error |
| Classifier.ClassifyKeepsEligible | src/main/java/io/streamdata/samples/springwebflux/StreamdataioSpringWebfluxApplication.java:94-99 | the two filters in sequence equal one order-preserving filter on eligibility |
| Classifier.ClassifySingle | src/main/java/io/streamdata/samples/springwebflux/StreamdataioSpringWebfluxApplication.java:94-99 | a lone event is forwarded iff it is eligible |
| Classifier.ClassifyAppend | src/main/java/io/streamdata/samples/springwebflux/StreamdataioSpringWebfluxApplication.java:94-99 | classification distributes over concatenation |
| Classifier.ClassifyCons | src/main/java/io/streamdata/samples/springwebflux/StreamdataioSpringWebfluxApplication.java:94-99 | the first event is forwarded ahead of the rest's forwarded events iff it is eligible |
| Classifier.ClassifySplit | src/main/java/io/streamdata/samples/springwebflux/StreamdataioSpringWebfluxApplication.java:94-99 | an ineligible event is dropped wherever it occurs; an eligible one is forwarded in its place |
| Reconstruction.Step | src/main/java/io/streamdata/samples/springwebflux/StreamdataioSpringWebfluxApplication.java:104-127 | a failing transition leaves current unchanged; a successful one emits exactly the new current |
| Reconstruction.Reconstructor.constructor | src/main/java/io/streamdata/samples/springwebflux/StreamdataioSpringWebfluxApplication.java:100-101 | the mapping function starts with current absent |
| Reconstruction.Reconstructor.Apply | src/main/java/io/streamdata/samples/springwebflux/StreamdataioSpringWebfluxApplication.java:104-127 | one call updates current and returns the outcome as Step does; failure keeps current, success returns the new current |
| Reconstruction.EligibleStepExpected | src/main/java/io/streamdata/samples/springwebflux/StreamdataioSpringWebfluxApplication.java:94-125 | on an eligible event the only possible failures are a server error or a failed patch (the Unknown-type default is dead) |
| Reconstruction.DataReplaces | src/main/java/io/streamdata/samples/springwebflux/StreamdataioSpringWebfluxApplication.java:108-110 | a data event sets current to its payload whatever it was and emits it |
| Reconstruction.PatchApplies | src/main/java/io/streamdata/samples/springwebflux/StreamdataioSpringWebfluxApplication.java:112-114 | a patch event sets current to the patch result and emits it, or fails with current unchanged |
| Reconstruction.ErrorFails | src/main/java/io/streamdata/samples/springwebflux/StreamdataioSpringWebfluxApplication.java:116-121 | an error event with payload always fails with that payload as detail and keeps current |
| PatchTransformer.Reconstruct | src/main/java/io/streamdata/samples/springwebflux/StreamdataioSpringWebfluxApplication.java:100-129 | at most one document per event, and exactly one per event iff no event failed |
| PatchTransformer.Run | src/main/java/io/streamdata/samples/springwebflux/StreamdataioSpringWebfluxApplication.java:93-129 | a subscription ends without failure iff every forwarded event emitted exactly one document |
| PatchTransformer.ReconstructAppend | src/main/java/io/streamdata/samples/springwebflux/StreamdataioSpringWebfluxApplication.java:100-129 | processing a + b is processing a then, unless a failed, b from the last emitted document; current always equals the last output |
| PatchTransformer.ReconstructEligibleExpected | src/main/java/io/streamdata/samples/springwebflux/StreamdataioSpringWebfluxApplication.java:94-125 | a fold over eligible events fails only with a server error or a failed patch |
| PatchTransformer.RunFailsOnlyAsExpected | src/main/java/io/streamdata/samples/springwebflux/StreamdataioSpringWebfluxApplication.java:94-125 | a subscription never fails on an absent field, an unknown type or a null document |
| PatchTransformer.RunIgnoresIneligible | src/main/java/io/streamdata/samples/springwebflux/StreamdataioSpringWebfluxApplication.java:94-99 | an event with no payload, or an absent or unrecognized type, changes neither outputs nor failure |
| PatchTransformer.RunExtends | src/main/java/io/streamdata/samples/springwebflux/StreamdataioSpringWebfluxApplication.java:93-129 | outputs keep input order (a prefix's outputs prefix the whole) and processing stops at the first failure |
| PatchTransformer.RunAppendEvent | src/main/java/io/streamdata/samples/springwebflux/StreamdataioSpringWebfluxApplication.java:100-127 | a further eligible event is processed against the last emitted document and appends its document or ends the stream |
| PatchTransformer.RunData | src/main/java/io/streamdata/samples/springwebflux/StreamdataioSpringWebfluxApplication.java:108-110 | a data event appends its own payload to the outputs whatever came before |
| PatchTransformer.RunPatch | src/main/java/io/streamdata/samples/springwebflux/StreamdataioSpringWebfluxApplication.java:112-114 | a patch event is applied to the last emitted document (absent before any) and appends exactly the result, or fails |
| PatchTransformer.RunErrorTerminates | src/main/java/io/streamdata/samples/springwebflux/StreamdataioSpringWebfluxApplication.java:116-121 | an error event ends the stream with its payload, keeping earlier outputs and emitting nothing after it |
| PatchTransformer.RunPatchFirst | src/main/java/io/streamdata/samples/springwebflux/StreamdataioSpringWebfluxApplication.java:101-113 | a patch before any data is applied to the absent base and the patch function's answer is the outcome |
| PatchTransformer.ReconstructDataOnly | src/main/java/io/streamdata/samples/springwebflux/StreamdataioSpringWebfluxApplication.java:108-110 | from any state, a run of data events emits the payloads one for one and never fails |
| PatchTransformer.RunDataOnly | src/main/java/io/streamdata/samples/springwebflux/StreamdataioSpringWebfluxApplication.java:108-127 | for a stream of only data events the n-th output is the n-th payload |
| Classifier.FilterKeepsAll | src/main/java/io/streamdata/samples/springwebflux/StreamdataioSpringWebfluxApplication.java:94-99 | a filter passes a sequence of passing events through unchanged |
| PatchTransformer.IdentityPatch | src/main/java/io/streamdata/samples/springwebflux/StreamdataioSpringWebfluxApplication.java:108-114 | after any non-failed prefix, data then an identity patch appends the snapshot twice |
| PatchTransformer.InversePatches | src/main/java/io/streamdata/samples/springwebflux/StreamdataioSpringWebfluxApplication.java:112-114 | after any non-failed prefix, a patch then its inverse appends the patched document and then the held document again |
| PatchTransformer.PriceScenario | src/main/java/io/streamdata/samples/springwebflux/StreamdataioSpringWebfluxApplication.java:108-127 | data {"price":10}, a replace patch to 12, data {"price":99} emit the three documents in order |
| PatchTransformer.ErrorScenario | src/main/java/io/streamdata/samples/springwebflux/StreamdataioSpringWebfluxApplication.java:108-120 | data then error emits the snapshot and then fails with the error payload |
| PatchTransformer.ReconstructCons | src/main/java/io/streamdata/samples/springwebflux/StreamdataioSpringWebfluxApplication.java:100-129 | the fold steps the first event from current and resumes from the state it leaves unless it failed |
| PatchTransformer.PendingSkip | src/main/java/io/streamdata/samples/springwebflux/StreamdataioSpringWebfluxApplication.java:94-99 | delivering an ineligible event leaves a subscription's remaining outcome unchanged |
| PatchTransformer.PendingEmit | src/main/java/io/streamdata/samples/springwebflux/StreamdataioSpringWebfluxApplication.java:104-127 | an eligible event that emits a document appends it and the rest resumes from that document |
| PatchTransformer.PendingFail | src/main/java/io/streamdata/samples/springwebflux/StreamdataioSpringWebfluxApplication.java:104-125 | an eligible event that fails ends the subscription with that failure after the documents already emitted |
| PatchTransformer.Transform | src/main/java/io/streamdata/samples/springwebflux/StreamdataioSpringWebfluxApplication.java:93-129 | filtering each event and feeding one mapping-function object in order yields exactly the subscription's outputs and failure |

## Left out

- `main` and `myCommandLineRunner` (lines 44-88) are left out. They cover Spring Boot start-up, building the URI with the `X-Sd-Token` parameter, the `WebClient` SSE connection and the one-day keep-alive. All of this is I/O plumbing.
- Printing results and stack traces (lines 78-79) is left out. These are side-effecting consumers.
- Reactor scheduling, back-pressure and cancellation are not modelled. The stream is a finite sequence processed in order.
- Two subscriptions to the same transformed stream would share one mapping function, and so one `current`. The model covers one subscription only.
- The zjsonpatch library (`JsonPatch.apply`, RFC 6902) is not part of this model. Patch application is the parameter `apply`, and results hold for every such function.
- Jackson's `JsonNode` is reduced to a small JSON datatype. Numbers are integers only, and there are no floating-point or big-decimal nodes.
- SSE wire parsing (the `toFlux` body extractor) is left out. So are the `id`, `retry` and `comment` fields, which the transformer never reads.
- Exception messages ("received an error! " followed by the payload, and "Unknown type: " followed by the tag) are not modelled. A failure records its kind and the payload or tag it carries.
