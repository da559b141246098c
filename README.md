# morc mock definitions in Dafny

This project models how morc, a test framework for Camel integrations, assembles the expectation for one mocked endpoint.

A test author describes an endpoint's expected messages in one or more *parts*. Each part is a `MockDefinitionBuilder` holding:

- the endpoint URI;
- the ordering type (`TOTAL`, `PARTIAL` or `NONE`) and the endpoint-ordered flag;
- an expected message count;
- the predicates that incoming messages must match and the processors that produce the responses;
- an optional lenient selector;
- an optional feeder route;
- an assertion time.

`build(previousDefinitionPart)` folds one part into the definition merged so far and returns an immutable `MockDefinition`. It also enforces the cross-part rules:

- every part names the same endpoint, with the same endpoint-ordered flag and the same ordering type;
- only the first part may supply a feeder route;
- at most one part is lenient.

A lenient part expects no messages of its own. Instead it gets a `LenientProcessor`, which answers every message with the next of its processors in round-robin order. `SyncMockDefinitionBuilderInit` collects response bodies and response header maps. Its `build` pairs them by position into body and header processors, then hands over to its superclass's `build`. The model takes that build to be the one in MockDefinition.java (see "## Left out").

Modules, one per file:

- `Wrappers` (wrappers.dfy): Option for Java's nullable references, and Result for the exceptions `build` throws.
- `JavaInt` (java_int.dfy): Java `int` and `long`, 32-bit wrap-around and Java's truncating `%`.
- `Camel` (camel.dfy): uninterpreted tokens for predicates, processors, response bodies and headers, routes and endpoint overrides.
- `Mock` (mock_definition.dfy), which covers `MockDefinition.java`:
  - the `MockDefinition` datatype; its getters are its fields;
  - the `Part` that a builder holds when `build` starts;
  - `Merge`, the value that `build` computes;
  - the `LenientProcessor` class;
  - the `MockDefinitionBuilder` class, whose `Build` method updates the builder's fields step by step, as the source does.
- `MergeFold` (merge_fold.dfy): the parts of one endpoint folded through `build` in authoring order. It proves when the fold succeeds and what the final definition holds.
- `SyncBuilder` (sync_builder.dfy): `SyncMockDefinitionBuilderInit`, with the loop that interleaves body and header processors before the superclass chain's `build`, modelled by `MockDefinitionBuilder.Build`.

The superclass `MorcBuilder` is not part of this model. Its answers to `getPredicates(n)`, `getProcessors(n)` and `getProcessors()` are opaque function inputs of the builder. The `addProcessors(i, p)` calls made on it are recorded in order. Nothing assumes that those lists are as long as the expected count, because `build` does not check it.

Four points of `build` and `process` that are easy to misread:

- `build` changes the builder before some of its errors are thrown. By then a lenient part already has its count set to 0 and its cycler built, both lists are in place, and a differing assertion time is overwritten before the check for two lenient parts. `Build`'s contract states the fields left after each error.
- With an empty processor list, `LenientProcessor.process` returns before touching the counter. With a non-empty list the counter advances on every call, before the processor is looked up.
- A non-lenient part merged after a lenient one still appends its own lists to the previous lists (MockDefinition.java:263-265). Only a lenient later part takes the previous lists unchanged (266-268).
- MockDefinition.java never compares the lengths of the predicate and processor lists with the expected count.

## Model

| member | source | states |
|---|---|---|
| `Mock.Merge` | src/main/java/nz/ac/auckland/integration/testing/mock/MockDefinition.java:197-282 | A negative count is always rejected, naming the endpoint. Merging succeeds exactly when the count is non-negative and, for a later part, `Mergeable` holds (same URI, endpoint-ordered flag and ordering type; no feeder route; not both lenient). Every error names the part's endpoint. For a later part with a non-negative count, each broken rule gives its own error, checked in source order: a different URI gives `EndpointMismatch` (naming both URIs), then a different endpoint-ordered flag gives `EndpointOrderingMismatch`, a different ordering type `OrderingTypeMismatch`, a feeder route on this part `FeederRouteRedefined`, and two lenient parts `MultipleLenientParts`. A first part keeps its own lists and (zeroed if lenient) count, takes its assertion time, and always gets a feeder route: its own or the default, consuming from the endpoint. A later part yields previous lists ++ this part's lists (this part's are empty when lenient), count = Java int sum of the previous count and this part's, and keeps the previous feeder route, endpoint-ordered flag and assertion time. The previous lenient selector and processor are carried forward when present. |
| `Mock.MockDefinitionBuilder.Build` | src/main/java/nz/ac/auckland/integration/testing/mock/MockDefinition.java:197-282 | The result equals `Merge` of the builder's part, in which a lenient part holds a fresh cycler over the authored processors (`getProcessors()`) with counter 0. On success the builder's fields hold exactly the returned definition, which `new MockDefinition(this)` copies field by field (MockDefinition.java:311-323). A negative count leaves the builder unchanged. Every later error (stated by `LeftAfter`) leaves the count zeroed-if-lenient, the new cycler, this part's own lists and the original feeder route. Only the two-lenient-parts error leaves the assertion time replaced by the previous one. |
| `Mock.MockDefinitionBuilder.PrepareLenient` | src/main/java/nz/ac/auckland/integration/testing/mock/MockDefinition.java:203-216 | A lenient part's count becomes 0 and its lenient processor becomes a fresh, valid cycler over `getProcessors()` with counter 0. A non-lenient part keeps its count and its lenient-processor field. |
| `Mock.MockDefinitionBuilder.PrepareOwnLists` | src/main/java/nz/ac/auckland/integration/testing/mock/MockDefinition.java:218-234 | A first part's feeder route becomes its own route, or the default `convertBodyTo(String)` route, consuming from the endpoint. Otherwise the route is untouched. A lenient part's own lists are empty. A non-lenient part's lists are `getPredicates(count)` and `getProcessors(count)`. |
| `Mock.MockDefinitionBuilder.MergeInto` | src/main/java/nz/ac/auckland/integration/testing/mock/MockDefinition.java:236-279 | The checks against the previous definition run in source order, and the result equals `Merge` for a later part. On failure only the assertion time can have changed, and only when the failure is the two-lenient-parts error. |
| `Mock.MockDefinitionBuilder.Combine` | src/main/java/nz/ac/auckland/integration/testing/mock/MockDefinition.java:262-281 | After the checks pass, the builder holds the merged definition `Merge` describes: previous entries first, summed count, and the previous feeder route, endpoint-ordered flag and lenient settings. |
| `Mock.MockDefinitionBuilder.constructor` | src/main/java/nz/ac/auckland/integration/testing/mock/MockDefinition.java:124-145 | Defaults: ordering TOTAL, endpoint-ordered, not lenient, expected count 1, no feeder route, assertion time 15000, no lenient processor, nothing built yet. |
| `Mock.MockDefinitionBuilder.ExpectedMessageCount` | src/main/java/nz/ac/auckland/integration/testing/mock/MockDefinition.java:147-150 | Sets only the expected count, to any Java int, including a negative one. |
| `Mock.MockDefinitionBuilder.Ordering` | src/main/java/nz/ac/auckland/integration/testing/mock/MockDefinition.java:155-158 | Sets only the ordering type. |
| `Mock.MockDefinitionBuilder.EndpointNotOrdered` | src/main/java/nz/ac/auckland/integration/testing/mock/MockDefinition.java:163-166 | Clears only the endpoint-ordered flag. |
| `Mock.MockDefinitionBuilder.Lenient` | src/main/java/nz/ac/auckland/integration/testing/mock/MockDefinition.java:168-175 | Makes the part lenient, with a selector that matches every exchange. |
| `Mock.MockDefinitionBuilder.LenientWhen` | src/main/java/nz/ac/auckland/integration/testing/mock/MockDefinition.java:177-180 | Sets only the lenient selector. A null selector makes the part non-lenient. |
| `Mock.MockDefinitionBuilder.MockFeederRoute` | src/main/java/nz/ac/auckland/integration/testing/mock/MockDefinition.java:187-190 | Sets only the feeder route. |
| `Mock.MockDefinitionBuilder.AssertionTime` | src/main/java/nz/ac/auckland/integration/testing/mock/MockDefinition.java:192-195 | Sets only the assertion time. |
| `Mock.MockDefinitionBuilder.AddProcessors` | src/main/java/nz/ac/auckland/morc/mock/builder/SyncMockDefinitionBuilderInit.java:97-103 | Each `addProcessors(i, p)` call is recorded after the earlier ones, and nothing else changes. |
| `Mock.LenientProcessor.constructor` | src/main/java/nz/ac/auckland/integration/testing/mock/MockDefinition.java:294-300 | A new cycler holds the given processors, its counter starts at 0, and it has applied nothing yet. |
| `Mock.LenientProcessor.Process` | src/main/java/nz/ac/auckland/integration/testing/mock/MockDefinition.java:302-307 | With no processors, nothing is applied and the counter stays. Otherwise the call applies `processors[counter mod n]` and the counter advances by exactly one. The applied history stays equal to `Cycle`, so the k-th call (0-based) applies `processors[k mod n]`. |
| `Mock.Selected` | src/main/java/nz/ac/auckland/integration/testing/mock/MockDefinition.java:302-306 | A processor is selected exactly when the list is non-empty, and then the call made at counter k selects the processor that the k-th call of the round robin `Cycle` applies. |
| `Mock.Cycle` | src/main/java/nz/ac/auckland/integration/testing/mock/MockDefinition.java:302-307 | The first m calls apply exactly m processors, one per call, in call order; `CycleAt` gives which one each call applies. |
| `Mock.CycleAt` | src/main/java/nz/ac/auckland/integration/testing/mock/MockDefinition.java:306 | Closed form of the round robin: call k (0-based) of the first m applies `processors[k mod n]`. |
| `Mock.CycleShares` | src/main/java/nz/ac/auckland/integration/testing/mock/MockDefinition.java:296-307 | With distinct processors, m calls apply processor j exactly m div n times, plus one more when j < m mod n. For example, 5 calls over [r0, r1, r2] apply r0 twice, r1 twice and r2 once. |
| `Mock.SelectedAsWritten` | src/main/java/nz/ac/auckland/integration/testing/mock/MockDefinition.java:296-306 | The code as written: the counter wraps as a Java int, `%` truncates, and a negative index throws. Whatever it returns is one of the processors. |
| `Mock.SelectedAsWrittenBeforeWrap` | src/main/java/nz/ac/auckland/integration/testing/mock/MockDefinition.java:306 | Until the counter passes Integer.MAX_VALUE, the code as written selects `processors[k mod n]`. |
| `Mock.CounterWrapThrows` | src/main/java/nz/ac/auckland/integration/testing/mock/MockDefinition.java:306 | With three processors, call number 2^31 (0-based) selects index -2 and throws. |
| `JavaInt.Wrap32` | src/main/java/nz/ac/auckland/integration/testing/mock/MockDefinition.java:271 | The Java int that `+=` leaves is congruent to the exact sum modulo 2^32, and equals it when the sum fits in an int. |
| `JavaInt.Wrap32Absorbs` | src/main/java/nz/ac/auckland/integration/testing/mock/MockDefinition.java:271 | Wrapping an intermediate sum does not change the wrapped total, so a chain of `+=` equals one wrap of the exact sum. |
| `JavaInt.JavaRem` | src/main/java/nz/ac/auckland/integration/testing/mock/MockDefinition.java:306 | Java's `%` by a positive divisor: in [0, n) for a non-negative dividend, in (-n, 0] for a negative one, and always congruent to the dividend modulo n, which fixes its value (for example -2147483648 % 3 is -2). |
| `MergeFold.MergeAllSpec` | src/main/java/nz/ac/auckland/integration/testing/mock/MockDefinition.java:197-282 | Folding an endpoint's parts through `build` succeeds exactly when no count is negative, all parts share the first part's URI, endpoint-ordered flag and ordering type, only the first part has a feeder route, and at most one part is lenient. The final definition then has the first part's endpoint settings, feeder route and assertion time. Its lists are all parts' own lists in authoring order, and its count is the Java int wrap of the sum of the parts' counts, lenient parts counting 0. Its lenient selector and processor are those of the lenient part, and there is no selector when no part is lenient. |
| `MergeFold.CompatibleSnoc` | src/main/java/nz/ac/auckland/integration/testing/mock/MockDefinition.java:236-260 | A list of parts keeps the cross-part rules exactly when the earlier parts do and the last part keeps them against the earlier ones. |
| `MergeFold.FoldedSnoc` | src/main/java/nz/ac/auckland/integration/testing/mock/MockDefinition.java:262-278 | Merging one more part into a definition that holds the fold of the earlier parts yields the fold of all the parts. |
| `SyncBuilder.SyncMockDefinitionBuilderInit.constructor` | src/main/java/nz/ac/auckland/morc/mock/builder/SyncMockDefinitionBuilderInit.java:25-33 | A new builder has the default settings and no response bodies or headers. |
| `SyncBuilder.SyncMockDefinitionBuilderInit.ResponseBody` | src/main/java/nz/ac/auckland/morc/mock/builder/SyncMockDefinitionBuilderInit.java:41-44 | The given bodies are appended in argument order after those added before. |
| `SyncBuilder.SyncMockDefinitionBuilderInit.ResponseHeaders` | src/main/java/nz/ac/auckland/morc/mock/builder/SyncMockDefinitionBuilderInit.java:68-71 | The given header maps are appended in argument order after those added before. |
| `SyncBuilder.SyncMockDefinitionBuilderInit.Build` | src/main/java/nz/ac/auckland/morc/mock/builder/SyncMockDefinitionBuilderInit.java:91-105 | Exactly the interleaved response processors are added to the builder, after its earlier additions. The result is then `Merge` of the part those additions give, with the same previous definition, so every merge rule applies. On success the builder holds the returned definition. On failure its fields are those `LeftAfter` describes for the same part: unchanged after a negative count; otherwise the count zeroed if lenient, the new cycler, the part's own lists, the original feeder route, and the previous assertion time only after the two-lenient-parts error. |
| `SyncBuilder.ResponseProcessorsLength` | src/main/java/nz/ac/auckland/morc/mock/builder/SyncMockDefinitionBuilderInit.java:97-103 | The first n loop turns add min(n, bodies) + min(n, header maps) processors. |
| `SyncBuilder.ResponseProcessorsMembers` | src/main/java/nz/ac/auckland/morc/mock/builder/SyncMockDefinitionBuilderInit.java:97-103 | At each index i below n, a body processor for `bodies[i]` is added exactly when i < \|bodies\|, and a headers processor for `headers[i]` exactly when i < \|headers\|. Nothing else is added. |
| `SyncBuilder.ResponseProcessorsOrdered` | src/main/java/nz/ac/auckland/morc/mock/builder/SyncMockDefinitionBuilderInit.java:98-102 | Additions come in increasing index order. At the same index, the body processor comes before the headers processor. |
| `SyncBuilder.ResponseProcessorsComplete` | src/main/java/nz/ac/auckland/morc/mock/builder/SyncMockDefinitionBuilderInit.java:92-103 | The loop runs max(\|bodies\|, \|headers\|) turns. It adds exactly one processor per body and one per header map, each at its own index and in increasing rank. |

## Left out

- Mock.LenientProcessor: the `AtomicInteger` counter is an unbounded counter advanced by one call at a time. Concurrent calls and the wrap-around of the Java counter are not modelled (see Findings).
- Mock.LenientProcessor.Process: the selected processor is returned instead of being run on a Camel `Exchange`, and exceptions thrown by that processor are not modelled.
- Predicate matching and processor behaviour are uninterpreted tokens, because they belong to Camel and to morc's processor classes.
- `lenientProcessor(Class)` and the reflective construction of the cycler (MockDefinition.java:182-185, 210-215) are left out. `Build` constructs a `LenientProcessor` directly, and the `RuntimeException` raised when reflection fails is not modelled.
- Camel route building is reduced to a value: the route's inputs and steps. `mockFeederRoute.from(uri)` also mutates a route object that the caller may still hold, and that aliasing is not modelled.
- The SLF4J warnings and debug messages (MockDefinition.java:204-205, 224-226, 254-255; SyncMockDefinitionBuilderInit.java:94-95) have no effect on state and are left out.
- SyncBuilder.SyncMockDefinitionBuilderInit.Build: `SyncMockDefinitionBuilderInit` lives in package `nz.ac.auckland.morc.mock.builder`. It extends `ContentMockDefinitionBuilderInit` and ends with `super.build(...)` (SyncMockDefinitionBuilderInit.java:20-21, 104). The modelled `MockDefinitionBuilder` is the one in MockDefinition.java, in package `nz.ac.auckland.integration.testing.mock`. The model assumes two things that are not shown: that `ContentMockDefinitionBuilderInit` inherits `build` without overriding it, and that the `nz.ac.auckland.morc.mock` `MockDefinitionBuilder.build` behaves like the one in MockDefinition.java. `Build`'s contract `r == Merge(...)` rests on both.
- `MorcBuilder`, `ContentMockDefinitionBuilderInit` and endpoint overrides are not part of this model. `getPredicates(n)`, `getProcessors(n)`, `getProcessors()` and `getEndpointOverrides()` are opaque inputs of the builder.
- A null ordering type passed to `ordering(...)`, and null bodies or header maps, are not modelled.
- The response body type parameter `T` is the `Body` token.
- The `TestResource` overloads of `responseBody` and `responseHeaders` (SyncMockDefinitionBuilderInit.java:52-61, 79-88) load files or URLs and are left out.
- HttpExceptionValidator, XmlTestResource, PlainTextTestResource and the SOAP-fault predicate test are not part of this model. They are thin checks over Camel exceptions, file loading, XML and XPath.

## Findings

| source | as written | input that shows it | evidently intended | confidence | as-written member | corrected member |
|---|---|---|---|---|---|---|
| src/main/java/nz/ac/auckland/integration/testing/mock/MockDefinition.java:296-306 | `processors.get(messageIndex.getAndIncrement() % processors.size())` on an `AtomicInteger` that wraps to Integer.MIN_VALUE, with Java's sign-keeping `%` | a lenient endpoint with three responses: at call number 2^31 (0-based) the counter reads -2147483648, the index is -2, and `get(-2)` throws IndexOutOfBoundsException | every call k applies `processors[k mod n]`, sharing the responses round robin | high, not executed | `Mock.CounterWrapThrows` | `Mock.CycleShares` |
