/** The expectation for one mocked endpoint (morc's MockDefinition), the builder that
    folds one more part of that expectation into the definition merged so far, and the
    lenient processor that cycles through a fixed set of responses. */
module Mock {
  import opened Wrappers
  import opened JavaInt
  import opened Camel

  /** How strictly messages at one endpoint must keep the order they were defined in. */
  datatype OrderingType = TOTAL | PARTIAL | NONE

  const DEFAULT_EXPECTED_MESSAGE_COUNT: Int32 := 1
  const DEFAULT_ASSERTION_TIME: Int64 := 15000

  /** The IllegalStateExceptions `build` throws; each names the endpoint of the part. */
  datatype BuildError =
    | NegativeExpectedMessageCount(endpointUri: string)
    | EndpointMismatch(previousUri: string, endpointUri: string)
    | EndpointOrderingMismatch(endpointUri: string)
    | OrderingTypeMismatch(endpointUri: string)
    | FeederRouteRedefined(endpointUri: string)
    | MultipleLenientParts(endpointUri: string)

  /** The immutable expectation for an endpoint, as merged from all its parts so far.
      Its getters are the datatype's fields. */
  datatype MockDefinition = MockDefinition(
    endpointUri: string,
    isEndpointOrdered: bool,
    orderingType: OrderingType,
    processors: seq<Processor>,
    predicates: seq<Predicate>,
    expectedMessageCount: Int32,
    mockFeederRoute: Option<RouteDefinition>,
    lenientSelector: Option<Predicate>,
    lenientProcessor: Option<LenientProcessor>,
    assertionTime: Int64,
    endpointOverrides: seq<EndpointOverride>)
  {
    predicate IsLenient() { lenientSelector.Some? }
  }

  /** What a MockDefinitionBuilder holds when `build` starts: its own settings, and what
      the MorcBuilder it extends answers to `getPredicates(expectedMessageCount)`,
      `getProcessors(expectedMessageCount)` and `getEndpointOverrides()`.
      `lenientProcessor` is the builder's lenient-processor field once `build` has
      constructed the cycler for a lenient part. */
  datatype Part = Part(
    endpointUri: string,
    orderingType: OrderingType,
    isEndpointOrdered: bool,
    lenientSelector: Option<Predicate>,
    expectedMessageCount: Int32,
    mockFeederRoute: Option<RouteDefinition>,
    lenientProcessor: Option<LenientProcessor>,
    assertionTime: Int64,
    countedPredicates: seq<Predicate>,
    countedProcessors: seq<Processor>,
    endpointOverrides: seq<EndpointOverride>)
  {
    predicate IsLenient() { lenientSelector.Some? }
  }

  /** The predicates a part contributes: none when it is lenient. */
  function PartPredicates(p: Part): seq<Predicate> {
    if p.IsLenient() then [] else p.countedPredicates
  }

  /** The processors a part contributes: none when it is lenient. */
  function PartProcessors(p: Part): seq<Processor> {
    if p.IsLenient() then [] else p.countedProcessors
  }

  /** The message count a part contributes: a lenient part's count is forced to 0. */
  function PartCount(p: Part): Int32 {
    if p.IsLenient() then 0 else p.expectedMessageCount
  }

  /** The cross-part rules a later part must keep with the definition merged so far. */
  predicate Mergeable(d: MockDefinition, p: Part) {
    && d.endpointUri == p.endpointUri
    && d.isEndpointOrdered == p.isEndpointOrdered
    && d.orderingType == p.orderingType
    && p.mockFeederRoute.None?
    && !(p.IsLenient() && d.IsLenient())
  }

  /** `MockDefinitionBuilder.build(previousDefinitionPart)` as a value: the definition
      that folds part `p` into `previous` (None for the first part), or the error. */
  function Merge(p: Part, previous: Option<MockDefinition>): (r: Result<MockDefinition, BuildError>)
    ensures p.expectedMessageCount < 0 ==> r == Failure(NegativeExpectedMessageCount(p.endpointUri))
    ensures r.Success? <==> p.expectedMessageCount >= 0 && (previous.Some? ==> Mergeable(previous.value, p))
    ensures r.Failure? ==> r.error.endpointUri == p.endpointUri
    // a later part: each broken rule has its own error, the checks taken in this order
    ensures previous.Some? && p.expectedMessageCount >= 0 ==>
      var d := previous.value;
      && (d.endpointUri != p.endpointUri ==> r == Failure(EndpointMismatch(d.endpointUri, p.endpointUri)))
      && (d.endpointUri == p.endpointUri && d.isEndpointOrdered != p.isEndpointOrdered ==>
            r == Failure(EndpointOrderingMismatch(p.endpointUri)))
      && (d.endpointUri == p.endpointUri && d.isEndpointOrdered == p.isEndpointOrdered
          && d.orderingType != p.orderingType ==>
            r == Failure(OrderingTypeMismatch(p.endpointUri)))
      && (d.endpointUri == p.endpointUri && d.isEndpointOrdered == p.isEndpointOrdered
          && d.orderingType == p.orderingType && p.mockFeederRoute.Some? ==>
            r == Failure(FeederRouteRedefined(p.endpointUri)))
      && (d.endpointUri == p.endpointUri && d.isEndpointOrdered == p.isEndpointOrdered
          && d.orderingType == p.orderingType && p.mockFeederRoute.None? && p.IsLenient() && d.IsLenient() ==>
            r == Failure(MultipleLenientParts(p.endpointUri)))
    ensures r.Success? ==>
      && r.value.endpointUri == p.endpointUri
      && r.value.orderingType == p.orderingType
      && r.value.isEndpointOrdered == p.isEndpointOrdered
      && r.value.endpointOverrides == p.endpointOverrides
    // the first part: its own lists and count, and a feeder route that always exists
    ensures r.Success? && previous.None? ==>
      && r.value.predicates == PartPredicates(p)
      && r.value.processors == PartProcessors(p)
      && r.value.expectedMessageCount == PartCount(p)
      && r.value.mockFeederRoute == Some(From(p.mockFeederRoute.GetOr(DefaultFeederRoute()), p.endpointUri))
      && r.value.assertionTime == p.assertionTime
      && r.value.lenientSelector == p.lenientSelector
      && r.value.lenientProcessor == p.lenientProcessor
    // a later part: earlier entries first, counts summed, the first part's settings kept
    ensures r.Success? && previous.Some? ==>
      && r.value.predicates == previous.value.predicates + PartPredicates(p)
      && r.value.processors == previous.value.processors + PartProcessors(p)
      && r.value.expectedMessageCount == Wrap32(previous.value.expectedMessageCount + PartCount(p))
      && r.value.mockFeederRoute == previous.value.mockFeederRoute
      && r.value.assertionTime == previous.value.assertionTime
      && r.value.lenientSelector == (if previous.value.IsLenient() then previous.value.lenientSelector else p.lenientSelector)
      && r.value.lenientProcessor == (if previous.value.IsLenient() then previous.value.lenientProcessor else p.lenientProcessor)
  {
    if p.expectedMessageCount < 0 then
      Failure(NegativeExpectedMessageCount(p.endpointUri))
    else
      var lenient := p.lenientSelector.Some?;
      var count: Int32 := if lenient then 0 else p.expectedMessageCount;
      var predicates := if lenient then [] else p.countedPredicates;
      var processors := if lenient then [] else p.countedProcessors;
      match previous
      case None =>
        var route := From(p.mockFeederRoute.GetOr(DefaultFeederRoute()), p.endpointUri);
        Success(MockDefinition(p.endpointUri, p.isEndpointOrdered, p.orderingType, processors, predicates,
                               count, Some(route), p.lenientSelector, p.lenientProcessor, p.assertionTime,
                               p.endpointOverrides))
      case Some(d) =>
        if d.endpointUri != p.endpointUri then
          Failure(EndpointMismatch(d.endpointUri, p.endpointUri))
        else if d.isEndpointOrdered != p.isEndpointOrdered then
          Failure(EndpointOrderingMismatch(p.endpointUri))
        else if d.orderingType != p.orderingType then
          Failure(OrderingTypeMismatch(p.endpointUri))
        else if p.mockFeederRoute.Some? then
          Failure(FeederRouteRedefined(p.endpointUri))
        else if lenient && d.lenientSelector.Some? then
          Failure(MultipleLenientParts(p.endpointUri))
        else
          var merged := MockDefinition(
            p.endpointUri, d.isEndpointOrdered, p.orderingType,
            if lenient then d.processors else d.processors + processors,
            if lenient then d.predicates else d.predicates + predicates,
            Wrap32(count + d.expectedMessageCount), d.mockFeederRoute,
            if d.lenientSelector.Some? then d.lenientSelector else p.lenientSelector,
            if d.lenientSelector.Some? then d.lenientProcessor else p.lenientProcessor,
            d.assertionTime, p.endpointOverrides);
          Success(merged)
  }

  // ---------------------------------------------------------------------------------
  // LenientProcessor: round-robin through a fixed list of response processors
  // ---------------------------------------------------------------------------------

  /** The processor that the call made when the counter reads `k` applies, if any. */
  function Selected(processors: seq<Processor>, k: nat): (r: Option<Processor>)
    ensures r.Some? <==> |processors| > 0
    ensures |processors| > 0 ==> r == Some(Cycle(processors, k + 1)[k])
  {
    if |processors| == 0 then None else Some(processors[k % |processors|])
  }

  /** The processors applied by the first `m` calls on a non-empty list, in call order. */
  function Cycle(processors: seq<Processor>, m: nat): (r: seq<Processor>)
    requires |processors| > 0
    ensures |r| == m
  {
    if m == 0 then [] else Cycle(processors, m - 1) + [processors[(m - 1) % |processors|]]
  }

  /** The closed form of `Cycle`: call k applies the processor at index k mod n. */
  lemma {:induction false} CycleAt(processors: seq<Processor>, m: nat)
    requires |processors| > 0
    ensures forall k :: 0 <= k < m ==> Cycle(processors, m)[k] == processors[k % |processors|]
  {
    if m > 0 {
      CycleAt(processors, m - 1);
    }
  }

  /** Over the first `m` calls on a list of distinct processors, the processor at index `j`
      is applied m / n times, plus once more when j < m % n: the calls share the
      responses out as evenly as round robin allows. */
  lemma {:induction false} CycleShares(processors: seq<Processor>, m: nat, j: nat)
    requires j < |processors|
    requires forall a, b :: 0 <= a < b < |processors| ==> processors[a] != processors[b]
    ensures multiset(Cycle(processors, m))[processors[j]]
            == m / |processors| + (if j < m % |processors| then 1 else 0)
  {
    if m > 0 {
      CycleShares(processors, m - 1, j);
      CycleCountStep(processors, m, j);
      ShareStep(multiset(Cycle(processors, m - 1))[processors[j]], multiset(Cycle(processors, m))[processors[j]],
                m, |processors|, j);
    } else {
      DivModOf(0, |processors|, 0, 0);
    }
  }

  /** Call m - 1 applies the processor at index (m - 1) % n, and over distinct processors
      that adds one application to index `j` exactly when it is that index. */
  lemma CycleCountStep(processors: seq<Processor>, m: nat, j: nat)
    requires 0 < m && j < |processors|
    requires forall a, b :: 0 <= a < b < |processors| ==> processors[a] != processors[b]
    ensures multiset(Cycle(processors, m))[processors[j]]
            == multiset(Cycle(processors, m - 1))[processors[j]] + (if j == (m - 1) % |processors| then 1 else 0)
  {
    var s := (m - 1) % |processors|;
    assert processors[s] == processors[j] <==> s == j;
    SnocCount(Cycle(processors, m - 1), processors[s], processors[j]);
  }

  /** One more element adds one occurrence of itself and none of anything else. */
  lemma SnocCount(before: seq<Processor>, x: Processor, y: Processor)
    ensures multiset(before + [x])[y] == multiset(before)[y] + (if x == y then 1 else 0)
  {
    assert multiset(before + [x]) == multiset(before) + multiset{x};
  }

  /** The arithmetic of one more call: call m - 1 lands on index (m - 1) % n, so a count
      that was right after m - 1 calls is right after m. */
  lemma ShareStep(before: int, after: int, m: int, n: int, j: int)
    requires n > 0 && m > 0 && 0 <= j < n
    requires before == (m - 1) / n + (if j < (m - 1) % n then 1 else 0)
    requires after == before + (if j == (m - 1) % n then 1 else 0)
    ensures after == m / n + (if j < m % n then 1 else 0)
  {
    var q, s := (m - 1) / n, (m - 1) % n;
    assert m - 1 == q * n + s;
    if s + 1 < n {
      DivModOf(m, n, q, s + 1);
    } else {
      assert m == (q + 1) * n;
      DivModOf(m, n, q + 1, 0);
    }
  }

  /** morc's LenientProcessor. The AtomicInteger `messageIndex` is an unbounded counter
      here, incremented by one call at a time; `history` records the processors applied so
      far. */
  class LenientProcessor {
    const processors: seq<Processor>
    var messageIndex: nat
    ghost var history: seq<Processor>

    ghost predicate Valid()
      reads this
    {
      && (|processors| == 0 ==> messageIndex == 0 && history == [])
      && (|processors| > 0 ==> messageIndex == |history| && history == Cycle(processors, |history|))
    }

    constructor (processors: seq<Processor>)
      ensures Valid()
      ensures this.processors == processors && messageIndex == 0 && history == []
    {
      this.processors := processors;
      messageIndex := 0;
      history := [];
    }

    /** `process(exchange)`: with no processors, nothing happens and the counter stays;
        otherwise the call applies `processors[messageIndex % n]` and advances the counter
        by one. The processor applied is returned instead of being run on an exchange. */
    method Process() returns (applied: Option<Processor>)
      requires Valid()
      modifies this
      ensures Valid()
      ensures applied == Selected(processors, old(messageIndex))
      ensures messageIndex == if |processors| == 0 then old(messageIndex) else old(messageIndex) + 1
      ensures history == if |processors| == 0 then old(history) else old(history) + [applied.value]
    {
      if |processors| == 0 {
        return None;
      }
      applied := Some(processors[messageIndex % |processors|]);
      messageIndex := messageIndex + 1;
      history := history + [applied.value];
    }
  }

  // ---------------------------------------------------------------------------------
  // LenientProcessor as written: the AtomicInteger wraps and Java's % keeps the sign
  // ---------------------------------------------------------------------------------

  datatype IndexOutOfBounds = IndexOutOfBounds(index: int)

  /** What the call made after `calls` earlier calls does in the Java code as written:
      `getAndIncrement()` has wrapped to Wrap32(calls), `%` truncates toward zero, and
      `List.get` throws on a negative index. */
  function SelectedAsWritten(processors: seq<Processor>, calls: nat): (r: Result<Processor, IndexOutOfBounds>)
    requires |processors| > 0
    ensures r.Success? ==> r.value in processors
  {
    var i := JavaRem(Wrap32(calls), |processors|);
    if 0 <= i then Success(processors[i]) else Failure(IndexOutOfBounds(i))
  }

  /** Until the counter passes Integer.MAX_VALUE the code as written cycles as intended. */
  lemma SelectedAsWrittenBeforeWrap(processors: seq<Processor>, calls: nat)
    requires |processors| > 0 && calls <= INT32_MAX
    ensures SelectedAsWritten(processors, calls) == Success(processors[calls % |processors|])
  {
  }

  /** The 2^31-th call (0-based) on a lenient endpoint with three responses throws:
      the counter reads Integer.MIN_VALUE and -2147483648 % 3 is -2 in Java. */
  lemma CounterWrapThrows(r0: Processor, r1: Processor, r2: Processor)
    ensures SelectedAsWritten([r0, r1, r2], 0x8000_0000) == Failure(IndexOutOfBounds(-2))
  {
    assert Wrap32(0x8000_0000) == INT32_MIN;
  }

  // ---------------------------------------------------------------------------------
  // MockDefinitionBuilder
  // ---------------------------------------------------------------------------------

  /** One `addProcessors(index, processor)` call made on the MorcBuilder. */
  datatype ProcessorAddition = ProcessorAddition(index: nat, processor: Processor)

  /** morc's MockDefinitionBuilder together with the state of the MorcBuilder it extends.
      That superclass is outside this model, so its answers are opaque inputs:
      `predicatesFor(n)` is `getPredicates(n)`, `processorsFor(adds, n)` is
      `getProcessors(n)` and `authoredProcessorsOf(adds)` is `getProcessors()` once the
      `addProcessors` calls recorded in `adds` have been made. */
  class MockDefinitionBuilder {
    const endpointUri: string
    const predicatesFor: Int32 -> seq<Predicate>
    const processorsFor: (seq<ProcessorAddition>, Int32) -> seq<Processor>
    const authoredProcessorsOf: seq<ProcessorAddition> -> seq<Processor>
    const endpointOverrides: seq<EndpointOverride>
    var additions: seq<ProcessorAddition>

    var orderingType: OrderingType
    var isEndpointOrdered: bool
    var lenientSelector: Option<Predicate>
    var expectedMessageCount: Int32
    var mockFeederRoute: Option<RouteDefinition>
    var lenientProcessor: Option<LenientProcessor>
    var predicates: Option<seq<Predicate>>
    var processors: Option<seq<Processor>>
    var assertionTime: Int64

    constructor (endpointUri: string,
                 predicatesFor: Int32 -> seq<Predicate>,
                 processorsFor: (seq<ProcessorAddition>, Int32) -> seq<Processor>,
                 authoredProcessorsOf: seq<ProcessorAddition> -> seq<Processor>,
                 endpointOverrides: seq<EndpointOverride>,
                 additions: seq<ProcessorAddition>)
      ensures this.endpointUri == endpointUri && this.endpointOverrides == endpointOverrides
      ensures this.predicatesFor == predicatesFor && this.processorsFor == processorsFor
      ensures this.authoredProcessorsOf == authoredProcessorsOf && this.additions == additions
      ensures HasDefaults()
    {
      this.endpointUri := endpointUri;
      this.predicatesFor := predicatesFor;
      this.processorsFor := processorsFor;
      this.authoredProcessorsOf := authoredProcessorsOf;
      this.endpointOverrides := endpointOverrides;
      this.additions := additions;
      orderingType := TOTAL;
      isEndpointOrdered := true;
      lenientSelector := None;
      expectedMessageCount := DEFAULT_EXPECTED_MESSAGE_COUNT;
      mockFeederRoute := None;
      lenientProcessor := None;
      predicates := None;
      processors := None;
      assertionTime := DEFAULT_ASSERTION_TIME;
    }

    /** The builder's settings before any setter is called: TOTAL ordering, ordered with
        respect to other endpoints, not lenient, one expected message, no feeder route,
        an assertion time of 15000 ms, and nothing built yet. */
    ghost predicate HasDefaults()
      reads this
    {
      && orderingType == TOTAL && isEndpointOrdered && lenientSelector.None?
      && expectedMessageCount == DEFAULT_EXPECTED_MESSAGE_COUNT && mockFeederRoute.None?
      && assertionTime == DEFAULT_ASSERTION_TIME
      && lenientProcessor.None? && predicates.None? && processors.None?
    }

    method ExpectedMessageCount(n: Int32)
      modifies this`expectedMessageCount
      ensures expectedMessageCount == n
    {
      expectedMessageCount := n;
    }

    method Ordering(t: OrderingType)
      modifies this`orderingType
      ensures orderingType == t
    {
      orderingType := t;
    }

    method EndpointNotOrdered()
      modifies this`isEndpointOrdered
      ensures !isEndpointOrdered
    {
      isEndpointOrdered := false;
    }

    /** `lenient()`: accept every exchange. */
    method Lenient()
      modifies this`lenientSelector
      ensures lenientSelector == Some(MatchAll)
    {
      lenientSelector := Some(MatchAll);
    }

    /** `lenient(selector)`; a null selector (None) makes the part non-lenient again. */
    method LenientWhen(selector: Option<Predicate>)
      modifies this`lenientSelector
      ensures lenientSelector == selector
    {
      lenientSelector := selector;
    }

    method MockFeederRoute(route: Option<RouteDefinition>)
      modifies this`mockFeederRoute
      ensures mockFeederRoute == route
    {
      mockFeederRoute := route;
    }

    method AssertionTime(t: Int64)
      modifies this`assertionTime
      ensures assertionTime == t
    {
      assertionTime := t;
    }

    /** MorcBuilder's `addProcessors(index, processor)`, recorded for its opaque getters. */
    method AddProcessors(index: nat, p: Processor)
      modifies this`additions
      ensures additions == old(additions) + [ProcessorAddition(index, p)]
    {
      additions := additions + [ProcessorAddition(index, p)];
    }

    /** The part this builder holds, had its `addProcessors` calls been `adds`. */
    function Configured(adds: seq<ProcessorAddition>): Part
      reads this`orderingType, this`isEndpointOrdered, this`lenientSelector, this`expectedMessageCount,
            this`mockFeederRoute, this`lenientProcessor, this`assertionTime
    {
      Part(endpointUri, orderingType, isEndpointOrdered, lenientSelector, expectedMessageCount,
           mockFeederRoute, lenientProcessor, assertionTime, predicatesFor(expectedMessageCount),
           processorsFor(adds, expectedMessageCount), endpointOverrides)
    }

    /** The builder's fields hold exactly the values of `d`, as `new MockDefinition(this)`
        copies them. */
    ghost predicate Holds(d: MockDefinition)
      reads this
    {
      && d.endpointUri == endpointUri
      && d.isEndpointOrdered == isEndpointOrdered
      && d.orderingType == orderingType
      && Some(d.processors) == processors
      && Some(d.predicates) == predicates
      && d.expectedMessageCount == expectedMessageCount
      && d.mockFeederRoute == mockFeederRoute
      && d.lenientSelector == lenientSelector
      && d.lenientProcessor == lenientProcessor
      && d.assertionTime == assertionTime
      && d.endpointOverrides == endpointOverrides
    }

    /** The builder holds part `p` with its own predicate and processor lists in place,
        as `build` has it just before it looks at the previous part. */
    ghost predicate Prepared(p: Part)
      reads this
    {
      && p.expectedMessageCount >= 0
      && p.endpointUri == endpointUri && p.orderingType == orderingType
      && p.isEndpointOrdered == isEndpointOrdered && p.lenientSelector == lenientSelector
      && p.mockFeederRoute == mockFeederRoute && p.lenientProcessor == lenientProcessor
      && p.assertionTime == assertionTime && p.endpointOverrides == endpointOverrides
      && expectedMessageCount == PartCount(p)
      && predicates == Some(PartPredicates(p)) && processors == Some(PartProcessors(p))
    }

    /** What a `build` of part `before` that failed with `e` leaves in the builder's fields
        (all but the additions), given the predicate and processor lists it held before.
        A negative count is rejected before anything changes. Any later error comes after
        the count was zeroed if lenient, the cycler `cycler` installed and the part's own
        lists put in place; only the two-lenient-parts error comes after the assertion
        time was replaced by the previous definition's. */
    ghost predicate LeftAfter(e: BuildError, previous: Option<MockDefinition>, cycler: Option<LenientProcessor>,
                              before: Part, beforePredicates: Option<seq<Predicate>>,
                              beforeProcessors: Option<seq<Processor>>)
      reads this
    {
      && orderingType == before.orderingType && isEndpointOrdered == before.isEndpointOrdered
      && lenientSelector == before.lenientSelector && mockFeederRoute == before.mockFeederRoute
      && if e.NegativeExpectedMessageCount? then
           && expectedMessageCount == before.expectedMessageCount
           && lenientProcessor == before.lenientProcessor
           && predicates == beforePredicates && processors == beforeProcessors
           && assertionTime == before.assertionTime
         else
           && previous.Some?
           && expectedMessageCount == PartCount(before)
           && lenientProcessor == cycler
           && predicates == Some(PartPredicates(before)) && processors == Some(PartProcessors(before))
           && assertionTime == (if e.MultipleLenientParts? then previous.value.assertionTime else before.assertionTime)
    }

    /** `build(previousDefinitionPart)`. It works on the builder's own fields step by step,
        and a part rejected after the first check has already had some of them changed.
        `cycler` is the builder's lenient processor once the lenient step has run. */
    method Build(previous: Option<MockDefinition>) returns (r: Result<MockDefinition, BuildError>, ghost cycler: Option<LenientProcessor>)
      modifies this
      ensures old(expectedMessageCount) >= 0 && old(lenientSelector).Some? ==>
        && cycler.Some? && fresh(cycler.value) && cycler.value.Valid()
        && cycler.value.processors == old(authoredProcessorsOf(additions))
        && cycler.value.messageIndex == 0
      ensures !(old(expectedMessageCount) >= 0 && old(lenientSelector).Some?) ==> cycler == old(lenientProcessor)
      ensures r == Merge(old(Configured(additions)).(lenientProcessor := cycler), previous)
      ensures additions == old(additions)
      ensures r.Success? ==> Holds(r.value)
      ensures r.Failure? && r.error.NegativeExpectedMessageCount? ==> unchanged(this)
      ensures r.Failure? ==>
        LeftAfter(r.error, previous, cycler, old(Configured(additions)), old(predicates), old(processors))
    {
      ghost var authored := Configured(additions);
      cycler := lenientProcessor;
      if expectedMessageCount < 0 {
        return Failure(NegativeExpectedMessageCount(endpointUri)), cycler;
      }
      cycler := PrepareLenient();
      ghost var p := authored.(lenientProcessor := cycler);
      PrepareOwnLists(previous.None?);
      if previous.None? {
        r := Success(Defined());
        assert r == Merge(p, previous);
      } else {
        assert Prepared(p);
        r := MergeInto(previous.value, p);
      }
    }

    /** The lenient step of `build`: a lenient part expects no messages of its own and
        gets a fresh cycler over the processors authored for it. */
    method PrepareLenient() returns (ghost cycler: Option<LenientProcessor>)
      modifies this`expectedMessageCount, this`lenientProcessor
      ensures lenientSelector.Some? ==>
        && expectedMessageCount == 0
        && cycler.Some? && fresh(cycler.value) && cycler.value.Valid()
        && cycler.value.processors == authoredProcessorsOf(additions)
        && cycler.value.messageIndex == 0
      ensures lenientSelector.None? ==> expectedMessageCount == old(expectedMessageCount) && cycler == old(lenientProcessor)
      ensures lenientProcessor == cycler
    {
      if lenientSelector.Some? {
        expectedMessageCount := 0;
        var c := new LenientProcessor(authoredProcessorsOf(additions));
        lenientProcessor := Some(c);
      }
      cycler := lenientProcessor;
    }

    /** The steps of `build` that give a first part its feeder route, which it consumes
        from the endpoint, and every part its own predicate and processor lists. */
    method PrepareOwnLists(first: bool)
      modifies this`mockFeederRoute, this`predicates, this`processors
      ensures mockFeederRoute == if first then Some(From(old(mockFeederRoute).GetOr(DefaultFeederRoute()), endpointUri))
                                 else old(mockFeederRoute)
      ensures predicates == Some(if lenientSelector.Some? then [] else predicatesFor(expectedMessageCount))
      ensures processors == Some(if lenientSelector.Some? then [] else processorsFor(additions, expectedMessageCount))
    {
      if first {
        mockFeederRoute := Some(From(mockFeederRoute.GetOr(DefaultFeederRoute()), endpointUri));
      }
      if lenientSelector.None? {
        predicates := Some(predicatesFor(expectedMessageCount));
        processors := Some(processorsFor(additions, expectedMessageCount));
      } else {
        predicates := Some([]);
        processors := Some([]);
      }
    }

    /** The cross-part checks of `build` against the previous definition `d`, then the
        merge of the prepared part `p` into it. */
    method MergeInto(d: MockDefinition, ghost p: Part) returns (r: Result<MockDefinition, BuildError>)
      requires Prepared(p)
      modifies this
      ensures r == Merge(p, Some(d))
      ensures additions == old(additions)
      ensures r.Success? ==> Holds(r.value)
      ensures r.Failure? ==>
        && orderingType == old(orderingType) && isEndpointOrdered == old(isEndpointOrdered)
        && lenientSelector == old(lenientSelector) && mockFeederRoute == old(mockFeederRoute)
        && expectedMessageCount == old(expectedMessageCount) && lenientProcessor == old(lenientProcessor)
        && predicates == old(predicates) && processors == old(processors)
        && assertionTime == (if r.error.MultipleLenientParts? then d.assertionTime else old(assertionTime))
    {
      if d.endpointUri != endpointUri {
        return Failure(EndpointMismatch(d.endpointUri, endpointUri));
      }
      if d.isEndpointOrdered != isEndpointOrdered {
        return Failure(EndpointOrderingMismatch(endpointUri));
      }
      if d.orderingType != orderingType {
        return Failure(OrderingTypeMismatch(endpointUri));
      }
      if mockFeederRoute.Some? {
        return Failure(FeederRouteRedefined(endpointUri));
      }
      if d.assertionTime != assertionTime {
        assertionTime := d.assertionTime;
      }
      if lenientSelector.Some? && d.lenientSelector.Some? {
        return Failure(MultipleLenientParts(endpointUri));
      }
      r := Combine(d, p);
    }

    /** The last steps of `build`, once `d` and the prepared part `p` have passed every
        check: the lists with `d`'s entries first, the summed count, and `d`'s feeder
        route, endpoint ordering and lenient settings carried forward. */
    method Combine(d: MockDefinition, ghost p: Part) returns (r: Result<MockDefinition, BuildError>)
      requires Prepared(p.(assertionTime := d.assertionTime)) && Mergeable(d, p)
      modifies this`predicates, this`processors, this`expectedMessageCount, this`mockFeederRoute,
               this`isEndpointOrdered, this`lenientSelector, this`lenientProcessor
      ensures r == Merge(p, Some(d))
      ensures r.Success? && Holds(r.value)
    {
      if lenientSelector.None? {
        predicates := Some(d.predicates + predicates.value);
        processors := Some(d.processors + processors.value);
      } else {
        predicates := Some(d.predicates);
        processors := Some(d.processors);
      }
      expectedMessageCount := Wrap32(expectedMessageCount + d.expectedMessageCount);
      mockFeederRoute := d.mockFeederRoute;
      isEndpointOrdered := d.isEndpointOrdered;
      if d.lenientSelector.Some? {
        lenientSelector := d.lenientSelector;
        lenientProcessor := d.lenientProcessor;
      }
      r := Success(Defined());
    }

    /** `new MockDefinition(this)`: the definition holding the builder's current fields. */
    function Defined(): (d: MockDefinition)
      reads this
      requires predicates.Some? && processors.Some?
      ensures Holds(d)
    {
      MockDefinition(endpointUri, isEndpointOrdered, orderingType, processors.value, predicates.value,
                     expectedMessageCount, mockFeederRoute, lenientSelector, lenientProcessor,
                     assertionTime, endpointOverrides)
    }
  }
}
