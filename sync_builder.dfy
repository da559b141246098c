/** morc's SyncMockDefinitionBuilderInit: a mock definition builder that collects the
    response bodies and response headers to send back, pairs them up by position into
    per-message processors, and then builds as any mock definition part does. */
module SyncBuilder {
  import opened Wrappers
  import opened JavaInt
  import opened Camel
  import opened Mock

  function Max(a: nat, b: nat): nat {
    if a < b then b else a
  }

  function Min(a: nat, b: nat): nat {
    if a < b then a else b
  }

  /** The processors one turn of `build`'s loop adds at index `i`. */
  function ResponseProcessorsAt(bodies: seq<Body>, headers: seq<Headers>, i: nat): seq<ProcessorAddition> {
    (if i < |bodies| then [ProcessorAddition(i, BodyProcessor(bodies[i]))] else [])
    + (if i < |headers| then [ProcessorAddition(i, HeadersProcessor(headers[i]))] else [])
  }

  /** The processors the first `n` turns of `build`'s loop add, in the order they add them. */
  function ResponseProcessors(bodies: seq<Body>, headers: seq<Headers>, n: nat): seq<ProcessorAddition> {
    if n == 0 then [] else ResponseProcessors(bodies, headers, n - 1) + ResponseProcessorsAt(bodies, headers, n - 1)
  }

  /** Where an addition belongs in the intended order: by message index, and at one index
      the body processor before the headers processor. */
  function Rank(a: ProcessorAddition): nat {
    2 * a.index + (if a.processor.HeadersProcessor? then 1 else 0)
  }

  /** `a` sets message `a.index`'s response to the body or headers authored for it. */
  predicate IsResponseProcessor(bodies: seq<Body>, headers: seq<Headers>, a: ProcessorAddition) {
    || (a.index < |bodies| && a.processor == BodyProcessor(bodies[a.index]))
    || (a.index < |headers| && a.processor == HeadersProcessor(headers[a.index]))
  }

  /** The first `n` turns add one processor per body and one per header map below `n`. */
  lemma {:induction false} ResponseProcessorsLength(bodies: seq<Body>, headers: seq<Headers>, n: nat)
    ensures |ResponseProcessors(bodies, headers, n)| == Min(n, |bodies|) + Min(n, |headers|)
  {
    if n > 0 {
      ResponseProcessorsLength(bodies, headers, n - 1);
    }
  }

  /** The first `n` turns add, for every index below `n`, the body processor exactly when
      there is a body at that index and the headers processor exactly when there are
      headers at it, and nothing else. */
  lemma {:induction false} ResponseProcessorsMembers(bodies: seq<Body>, headers: seq<Headers>, n: nat)
    ensures forall a :: a in ResponseProcessors(bodies, headers, n) <==> a.index < n && IsResponseProcessor(bodies, headers, a)
  {
    if n > 0 {
      ResponseProcessorsMembers(bodies, headers, n - 1);
      var turn := ResponseProcessorsAt(bodies, headers, n - 1);
      assert ResponseProcessors(bodies, headers, n) == ResponseProcessors(bodies, headers, n - 1) + turn;
      forall a
        ensures a in turn <==> a.index == n - 1 && IsResponseProcessor(bodies, headers, a)
      {
      }
    }
  }

  /** The first `n` turns add processors at indices below `n`, in strictly increasing rank:
      by index, and at one index the body processor first. */
  lemma {:induction false} ResponseProcessorsOrdered(bodies: seq<Body>, headers: seq<Headers>, n: nat)
    ensures forall k :: 0 <= k < |ResponseProcessors(bodies, headers, n)| ==> ResponseProcessors(bodies, headers, n)[k].index < n
    ensures forall k1, k2 :: 0 <= k1 < k2 < |ResponseProcessors(bodies, headers, n)| ==>
              Rank(ResponseProcessors(bodies, headers, n)[k1]) < Rank(ResponseProcessors(bodies, headers, n)[k2])
  {
    if n > 0 {
      ResponseProcessorsOrdered(bodies, headers, n - 1);
      var before, turn := ResponseProcessors(bodies, headers, n - 1), ResponseProcessorsAt(bodies, headers, n - 1);
      var adds := before + turn;
      assert ResponseProcessors(bodies, headers, n) == adds;
      assert forall k :: 0 <= k < |turn| ==> turn[k].index == n - 1;
      assert forall k :: 0 <= k < |before| ==> Rank(before[k]) < 2 * (n - 1);
      forall k1, k2 | 0 <= k1 < k2 < |adds|
        ensures Rank(adds[k1]) < Rank(adds[k2])
      {
        if k2 < |before| {
          assert adds[k1] == before[k1] && adds[k2] == before[k2];
        } else if k1 < |before| {
          assert adds[k1] == before[k1] && adds[k2] == turn[k2 - |before|];
        } else {
          assert adds[k1] == turn[k1 - |before|] && adds[k2] == turn[k2 - |before|];
        }
      }
    }
  }

  /** The whole loop of `build` runs max(|bodies|, |headers|) turns: it adds one processor
      per body and one per header map, each at its own index, in increasing rank. */
  lemma ResponseProcessorsComplete(bodies: seq<Body>, headers: seq<Headers>)
    ensures var adds := ResponseProcessors(bodies, headers, Max(|bodies|, |headers|));
      && |adds| == |bodies| + |headers|
      && (forall a :: a in adds <==> IsResponseProcessor(bodies, headers, a))
      && (forall k1, k2 :: 0 <= k1 < k2 < |adds| ==> Rank(adds[k1]) < Rank(adds[k2]))
  {
    var n := Max(|bodies|, |headers|);
    ResponseProcessorsLength(bodies, headers, n);
    ResponseProcessorsMembers(bodies, headers, n);
    ResponseProcessorsOrdered(bodies, headers, n);
  }

  class SyncMockDefinitionBuilderInit {
    /** Stands for the superclass chain `ContentMockDefinitionBuilderInit` -> `MockDefinitionBuilder`,
        taken to build as MockDefinition.java does. */
    const base: MockDefinitionBuilder
    var responseBodyProcessors: seq<Body>
    var responseHeadersProcessors: seq<Headers>

    constructor (endpointUri: string,
                 predicatesFor: Int32 -> seq<Predicate>,
                 processorsFor: (seq<ProcessorAddition>, Int32) -> seq<Processor>,
                 authoredProcessorsOf: seq<ProcessorAddition> -> seq<Processor>,
                 endpointOverrides: seq<EndpointOverride>,
                 additions: seq<ProcessorAddition>)
      ensures fresh(base) && base.HasDefaults()
      ensures base.endpointUri == endpointUri && base.endpointOverrides == endpointOverrides
      ensures base.predicatesFor == predicatesFor && base.processorsFor == processorsFor
      ensures base.authoredProcessorsOf == authoredProcessorsOf && base.additions == additions
      ensures responseBodyProcessors == [] && responseHeadersProcessors == []
    {
      base := new MockDefinitionBuilder(endpointUri, predicatesFor, processorsFor, authoredProcessorsOf,
                                        endpointOverrides, additions);
      responseBodyProcessors := [];
      responseHeadersProcessors := [];
    }

    /** `responseBody(bodies...)`: the bodies go after those given before, in order. */
    method ResponseBody(bodies: seq<Body>)
      modifies this`responseBodyProcessors
      ensures responseBodyProcessors == old(responseBodyProcessors) + bodies
    {
      responseBodyProcessors := responseBodyProcessors + bodies;
    }

    /** `responseHeaders(headers...)`: the header maps go after those given before, in order. */
    method ResponseHeaders(headers: seq<Headers>)
      modifies this`responseHeadersProcessors
      ensures responseHeadersProcessors == old(responseHeadersProcessors) + headers
    {
      responseHeadersProcessors := responseHeadersProcessors + headers;
    }

    /** Every processor `build` adds from the collected bodies and headers. */
    function Responses(): seq<ProcessorAddition>
      reads this
    {
      ResponseProcessors(responseBodyProcessors, responseHeadersProcessors,
                         Max(|responseBodyProcessors|, |responseHeadersProcessors|))
    }

    /** `build(previousDefinitionPart)`: add a BodyProcessor and a HeadersProcessor per
        index, then build the part as MockDefinitionBuilder does. */
    method Build(previous: Option<MockDefinition>) returns (r: Result<MockDefinition, BuildError>, ghost cycler: Option<LenientProcessor>)
      modifies base
      ensures base.additions == old(base.additions) + Responses()
      ensures old(base.expectedMessageCount) >= 0 && old(base.lenientSelector).Some? ==>
        && cycler.Some? && fresh(cycler.value) && cycler.value.Valid()
        && cycler.value.processors == base.authoredProcessorsOf(base.additions)
        && cycler.value.messageIndex == 0
      ensures !(old(base.expectedMessageCount) >= 0 && old(base.lenientSelector).Some?) ==> cycler == old(base.lenientProcessor)
      ensures r == Merge(old(base.Configured(base.additions + Responses())).(lenientProcessor := cycler), previous)
      ensures r.Success? ==> base.Holds(r.value)
      ensures r.Failure? ==>
        base.LeftAfter(r.error, previous, cycler, old(base.Configured(base.additions + Responses())),
                       old(base.predicates), old(base.processors))
    {
      var count := Max(|responseBodyProcessors|, |responseHeadersProcessors|);
      var i := 0;
      while i < count
        invariant 0 <= i <= count
        invariant base.additions == old(base.additions) + ResponseProcessors(responseBodyProcessors, responseHeadersProcessors, i)
        modifies base`additions
      {
        if i < |responseBodyProcessors| {
          base.AddProcessors(i, BodyProcessor(responseBodyProcessors[i]));
        }
        if i < |responseHeadersProcessors| {
          base.AddProcessors(i, HeadersProcessor(responseHeadersProcessors[i]));
        }
        i := i + 1;
      }
      r, cycler := base.Build(previous);
    }
  }
}
