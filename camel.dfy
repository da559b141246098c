/** The Camel and morc entities the mock definitions carry but never look inside. Each is
    an uninterpreted token: matching a message, producing a response and routing are the
    business of Camel and of morc's processor classes, none of which is part of this model. */
module Camel {

  /** An org.apache.camel.Predicate. `MatchAll` is the anonymous predicate that
      `lenient()` installs, which matches every exchange. */
  datatype Predicate = MatchAll | Predicate(id: nat)

  /** A response body handed to `responseBody(...)`. */
  datatype Body = Body(id: nat)

  /** One header value of a `Map<String, Object>` handed to `responseHeaders(...)`. */
  datatype HeaderValue = HeaderValue(id: nat)

  type Headers = map<string, HeaderValue>

  /** An org.apache.camel.Processor: an authored one, or morc's BodyProcessor and
      HeadersProcessor, which set the response body or headers they were built from. */
  datatype Processor =
    | Processor(id: nat)
    | BodyProcessor(body: Body)
    | HeadersProcessor(headers: Headers)

  /** A step of a Camel route; `ConvertBodyToString` is `convertBodyTo(String.class)`. */
  datatype RouteStep = ConvertBodyToString | RouteStep(id: nat)

  /** A Camel RouteDefinition, as the endpoint URIs it consumes from and its steps. */
  datatype RouteDefinition = RouteDefinition(inputs: seq<string>, steps: seq<RouteStep>)

  /** The feeder route created when the first part supplies none:
      `new RouteDefinition().convertBodyTo(String.class)`. */
  function DefaultFeederRoute(): RouteDefinition {
    RouteDefinition([], [ConvertBodyToString])
  }

  /** `route.from(uri)`: the route also consumes from `uri`. */
  function From(route: RouteDefinition, uri: string): RouteDefinition {
    route.(inputs := route.inputs + [uri])
  }

  /** An EndpointOverride, carried from the builder to the definition untouched. */
  datatype EndpointOverride = EndpointOverride(id: nat)
}
