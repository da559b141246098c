/** The parts of one endpoint folded through `build` in the order they were authored:
    each part is built with the definition merged from the parts before it, the first
    with none. What the final definition holds, and when the fold fails at all. */
module MergeFold {
  import opened Wrappers
  import opened JavaInt
  import opened Camel
  import opened Mock

  function Last<T>(s: seq<T>): T
    requires |s| > 0
  {
    s[|s| - 1]
  }

  /** The outcome of building `parts` one after another, stopping at the first error. */
  function MergeAll(parts: seq<Part>): Result<MockDefinition, BuildError>
    requires |parts| > 0
    decreases |parts|
  {
    if |parts| == 1 then Merge(parts[0], None)
    else
      match MergeAll(parts[..|parts| - 1])
      case Failure(e) => Failure(e)
      case Success(d) => Merge(Last(parts), Some(d))
  }

  /** Every part's own predicates, earliest part first. */
  function AllPredicates(parts: seq<Part>): seq<Predicate>
    decreases |parts|
  {
    if parts == [] then [] else AllPredicates(parts[..|parts| - 1]) + PartPredicates(Last(parts))
  }

  /** Every part's own processors, earliest part first. */
  function AllProcessors(parts: seq<Part>): seq<Processor>
    decreases |parts|
  {
    if parts == [] then [] else AllProcessors(parts[..|parts| - 1]) + PartProcessors(Last(parts))
  }

  /** The exact sum of the parts' message counts, lenient parts counting 0. */
  function TotalCount(parts: seq<Part>): int
    decreases |parts|
  {
    if parts == [] then 0 else TotalCount(parts[..|parts| - 1]) + PartCount(Last(parts))
  }

  /** Two parts name the same endpoint with the same ordering settings. */
  predicate SameEndpoint(a: Part, b: Part) {
    a.endpointUri == b.endpointUri && a.isEndpointOrdered == b.isEndpointOrdered && a.orderingType == b.orderingType
  }

  /** The rules `build` enforces, stated over the whole list of parts: no negative count,
      one endpoint with one ordering, a feeder route on the first part only, and at most
      one lenient part. */
  predicate Compatible(parts: seq<Part>)
    requires |parts| > 0
  {
    && (forall i :: 0 <= i < |parts| ==> parts[i].expectedMessageCount >= 0)
    && (forall i :: 0 < i < |parts| ==> SameEndpoint(parts[0], parts[i]) && parts[i].mockFeederRoute.None?)
    && (forall i, j :: 0 <= i < j < |parts| ==> !(parts[i].IsLenient() && parts[j].IsLenient()))
  }

  /** Some part is lenient. */
  predicate AnyLenient(parts: seq<Part>) {
    exists i :: 0 <= i < |parts| && parts[i].IsLenient()
  }

  /** Compatibility of a longer list, one part at a time: the earlier parts are compatible
      and the last part keeps the rules with them. */
  lemma CompatibleSnoc(parts: seq<Part>)
    requires |parts| > 1
    ensures Compatible(parts) <==>
      && Compatible(parts[..|parts| - 1])
      && Last(parts).expectedMessageCount >= 0
      && SameEndpoint(parts[0], Last(parts)) && Last(parts).mockFeederRoute.None?
      && !(Last(parts).IsLenient() && AnyLenient(parts[..|parts| - 1]))
  {
    var front := parts[..|parts| - 1];
    assert forall i :: 0 <= i < |front| ==> front[i] == parts[i];
    if !Compatible(front) {
      if exists i :: 0 <= i < |front| && front[i].expectedMessageCount < 0 {
      } else if exists i :: 0 < i < |front| && !(SameEndpoint(front[0], front[i]) && front[i].mockFeederRoute.None?) {
      } else {
        var i, j :| 0 <= i < j < |front| && front[i].IsLenient() && front[j].IsLenient();
        assert parts[i].IsLenient() && parts[j].IsLenient();
      }
    }
  }

  /** What a fold that succeeded holds: the first part's endpoint, ordering, feeder route
      and assertion time; all parts' lists in authoring order; the wrapped sum of their
      counts; the lenient selector and processor of the lenient part if there is one. */
  ghost predicate Folded(parts: seq<Part>, d: MockDefinition)
    requires |parts| > 0
  {
    && d.endpointUri == parts[0].endpointUri
    && d.isEndpointOrdered == parts[0].isEndpointOrdered
    && d.orderingType == parts[0].orderingType
    && d.predicates == AllPredicates(parts)
    && d.processors == AllProcessors(parts)
    && d.expectedMessageCount == Wrap32(TotalCount(parts))
    && d.mockFeederRoute == Some(From(parts[0].mockFeederRoute.GetOr(DefaultFeederRoute()), parts[0].endpointUri))
    && d.assertionTime == parts[0].assertionTime
    && d.endpointOverrides == Last(parts).endpointOverrides
    && (forall i :: 0 <= i < |parts| && parts[i].IsLenient() ==>
          d.lenientSelector == parts[i].lenientSelector && d.lenientProcessor == parts[i].lenientProcessor)
    && ((forall i :: 0 <= i < |parts| ==> !parts[i].IsLenient()) ==>
          d.lenientSelector.None? && d.lenientProcessor == Last(parts).lenientProcessor)
  }

  /** The fold succeeds exactly when the parts are compatible, and then its definition is
      the one `Folded` describes: the runtime can treat it as if authored as one part. */
  lemma {:induction false} MergeAllSpec(parts: seq<Part>)
    requires |parts| > 0
    ensures MergeAll(parts).Success? <==> Compatible(parts)
    ensures MergeAll(parts).Success? ==> Folded(parts, MergeAll(parts).value)
  {
    var n := |parts|;
    if n == 1 {
      assert AllPredicates(parts) == PartPredicates(parts[0]) by { assert parts[..0] == []; }
      assert AllProcessors(parts) == PartProcessors(parts[0]) by { assert parts[..0] == []; }
      assert TotalCount(parts) == PartCount(parts[0]) by { assert parts[..0] == []; }
    } else {
      var front, p := parts[..n - 1], Last(parts);
      MergeAllSpec(front);
      CompatibleSnoc(parts);
      assert front[0] == parts[0];
      match MergeAll(front)
      case Failure(e) =>
      case Success(d) =>
        assert d.IsLenient() <==> AnyLenient(front);
        if MergeAll(parts).Success? {
          FoldedSnoc(parts, d, MergeAll(parts).value);
        }
    }
  }

  /** One more part folded into a definition that `Folded` describes keeps it so. */
  lemma FoldedSnoc(parts: seq<Part>, d: MockDefinition, r: MockDefinition)
    requires |parts| > 1 && Folded(parts[..|parts| - 1], d)
    requires Merge(Last(parts), Some(d)) == Success(r)
    ensures Folded(parts, r)
  {
    var n, front, p := |parts|, parts[..|parts| - 1], Last(parts);
    assert front[0] == parts[0];
    assert forall i :: 0 <= i < n - 1 ==> front[i] == parts[i];
    Wrap32Absorbs(TotalCount(front), PartCount(p));
    assert r.expectedMessageCount == Wrap32(TotalCount(parts));
    assert r.predicates == AllPredicates(parts);
    assert r.processors == AllProcessors(parts);
  }
}
