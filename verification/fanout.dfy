/**
 * The nested read shared by `getTrainingDays` and `getTemplateComplete`:
 * one query for the parent rows, then one query per parent for its child
 * rows, joined all-or-nothing (`Promise.all`): any failed child query
 * aborts the whole aggregate.
 *
 * `Promise.all` runs the child queries concurrently and rejects with the
 * first rejection in time; here they are taken in parent order, and the
 * contract only promises that the reported error is the error of some
 * failed child query, which holds whatever the timing.
 */
module FanOut {
  import opened Backend

  /** A parent row spread together with its fetched children (`{ ...day, exercises }`). */
  datatype Nested<P, C> = Nested(parent: P, children: seq<C>)

  /** Every per-parent child query, keyed by the parent's id, succeeded. */
  predicate AllFetched<P, C>(parents: seq<P>, key: P -> Id, fetch: Id -> ListResponse<C>)
  {
    forall i :: 0 <= i < |parents| ==> fetch(key(parents[i])).Ok?
  }

  /** The children the query for `p` returned (`data || []`); meaningful when it succeeded. */
  function ChildrenOf<P, C>(p: P, key: P -> Id, fetch: Id -> ListResponse<C>): seq<C>
  {
    match fetch(key(p))
    case Ok(data) => OrEmpty(data)
    case Fail(_) => []
  }

  /**
   * Joins every parent with its children: exactly one entry per parent, in
   * the parents' order, or the error of a failed child query.
   */
  function NestAll<P, C>(parents: seq<P>, key: P -> Id, fetch: Id -> ListResponse<C>): (r: Result<seq<Nested<P, C>>>)
    ensures r.Ok? <==> AllFetched(parents, key, fetch)
    ensures r.Ok? ==> |r.value| == |parents|
    ensures r.Ok? ==> forall i :: 0 <= i < |parents| ==>
      r.value[i] == Nested(parents[i], ChildrenOf(parents[i], key, fetch))
    ensures r.Fail? ==> exists i :: 0 <= i < |parents| && fetch(key(parents[i])) == Fail(r.err)
    decreases |parents|
  {
    if |parents| == 0 then Ok([])
    else
      match fetch(key(parents[0]))
      case Fail(e) => Fail(e)
      case Ok(data) =>
        match NestAll(parents[1..], key, fetch)
        case Fail(e) => Fail(e)
        case Ok(rest) => Ok([Nested(parents[0], OrEmpty(data))] + rest)
  }

  /** `xs` is sorted ascending by `rank` (the server's `.order(...)`). */
  predicate Ordered<T>(xs: seq<T>, rank: T -> int)
  {
    forall i, j :: 0 <= i < j < |xs| ==> rank(xs[i]) <= rank(xs[j])
  }

  /**
   * The join keeps the server's ordering: parents stay in their order, and
   * every parent's children stay in theirs.
   */
  lemma NestAllKeepsOrder<P, C>(parents: seq<P>, key: P -> Id, fetch: Id -> ListResponse<C>,
                                parentRank: P -> int, childRank: C -> int)
    requires Ordered(parents, parentRank)
    requires forall id :: fetch(id).Ok? ==> Ordered(OrEmpty(fetch(id).value), childRank)
    requires NestAll(parents, key, fetch).Ok?
    ensures var r := NestAll(parents, key, fetch).value;
      && (forall i, j :: 0 <= i < j < |r| ==> parentRank(r[i].parent) <= parentRank(r[j].parent))
      && (forall i :: 0 <= i < |r| ==> Ordered(r[i].children, childRank))
  {
  }

  /** A parent whose child query found nothing is kept, with an empty list. */
  lemma ChildlessParentKept<P, C>(parents: seq<P>, key: P -> Id, fetch: Id -> ListResponse<C>, i: int)
    requires 0 <= i < |parents|
    requires fetch(key(parents[i])) == Ok(Some([])) || fetch(key(parents[i])) == Ok(None)
    requires NestAll(parents, key, fetch).Ok?
    ensures |NestAll(parents, key, fetch).value| == |parents|
    ensures NestAll(parents, key, fetch).value[i] == Nested(parents[i], [])
  {
  }
}
