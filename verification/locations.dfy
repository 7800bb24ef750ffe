/** Region enumeration (`locations`) and its conversion into image-version
    replication targets (`targetRegions`). The credential chain, the
    subscriptions client and the pages of the location pager are oracle
    results. */
module Locations {
  import opened Wrappers
  import opened Arm
  import Util

  /** One page fetch of the location pager: the region names on it, or the
      error `NextPage` returned. */
  datatype Page = Page(names: seq<string>) | PageError(error: Error)

  /** What the outside world answers: the credential chain (`getCredentials`),
      `armsubscriptions.NewClient`, then the pages in pager order. */
  datatype LocationsOracle = LocationsOracle(credential: Option<Error>, client: Option<Error>, pages: seq<Page>)

  /** Reference definition: every region name of every page, in page order. */
  function AllNames(pages: seq<Page>): seq<string> {
    if pages == [] then []
    else (if pages[0].Page? then pages[0].names else []) + AllNames(pages[1..])
  }

  predicate AllPagesFetched(pages: seq<Page>) {
    forall i :: 0 <= i < |pages| ==> pages[i].Page?
  }

  /** The pager loop: the names of all pages appended in order; the first
      page error ends the loop and nothing gathered so far is returned. */
  function Paginate(pages: seq<Page>): (r: Result<seq<string>, Error>)
    ensures r.Success? <==> AllPagesFetched(pages)
    ensures r.Success? ==> r.value == AllNames(pages)
    ensures r.Failure? ==>
              exists k :: 0 <= k < |pages| && pages[k].PageError? && r.error == pages[k].error
                          && AllPagesFetched(pages[..k])
  {
    if pages == [] then Success([])
    else
      match pages[0]
      case PageError(e) =>
        assert AllPagesFetched(pages[..0]);
        Failure(e)
      case Page(names) =>
        var rest := Paginate(pages[1..]);
        assert AllPagesFetched(pages) <==> AllPagesFetched(pages[1..]) by {
          assert forall i :: 1 <= i < |pages| ==> pages[i] == pages[1..][i - 1];
        }
        if rest.Failure? then
          assert forall k :: 0 <= k < |pages| - 1 ==> pages[1..][k] == pages[k + 1];
          assert forall k :: 0 <= k < |pages| - 1 ==> pages[..k + 1] == [pages[0]] + pages[1..][..k];
          rest
        else Success(names + rest.value)
  }

  /** `locations`: credential and client failures come first and stop the
      enumeration before any page is fetched. */
  function Locations(o: LocationsOracle): (r: Result<seq<string>, Error>)
    ensures o.credential.Some? ==> r == Failure(o.credential.value)
    ensures o.credential.None? && o.client.Some? ==> r == Failure(o.client.value)
    ensures o.credential.None? && o.client.None? ==> r == Paginate(o.pages)
    ensures o.credential.None? && o.client.None? && o.pages == [] ==> r == Success([])
  {
    if o.credential.Some? then Failure(o.credential.value)
    else if o.client.Some? then Failure(o.client.value)
    else Paginate(o.pages)
  }

  /** The converter `targetRegions` hands to `sliceConvert`. */
  function ToTargetRegion(location: string): TargetRegion {
    TargetRegion(location, 1, false)
  }

  /** `targetRegions`: one target per location, same order, one replica,
      not excluded from latest; a failed enumeration yields no targets. */
  function TargetRegions(o: LocationsOracle): (r: Result<seq<TargetRegion>, Error>)
    ensures Locations(o).Failure? ==> r == Failure(Locations(o).error)
    ensures Locations(o).Success? ==>
              && r.Success?
              && |r.value| == |Locations(o).value|
              && forall i :: 0 <= i < |r.value| ==>
                   r.value[i] == TargetRegion(Locations(o).value[i], 1, false)
  {
    match Locations(o)
    case Failure(e) => Failure(e)
    case Success(locations) => Success(Util.SliceConvert(locations, ToTargetRegion))
  }

  /** A failing second page fails the whole enumeration, whatever the first
      page held. */
  lemma SecondPageFailure(first: seq<string>, e: Error, later: seq<Page>)
    ensures TargetRegions(LocationsOracle(None, None, [Page(first), PageError(e)] + later)) == Failure(e)
  {
    var pages := [Page(first), PageError(e)] + later;
    assert pages[1..] == [PageError(e)] + later;
  }

  /** The number of targets is the sum of the page sizes. */
  lemma {:induction false} AllNamesLength(pages: seq<Page>)
    ensures |AllNames(pages)| == PageSizes(pages)
  {
    if pages != [] {
      AllNamesLength(pages[1..]);
    }
  }

  function PageSizes(pages: seq<Page>): nat {
    if pages == [] then 0
    else (if pages[0].Page? then |pages[0].names| else 0) + PageSizes(pages[1..])
  }
}
