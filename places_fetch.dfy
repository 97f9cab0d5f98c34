/** `fetch_healthcare_data_google` (app.py:115-201): query the Places API once per care type,
    follow its pages, and turn every result into a facility record annotated with its
    Medicaid support.

    The HTTP calls are abstracted as `server`, which gives, for a Places type, the sequence
    of response pages the API returns for that type at the call's fixed location and radius.
    Pagination stops at a response whose status is not 200 (its status is reported, as
    `st.error` does), at a page without a next-page token, or when the sequence ends. */
module PlacesFetch {
  import opened Wrappers
  import opened Seqs
  import opened CareTypes
  import opened MedicaidMatch

  /** One element of a response's `results` list; a field the result may lack is an Option.
      The coordinates are already rounded to five places. `openNow` is
      `opening_hours.open_now`, None when either level is missing. */
  datatype PlaceResult = PlaceResult(
    name: Option<string>,
    vicinity: Option<string>,
    latitude: Fixed5,
    longitude: Fixed5,
    rating: Option<real>,
    userRatingsTotal: Option<int>,
    openNow: Option<bool>,
    wheelchairAccessibleEntrance: Option<bool>,
    types: Option<seq<string>>)

  /** One HTTP response of the Places API. */
  datatype Page = Page(status: int, results: seq<PlaceResult>, nextPageToken: Option<string>)

  /** The record appended to `facilities`. A missing rating ("No rating") is None, and a
      missing `open_now` ("Unknown") is None. */
  datatype Facility = Facility(
    name: string,
    address: string,
    latitude: Fixed5,
    longitude: Fixed5,
    rating: Option<real>,
    userRatingsTotal: int,
    openNow: Option<bool>,
    wheelchairAccessibleEntrance: bool,
    medicaidSupported: bool)

  /** The `ValueError` raised when no Medicaid table is given. */
  datatype FetchError = MissingMedicaidData

  /** The open-only skip: with `open_only` set, a result is kept only when `open_now` is true. */
  predicate PassesOpenFilter(res: PlaceResult, openOnly: bool) {
    !openOnly || res.openNow == Some(true)
  }

  function OpenFilter(openOnly: bool): PlaceResult -> bool {
    res => PassesOpenFilter(res, openOnly)
  }

  /** A truthy next-page token: present and not empty. */
  predicate HasNextPage(page: Page) {
    page.nextPageToken.Some? && page.nextPageToken.value != ""
  }

  /** The dictionary built for one result: a missing name becomes "Unknown", a missing
      vicinity "N/A", a missing review count 0 and a missing wheelchair flag false; a missing
      rating ("No rating") and a missing `open_now` ("Unknown") stay None. */
  function ToRecord(res: PlaceResult, rows: seq<ProviderRow>): Facility {
    Facility(
      res.name.GetOr("Unknown"),
      res.vicinity.GetOr("N/A"),
      res.latitude,
      res.longitude,
      res.rating,
      res.userRatingsTotal.GetOr(0),
      res.openNow,
      res.wheelchairAccessibleEntrance.GetOr(false),
      MedicaidSupported(res.types.GetOr([]), res.latitude, res.longitude, rows))
  }

  /** The records of a list of results: one per result, in the same order. */
  function Records(results: seq<PlaceResult>, rows: seq<ProviderRow>): (r: seq<Facility>) {
    seq(|results|, i requires 0 <= i < |results| => ToRecord(results[i], rows))
  }

  /** The records appended while walking one page's results, defined on the prefix walked so far. */
  function AnnotatePage(results: seq<PlaceResult>, openOnly: bool, rows: seq<ProviderRow>): seq<Facility> {
    if results == [] then []
    else
      var last := results[|results| - 1];
      AnnotatePage(results[..|results| - 1], openOnly, rows) +
      (if PassesOpenFilter(last, openOnly) then [ToRecord(last, rows)] else [])
  }

  /** The records appended for one query type, following its pages. */
  function PageRecords(pages: seq<Page>, openOnly: bool, rows: seq<ProviderRow>): seq<Facility> {
    if pages == [] || pages[0].status != 200 then []
    else
      AnnotatePage(pages[0].results, openOnly, rows) +
      (if HasNextPage(pages[0]) then PageRecords(pages[1..], openOnly, rows) else [])
  }

  /** The status codes reported for one query type: at most one, since the first failed
      response ends its pagination. */
  function QueryErrors(pages: seq<Page>): (r: seq<int>)
    ensures |r| <= 1
    ensures forall i :: 0 <= i < |r| ==> r[i] != 200
  {
    if pages == [] then []
    else if pages[0].status != 200 then [pages[0].status]
    else if HasNextPage(pages[0]) then QueryErrors(pages[1..])
    else []
  }

  /** The records of the query types walked so far, grouped by type in `types` order. */
  function AllRecords(types: seq<string>, server: string -> seq<Page>, openOnly: bool, rows: seq<ProviderRow>): seq<Facility> {
    if types == [] then []
    else
      AllRecords(types[..|types| - 1], server, openOnly, rows) +
      PageRecords(server(types[|types| - 1]), openOnly, rows)
  }

  /** The status codes reported for the query types walked so far. */
  function AllErrors(types: seq<string>, server: string -> seq<Page>): (r: seq<int>)
    ensures |r| <= |types|
  {
    if types == [] then []
    else AllErrors(types[..|types| - 1], server) + QueryErrors(server(types[|types| - 1]))
  }

  /** What the whole call returns: a `ValueError` before any query when the Medicaid table
      is absent, otherwise every record of every query type. */
  function Fetch(careType: CareValue, openOnly: bool, medicaidData: Option<seq<ProviderRow>>,
                 server: string -> seq<Page>): Result<seq<Facility>, FetchError> {
    match medicaidData
    case None => Failure(MissingMedicaidData)
    case Some(rows) => Success(AllRecords(TypesToQuery(careType), server, openOnly, rows))
  }

  /** The status codes the call reports with `st.error`; none when it fails before querying. */
  function FetchErrors(careType: CareValue, medicaidData: Option<seq<ProviderRow>>,
                       server: string -> seq<Page>): seq<int> {
    if medicaidData.None? then [] else AllErrors(TypesToQuery(careType), server)
  }

  /** The loop of `fetch_healthcare_data_google`: `facilities` grows by one record per kept
      result, page by page, query type by query type. */
  method FetchHealthcareData(careType: CareValue, openOnly: bool, medicaidData: Option<seq<ProviderRow>>,
                             server: string -> seq<Page>)
    returns (r: Result<seq<Facility>, FetchError>, reported: seq<int>)
    ensures r == Fetch(careType, openOnly, medicaidData, server)
    ensures reported == FetchErrors(careType, medicaidData, server)
    ensures r.Failure? <==> medicaidData.None?
    ensures medicaidData.None? ==> reported == []
  {
    if medicaidData.None? {
      return Failure(MissingMedicaidData), [];
    }
    var rows := medicaidData.value;
    var typesToQuery := TypesToQuery(careType);
    var facilities: seq<Facility> := [];
    reported := [];
    for i := 0 to |typesToQuery|
      invariant facilities == AllRecords(typesToQuery[..i], server, openOnly, rows)
      invariant reported == AllErrors(typesToQuery[..i], server)
    {
      ghost var walked := typesToQuery[..i + 1];
      assert walked[..|walked| - 1] == typesToQuery[..i] && walked[|walked| - 1] == typesToQuery[i];
      var pages := server(typesToQuery[i]);
      facilities, reported := FollowPages(facilities, reported, pages, openOnly, rows);
      assert AllRecords(walked, server, openOnly, rows) == AllRecords(typesToQuery[..i], server, openOnly, rows) + PageRecords(pages, openOnly, rows);
      assert AllErrors(walked, server) == AllErrors(typesToQuery[..i], server) + QueryErrors(pages);
    }
    assert typesToQuery[..|typesToQuery|] == typesToQuery;
    r := Success(facilities);
  }

  /** The `while True` loop for one query type: walk the pages until a failed response or a
      page without a next-page token. */
  method FollowPages(facilities: seq<Facility>, reported: seq<int>, pages: seq<Page>, openOnly: bool, rows: seq<ProviderRow>)
    returns (facilities': seq<Facility>, reported': seq<int>)
    ensures facilities' == facilities + PageRecords(pages, openOnly, rows)
    ensures reported' == reported + QueryErrors(pages)
  {
    facilities', reported' := facilities, reported;
    ghost var target := facilities + PageRecords(pages, openOnly, rows);
    ghost var targetErrors := reported + QueryErrors(pages);
    var k := 0;
    while k < |pages|
      invariant 0 <= k <= |pages|
      invariant facilities' + PageRecords(pages[k..], openOnly, rows) == target
      invariant reported' + QueryErrors(pages[k..]) == targetErrors
    {
      var page := pages[k];
      PagesStep(pages, k, openOnly, rows);
      if page.status != 200 {
        reported' := reported' + [page.status];
        break;
      }
      ghost var before := facilities';
      ghost var added := AnnotatePage(page.results, openOnly, rows);
      facilities' := AppendPage(facilities', page.results, openOnly, rows);
      if !HasNextPage(page) {
        break;
      }
      assert before + (added + PageRecords(pages[k + 1..], openOnly, rows)) == facilities' + PageRecords(pages[k + 1..], openOnly, rows);
      k := k + 1;
    }
  }

  /** One step of pagination: a failed response ends it with its status reported, a
      successful one contributes its records and continues only with a next-page token. */
  lemma PagesStep(pages: seq<Page>, k: nat, openOnly: bool, rows: seq<ProviderRow>)
    requires k < |pages|
    ensures pages[k].status != 200 ==>
      PageRecords(pages[k..], openOnly, rows) == [] && QueryErrors(pages[k..]) == [pages[k].status]
    ensures pages[k].status == 200 && !HasNextPage(pages[k]) ==>
      PageRecords(pages[k..], openOnly, rows) == AnnotatePage(pages[k].results, openOnly, rows) && QueryErrors(pages[k..]) == []
    ensures pages[k].status == 200 && HasNextPage(pages[k]) ==>
      && PageRecords(pages[k..], openOnly, rows) == AnnotatePage(pages[k].results, openOnly, rows) + PageRecords(pages[k + 1..], openOnly, rows)
      && QueryErrors(pages[k..]) == QueryErrors(pages[k + 1..])
  {
  }

  /** The `for result in data.get("results", [])` loop: append one record per result that
      passes the open-only filter. */
  method AppendPage(facilities: seq<Facility>, results: seq<PlaceResult>, openOnly: bool, rows: seq<ProviderRow>)
    returns (facilities': seq<Facility>)
    ensures facilities' == facilities + AnnotatePage(results, openOnly, rows)
  {
    facilities' := facilities;
    for j := 0 to |results|
      invariant facilities' == facilities + AnnotatePage(results[..j], openOnly, rows)
    {
      assert results[..j + 1][..j] == results[..j];
      var result := results[j];
      if !PassesOpenFilter(result, openOnly) {
        continue;
      }
      facilities' := facilities' + [ToRecord(result, rows)];
    }
    assert results[..|results|] == results;
  }

  // Properties of the specification

  lemma {:induction false} RecordsConcat(a: seq<PlaceResult>, b: seq<PlaceResult>, rows: seq<ProviderRow>)
    ensures Records(a + b, rows) == Records(a, rows) + Records(b, rows)
  {
  }

  /** Walking a page keeps exactly the results that pass the open-only filter and annotates
      them in their original order. */
  lemma {:induction false} AnnotatePageIsKeepThenRecord(results: seq<PlaceResult>, openOnly: bool, rows: seq<ProviderRow>)
    ensures AnnotatePage(results, openOnly, rows) == Records(Keep(results, OpenFilter(openOnly)), rows)
  {
    if results != [] {
      var init, last := results[..|results| - 1], results[|results| - 1];
      assert results == init + [last];
      AnnotatePageIsKeepThenRecord(init, openOnly, rows);
      KeepConcat(init, [last], OpenFilter(openOnly));
      assert [last][1..] == [];
      RecordsConcat(Keep(init, OpenFilter(openOnly)), Keep([last], OpenFilter(openOnly)), rows);
    }
  }

  /** Without open-only, a page yields exactly one record per result, the i-th record
      annotating the i-th result. */
  lemma OneRecordPerResult(results: seq<PlaceResult>, rows: seq<ProviderRow>)
    ensures |AnnotatePage(results, false, rows)| == |results|
    ensures forall i :: 0 <= i < |results| ==> AnnotatePage(results, false, rows)[i] == ToRecord(results[i], rows)
  {
  }

  /** The records of a list of query types are those of each type, concatenated in order. */
  lemma {:induction false} AllRecordsConcat(a: seq<string>, b: seq<string>, server: string -> seq<Page>,
                                            openOnly: bool, rows: seq<ProviderRow>)
    ensures AllRecords(a + b, server, openOnly, rows) == AllRecords(a, server, openOnly, rows) + AllRecords(b, server, openOnly, rows)
    decreases |b|
  {
    if b == [] {
      assert a + b == a;
    } else {
      var init, last := b[..|b| - 1], b[|b| - 1];
      var ab := a + b;
      assert ab[..|ab| - 1] == a + init && ab[|ab| - 1] == last;
      var tail := PageRecords(server(last), openOnly, rows);
      calc {
        AllRecords(ab, server, openOnly, rows);
        AllRecords(a + init, server, openOnly, rows) + tail;
        { AllRecordsConcat(a, init, server, openOnly, rows); }
        AllRecords(a, server, openOnly, rows) + AllRecords(init, server, openOnly, rows) + tail;
        AllRecords(a, server, openOnly, rows) + AllRecords(b, server, openOnly, rows);
      }
    }
  }

  /** A property every kept result's record has is shared by every record of the call. */
  lemma {:induction false} AllRecordsSatisfy(types: seq<string>, server: string -> seq<Page>, openOnly: bool,
                                             rows: seq<ProviderRow>, P: Facility -> bool)
    requires forall res :: PassesOpenFilter(res, openOnly) ==> P(ToRecord(res, rows))
    ensures forall i :: 0 <= i < |AllRecords(types, server, openOnly, rows)| ==> P(AllRecords(types, server, openOnly, rows)[i])
  {
    if types != [] {
      AllRecordsSatisfy(types[..|types| - 1], server, openOnly, rows, P);
      PageRecordsSatisfy(server(types[|types| - 1]), openOnly, rows, P);
    }
  }

  lemma {:induction false} PageRecordsSatisfy(pages: seq<Page>, openOnly: bool, rows: seq<ProviderRow>, P: Facility -> bool)
    requires forall res :: PassesOpenFilter(res, openOnly) ==> P(ToRecord(res, rows))
    ensures forall i :: 0 <= i < |PageRecords(pages, openOnly, rows)| ==> P(PageRecords(pages, openOnly, rows)[i])
  {
    if pages != [] && pages[0].status == 200 {
      AnnotatePageSatisfies(pages[0].results, openOnly, rows, P);
      if HasNextPage(pages[0]) {
        PageRecordsSatisfy(pages[1..], openOnly, rows, P);
      }
    }
  }

  lemma {:induction false} AnnotatePageSatisfies(results: seq<PlaceResult>, openOnly: bool, rows: seq<ProviderRow>, P: Facility -> bool)
    requires forall res :: PassesOpenFilter(res, openOnly) ==> P(ToRecord(res, rows))
    ensures forall i :: 0 <= i < |AnnotatePage(results, openOnly, rows)| ==> P(AnnotatePage(results, openOnly, rows)[i])
  {
    if results != [] {
      AnnotatePageSatisfies(results[..|results| - 1], openOnly, rows, P);
    }
  }

  /** With open-only set, every record returned is of a place reported open now. */
  lemma OpenOnlyReturnsOpenPlaces(careType: CareValue, openOnly: bool, medicaidData: Option<seq<ProviderRow>>, server: string -> seq<Page>)
    requires medicaidData.Some?
    ensures openOnly ==> forall f :: f in Fetch(careType, openOnly, medicaidData, server).value ==> f.openNow == Some(true)
  {
    AllRecordsSatisfy(TypesToQuery(careType), server, openOnly, medicaidData.value, (f: Facility) => openOnly ==> f.openNow == Some(true));
  }

  /** With an empty Medicaid table, no record returned is Medicaid-supported. */
  lemma EmptyTableNoRecordSupported(careType: CareValue, openOnly: bool, server: string -> seq<Page>)
    ensures forall f :: f in Fetch(careType, openOnly, Some([]), server).value ==> !f.medicaidSupported
  {
    AllRecordsSatisfy(TypesToQuery(careType), server, openOnly, [], (f: Facility) => !f.medicaidSupported);
  }

  /** A single successful last page of results, without open-only, returns one record per
      result in API order. */
  lemma SinglePageKeepsOrder(placeType: string, results: seq<PlaceResult>, rows: seq<ProviderRow>, server: string -> seq<Page>)
    requires server(placeType) == [Page(200, results, None)]
    ensures Fetch(Single(placeType), false, Some(rows), server) == Success(Records(results, rows))
  {
    AnnotatePageIsKeepThenRecord(results, false, rows);
    KeepAll(results, OpenFilter(false));
    var types := [placeType];
    assert types[..0] == [] && types[0] == placeType;
    var pages := [Page(200, results, None)];
    assert PageRecords(pages, false, rows) == AnnotatePage(results, false, rows) + [];
    assert AllRecords(types, server, false, rows) == AllRecords([], server, false, rows) + PageRecords(pages, false, rows);
    assert TypesToQuery(Single(placeType)) == types;
    assert AllRecords(types, server, false, rows) == Records(results, rows);
  }
}
