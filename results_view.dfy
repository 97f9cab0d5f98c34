/** What the search button does with the fetched records (app.py:451-474) and how the map
    colours each record's marker (app.py:519-528). */
module ResultsView {
  import opened Wrappers
  import opened Seqs
  import opened CareTypes
  import opened MedicaidMatch
  import opened PlacesFetch

  predicate IsMedicaidSupported(f: Facility) {
    f.medicaidSupported
  }

  predicate IsWheelchairAccessible(f: Facility) {
    f.wheelchairAccessibleEntrance
  }

  /** The `KeyError` pandas raises when a column is selected from a frame that lacks it. */
  datatype FilterError = KeyError(column: string)

  /** The two caller-side filters as app.py:466-470 writes them. A frame built from an empty
      list has no columns: the Medicaid filter checks for its column first, the wheelchair
      filter does not, and so raises on an empty search. */
  function ApplyFiltersAsWritten(fetched: seq<Facility>, medicaidOnly: bool, wheelchairOnly: bool): (r: Result<seq<Facility>, FilterError>)
    ensures r.Failure? <==> wheelchairOnly && fetched == []
  {
    var hasColumns := fetched != [];
    var afterMedicaid := if medicaidOnly && hasColumns then Keep(fetched, IsMedicaidSupported) else fetched;
    if wheelchairOnly then
      if hasColumns then Success(Keep(afterMedicaid, IsWheelchairAccessible))
      else Failure(KeyError("wheelchair_accessible_entrance"))
    else Success(afterMedicaid)
  }

  /** The filters as evidently intended: keep exactly the records whose selected flags hold,
      in their original order, and never fail. */
  function ApplyFilters(fetched: seq<Facility>, medicaidOnly: bool, wheelchairOnly: bool): (r: seq<Facility>)
    ensures |r| <= |fetched|
    ensures forall i :: 0 <= i < |r| ==>
              && r[i] in fetched
              && (medicaidOnly ==> r[i].medicaidSupported)
              && (wheelchairOnly ==> r[i].wheelchairAccessibleEntrance)
    ensures forall i | 0 <= i < |fetched| ::
              (medicaidOnly ==> fetched[i].medicaidSupported) && (wheelchairOnly ==> fetched[i].wheelchairAccessibleEntrance)
              ==> fetched[i] in r
  {
    var afterMedicaid := if medicaidOnly then Keep(fetched, IsMedicaidSupported) else fetched;
    assert forall i :: 0 <= i < |fetched| && (medicaidOnly ==> fetched[i].medicaidSupported) ==> fetched[i] in afterMedicaid;
    if wheelchairOnly then Keep(afterMedicaid, IsWheelchairAccessible) else afterMedicaid
  }

  /** The written filters agree with the intended ones on every input except an empty search
      with the wheelchair filter on. */
  lemma AsWrittenDiffersOnlyOnEmptyWheelchair(fetched: seq<Facility>, medicaidOnly: bool, wheelchairOnly: bool)
    ensures ApplyFiltersAsWritten(fetched, medicaidOnly, wheelchairOnly) ==
      if wheelchairOnly && fetched == [] then Failure(KeyError("wheelchair_accessible_entrance"))
      else Success(ApplyFilters(fetched, medicaidOnly, wheelchairOnly))
  {
  }

  /** The counterexample: no facility found and the wheelchair box ticked. */
  lemma EmptyWheelchairSearchRaises()
    ensures ApplyFiltersAsWritten([], false, true).Failure?
    ensures ApplyFilters([], false, true) == []
  {
  }

  /** Filtering preserves order: the filtered records of two concatenated lists are the
      filtered records of each, concatenated. */
  lemma FiltersPreserveOrder(a: seq<Facility>, b: seq<Facility>, medicaidOnly: bool, wheelchairOnly: bool)
    ensures ApplyFilters(a + b, medicaidOnly, wheelchairOnly) ==
            ApplyFilters(a, medicaidOnly, wheelchairOnly) + ApplyFilters(b, medicaidOnly, wheelchairOnly)
  {
    KeepConcat(a, b, IsMedicaidSupported);
    var m := if medicaidOnly then Keep(a, IsMedicaidSupported) else a;
    var n := if medicaidOnly then Keep(b, IsMedicaidSupported) else b;
    KeepConcat(m, n, IsWheelchairAccessible);
  }

  /** The two filters can be applied in either order, and applying them again changes nothing. */
  lemma FiltersCommuteAndSettle(fetched: seq<Facility>)
    ensures Keep(Keep(fetched, IsMedicaidSupported), IsWheelchairAccessible) ==
            Keep(Keep(fetched, IsWheelchairAccessible), IsMedicaidSupported)
    ensures ApplyFilters(ApplyFilters(fetched, true, true), true, true) == ApplyFilters(fetched, true, true)
  {
    var both := ApplyFilters(fetched, true, true);
    KeepCommutes(fetched, IsMedicaidSupported, IsWheelchairAccessible);
    KeepAll(both, IsMedicaidSupported);
    KeepAll(both, IsWheelchairAccessible);
  }

  /** What the search button can fail with: the fetch's `ValueError` or the filters' `KeyError`. */
  datatype SearchError = FetchFailed(fetchError: FetchError) | FilterFailed(filterError: FilterError)

  /** The value passed to the fetch for the user's selection, issue and classifier answer. */
  function SearchCareValue(selected: string, issue: string, classifierAnswer: string): CareValue {
    SelectedCareValue(ResolveCareType(selected, issue, classifierAnswer))
  }

  /** The search button as written: resolve the care type, fetch, and apply the filters of
      app.py:466-470, including the `KeyError` of an empty search with the wheelchair filter on. */
  function Search(selected: string, issue: string, classifierAnswer: string, openOnly: bool,
                  medicaidOnly: bool, wheelchairOnly: bool,
                  medicaidData: Option<seq<ProviderRow>>, server: string -> seq<Page>): (r: Result<seq<Facility>, SearchError>)
    ensures medicaidData.None? ==> r == Failure(FetchFailed(MissingMedicaidData))
    ensures medicaidData.Some? ==>
      var fetched := Fetch(SearchCareValue(selected, issue, classifierAnswer), openOnly, medicaidData, server).value;
      && (r.Failure? <==> wheelchairOnly && fetched == [])
      && (r.Failure? ==> r == Failure(FilterFailed(KeyError("wheelchair_accessible_entrance"))))
      && (r.Success? ==> r.value == ApplyFilters(fetched, medicaidOnly, wheelchairOnly))
    ensures r.Success? ==> forall i :: 0 <= i < |r.value| ==>
      && (openOnly ==> r.value[i].openNow == Some(true))
      && (medicaidOnly ==> r.value[i].medicaidSupported)
      && (wheelchairOnly ==> r.value[i].wheelchairAccessibleEntrance)
  {
    var value := SearchCareValue(selected, issue, classifierAnswer);
    match Fetch(value, openOnly, medicaidData, server)
    case Failure(e) => Failure(FetchFailed(e))
    case Success(fetched) =>
      OpenOnlyReturnsOpenPlaces(value, openOnly, medicaidData, server);
      AsWrittenDiffersOnlyOnEmptyWheelchair(fetched, medicaidOnly, wheelchairOnly);
      match ApplyFiltersAsWritten(fetched, medicaidOnly, wheelchairOnly)
      case Failure(e) => Failure(FilterFailed(e))
      case Success(shown) => Success(shown)
  }

  /** The colour of a facility's map marker. */
  datatype MarkerColour = Green | Blue | Orange | Yellow | Gray

  /** The if/elif chain: a missing or zero rating stays gray, otherwise the first threshold met. */
  function RatingColour(rating: Option<real>): (c: MarkerColour)
    ensures c == Green <==> rating.Some? && rating.value >= 4.0
    ensures c == Blue <==> rating.Some? && 3.0 <= rating.value < 4.0
    ensures c == Orange <==> rating.Some? && 2.0 <= rating.value < 3.0
    ensures c == Yellow <==> rating.Some? && 1.0 <= rating.value < 2.0
    ensures c == Gray <==> rating.None? || rating.value < 1.0
  {
    if rating.Some? && rating.value != 0.0 then
      var x := rating.value;
      if x >= 4.0 then Green
      else if x >= 3.0 then Blue
      else if x >= 2.0 then Orange
      else if x >= 1.0 then Yellow
      else Gray
    else Gray
  }

  /** The legend's bands, one per whole star: "Unrated or 0-1 Stars" up to "4-5 Stars". */
  const LegendBands: seq<MarkerColour> := [Gray, Yellow, Orange, Blue, Green]

  /** The legend's reading of a rating: its whole number of stars, clamped to the bands. */
  function LegendColour(rating: Option<real>): MarkerColour {
    match rating
    case None => Gray
    case Some(x) => LegendBands[if x < 0.0 then 0 else if x.Floor >= 4 then 4 else x.Floor]
  }

  /** The marker colour agrees with the legend for every rating. */
  lemma MarkerMatchesLegend(rating: Option<real>)
    ensures RatingColour(rating) == LegendColour(rating)
  {
  }

  function ColourRank(c: MarkerColour): nat {
    match c
    case Gray => 0
    case Yellow => 1
    case Orange => 2
    case Blue => 3
    case Green => 4
  }

  /** A higher rating never gets a lower colour. */
  lemma ColourIsMonotone(x: real, y: real)
    requires x <= y
    ensures ColourRank(RatingColour(Some(x))) <= ColourRank(RatingColour(Some(y)))
  {
  }
}
