/** The Medicaid annotation of one facility (app.py:152-176): a category eligibility
    test and a strict bounding-box search of the Medicaid provider table.

    Coordinates are integers in units of 1e-5 degrees. Both sides of the comparison
    are rounded to five decimal places in the source, so this encoding is exact for
    the rounded values; the floating-point rounding itself and the float comparison
    of `lat - 0.0001` are not modelled. The margin of 0.0001 degrees is 10 units. */
module MedicaidMatch {
  import opened Wrappers
  import opened Seqs

  /** A latitude or longitude in units of 1e-5 degrees. */
  type Fixed5 = int

  /** Half-width of the bounding box: 0.0001 degrees. */
  const Margin: Fixed5 := 10

  /** `VALID_MEDICAID_CATEGORIES`: veterinary care is deliberately absent. */
  const ValidMedicaidCategories: seq<string> := ["hospital", "pharmacy", "doctor", "dentist", "physiotherapist"]

  /** A row of the Medicaid provider table, with coordinates already rounded.
      A coordinate is None when its CSV cell is empty (NaN after `astype(float)`);
      every comparison with NaN is false, so such a row never matches. */
  datatype ProviderRow = ProviderRow(latitude: Option<Fixed5>, longitude: Option<Fixed5>)

  predicate IsValidCategory(category: string) {
    category in ValidMedicaidCategories
  }

  /** `any(category in VALID_MEDICAID_CATEGORIES for category in facility_category)`. */
  function EligibleCategory(types: seq<string>): (b: bool)
    ensures b <==> exists i :: 0 <= i < |types| && types[i] in ValidMedicaidCategories
  {
    Any(types, IsValidCategory)
  }

  /** The four strict inequalities of the box filter. */
  predicate InBox(row: ProviderRow, lat: Fixed5, lon: Fixed5) {
    && row.latitude.Some? && row.longitude.Some?
    && lat - Margin < row.latitude.value < lat + Margin
    && lon - Margin < row.longitude.value < lon + Margin
  }

  /** `medicaid_data_filtered`: the rows inside the box, in table order. */
  function BoxFilter(rows: seq<ProviderRow>, lat: Fixed5, lon: Fixed5): seq<ProviderRow> {
    Keep(rows, row => InBox(row, lat, lon))
  }

  /** `medicaid_supported`: an eligible facility is supported exactly when the box filter is
      non-empty; an ineligible one never is. */
  function MedicaidSupported(types: seq<string>, lat: Fixed5, lon: Fixed5, rows: seq<ProviderRow>): (b: bool)
    ensures b <==> EligibleCategory(types) && exists i :: 0 <= i < |rows| && InBox(rows[i], lat, lon)
  {
    if EligibleCategory(types) then
      var filtered := BoxFilter(rows, lat, lon);
      assert filtered != [] ==> InBox(filtered[0], lat, lon) && filtered[0] in rows;
      filtered != []
    else false
  }

  /** A facility without an eligible category is unsupported even when a provider row sits
      on its exact coordinates. */
  lemma IneligibleNeverSupported(types: seq<string>, lat: Fixed5, lon: Fixed5, rows: seq<ProviderRow>)
    requires forall i :: 0 <= i < |types| ==> types[i] !in ValidMedicaidCategories
    ensures !MedicaidSupported(types, lat, lon, rows)
  {
  }

  /** An empty provider table supports nothing, eligible or not. */
  lemma EmptyTableSupportsNothing(types: seq<string>, lat: Fixed5, lon: Fixed5)
    ensures !MedicaidSupported(types, lat, lon, [])
  {
  }

  /** The box is open: a row exactly 0.0001 degrees away on either axis does not match,
      and a row 0.00009 degrees away on both axes does. */
  lemma BoxBoundaryIsStrict(lat: Fixed5, lon: Fixed5, d: int)
    ensures !InBox(ProviderRow(Some(lat + Margin), Some(lon + d)), lat, lon)
    ensures !InBox(ProviderRow(Some(lat - Margin), Some(lon + d)), lat, lon)
    ensures !InBox(ProviderRow(Some(lat + d), Some(lon + Margin)), lat, lon)
    ensures !InBox(ProviderRow(Some(lat + d), Some(lon - Margin)), lat, lon)
    ensures InBox(ProviderRow(Some(lat + Margin - 1), Some(lon - Margin + 1)), lat, lon)
  {
  }

  /** Adding provider rows can only turn an unsupported facility into a supported one. */
  lemma MoreRowsNeverUnsupport(types: seq<string>, lat: Fixed5, lon: Fixed5, rows: seq<ProviderRow>, more: seq<ProviderRow>)
    requires MedicaidSupported(types, lat, lon, rows)
    ensures MedicaidSupported(types, lat, lon, rows + more)
  {
    var i :| 0 <= i < |rows| && InBox(rows[i], lat, lon);
    assert (rows + more)[i] == rows[i];
  }

  /** The worked examples: a hospital at (38.54490, -121.74050) matches a provider at
      (38.54495, -121.74052) but not one at (38.55000, -121.74050); a veterinary clinic
      does not match a provider at its own coordinates. */
  lemma WorkedExamples()
    ensures MedicaidSupported(["hospital"], 3854490, -12174050, [ProviderRow(Some(3854495), Some(-12174052))])
    ensures !MedicaidSupported(["hospital"], 3854490, -12174050, [ProviderRow(Some(3855000), Some(-12174050))])
    ensures !MedicaidSupported(["veterinary_care"], 3854490, -12174050, [ProviderRow(Some(3854490), Some(-12174050))])
  {
  }
}
