# Healthcare facility search: the Medicaid annotation and its surrounding rules

This project models the one part of the Healthcare-app Streamlit page that holds real logic:
`fetch_healthcare_data_google` in `app.py`. It queries the Google Places API for each selected
care type and follows the result pages. When "open only" is set, it drops every place whose
`open_now` is false or missing, and it
annotates every remaining place with `medicaid_supported`. A place is supported when its
Places `types` include an eligible category and some row of the Medicaid provider table lies
strictly inside a box of ±0.0001° around its rounded coordinates. Records are appended one by
one, in API order.

The project also models the small rules around that function:
- the care-type table, and how a selection or a classifier answer becomes a list of Places types;
- the Medicaid-only and wheelchair filters the search button applies;
- the rating-to-marker-colour chain of the map.

Modules, one per concern of `app.py`:
- `Wrappers` (wrappers.dfy): Option and Result.
- `Seqs` (seqs.dfy): order-preserving selection (`Keep`, pandas boolean masks) and `Any` (Python's `any`).
- `CareTypes` (care_types.dfy): `CARE_TYPES`, the `"hospital"` default, the classifier fallback.
- `MedicaidMatch` (medicaid_match.dfy): the eligibility test and the strict bounding box.
- `PlacesFetch` (places_fetch.dfy): the fetch loop as a method with loops. The method is proved
  equal to the specification function `Fetch`, and lemmas about `Fetch` state what it promises.
- `ResultsView` (results_view.dfy): the filters (as written and as intended), the search
  pipeline and the marker colours.

Coordinates are integers in units of 1e-5 degrees. The source rounds both sides to five decimal
places, so this encoding is exact for the rounded values. The ±0.0001° margin is 10 units, and
the box test is `|Δlat| < 10 && |Δlon| < 10` with strict inequalities. Ratings are `real`, and
a missing rating ("No rating") is `None`.

The network is a parameter. `server` maps a Places type to the response pages the API returns
for it at the call's fixed location, radius and key. Pagination stops at a response whose status
is not 200 (that status is reported, as `st.error` does), at a page without a non-empty
`next_page_token`, or when the sequence of pages ends.

Two facts about the code shape the model:
- An empty provider-table cell (NaN) never matches, since every comparison with NaN is false.
  `ProviderRow` coordinates are Options for this reason. Non-numeric text would make
  `astype(float)` raise; that case is left out.
- The annotation loop also drops results that are not open now, when "open only" is set. A
  result with no `open_now` at all is dropped too.

## Model

| member | source | states |
|---|---|---|
| CareTypes.QueryTypesFor | app.py:131-134 | The types queried are never empty and are all Places types of the table. A string value is queried as a one-element list and a list value as it is. A key that is not in the table queries `["hospital"]`. |
| CareTypes.BlankSearchQueriesHospitals | app.py:459 | With no selection and no issue, the empty key is unknown and only hospitals are searched. |
| CareTypes.ResolveCareType | app.py:399-406 | With an issue described and nothing selected, the result is always a table key: the classifier's answer if it is a key, otherwise "All Healthcare". In every other case the selection is kept unchanged. |
| CareTypes.InferredTypeUsesTable | app.py:399-406 | An inferred care type never reaches the `"hospital"` default: its queries are its own table entry. |
| CareTypes.ClassifierErrorSearchesAllTypes | app.py:111-113 | When the classifier answers "Error", all six Places types of "All Healthcare" are searched. |
| MedicaidMatch.EligibleCategory | app.py:152-160 | A facility is eligible exactly when some entry of its `types` is hospital, pharmacy, doctor, dentist or physiotherapist. |
| MedicaidMatch.MedicaidSupported | app.py:157-176 | A facility is supported exactly when it is eligible and some provider row satisfies all four strict box inequalities. |
| MedicaidMatch.IneligibleNeverSupported | app.py:175-176 | A facility with no eligible category is unsupported, whatever the table holds. |
| MedicaidMatch.EmptyTableSupportsNothing | app.py:163-174 | With an empty provider table nothing is supported, eligible or not. |
| MedicaidMatch.BoxBoundaryIsStrict | app.py:165-170 | In the scaled-integer model, a row exactly 0.0001° (10 units) away on either axis does not match, and a row 0.00009° away on both axes does. |
| MedicaidMatch.MoreRowsNeverUnsupport | app.py:163-174 | Adding rows to the provider table never turns a supported facility into an unsupported one. |
| MedicaidMatch.WorkedExamples | app.py:152-176 | Hospital at (38.54490, -121.74050): matches a provider at (38.54495, -121.74052), not one at (38.55000, -121.74050). A veterinary clinic does not match a provider at its own coordinates. |
| PlacesFetch.FetchHealthcareData | app.py:115-203 | The loop's result equals `Fetch` and its reported statuses equal `FetchErrors`. It fails exactly when the Medicaid table is absent, and then reports nothing because no query was made. |
| PlacesFetch.FollowPages | app.py:144-201 | Walking one type's pages appends exactly that type's records and reports at most its one failed status. |
| PlacesFetch.AppendPage | app.py:148-189 | Walking a page's results appends exactly the page's annotated records, in order. |
| PlacesFetch.PagesStep | app.py:144-201 | A failed response ends pagination with its status reported. A successful one contributes its records and continues only when it has a next-page token. |
| PlacesFetch.QueryErrors | app.py:199-201 | Each query type reports at most one status, and never 200. |
| PlacesFetch.AllErrors | app.py:136-201 | The call reports at most one failed status per query type. |
| PlacesFetch.AnnotatePageIsKeepThenRecord | app.py:148-189 | A page yields the records of exactly the results that pass the open-only filter, in their original order. |
| PlacesFetch.OneRecordPerResult | app.py:148-189 | Without open-only, a page yields one record per result, and record i annotates result i. |
| PlacesFetch.AllRecordsConcat | app.py:136-189 | The records are grouped by query type, in `types_to_query` order. |
| PlacesFetch.OpenOnlyReturnsOpenPlaces | app.py:149-150 | With open-only set, every returned record has `open_now` true. |
| PlacesFetch.EmptyTableNoRecordSupported | app.py:163-176 | With an empty Medicaid table, no returned record is Medicaid-supported. |
| PlacesFetch.SinglePageKeepsOrder | app.py:179-189 | One successful last page without open-only returns exactly one record per result, in API order. |
| ResultsView.ApplyFiltersAsWritten | app.py:466-470 | The filters as written fail (KeyError) exactly when the wheelchair filter is on and the search found nothing. |
| ResultsView.ApplyFilters | app.py:466-470 | Keeps exactly the records whose selected flags hold (Medicaid-supported, wheelchair entrance), and every kept record comes from the input. |
| ResultsView.AsWrittenDiffersOnlyOnEmptyWheelchair | app.py:466-470 | The filters as written agree with the intended ones on every input except an empty search with the wheelchair filter on. |
| ResultsView.EmptyWheelchairSearchRaises | app.py:469-470 | Counterexample: no facility found and the wheelchair box ticked raises, where the intended filters give an empty list. |
| ResultsView.FiltersPreserveOrder | app.py:466-470 | Filtering distributes over concatenation, so records keep their original order. |
| ResultsView.FiltersCommuteAndSettle | app.py:466-470 | The two filters commute, and applying both again changes nothing. |
| ResultsView.Search | app.py:451-470 | The search fails with the fetch's error exactly when the Medicaid table is absent. Otherwise it fails with the `KeyError` exactly when the wheelchair filter is on and the fetch found nothing (the Findings row). When it succeeds, it shows exactly `ApplyFilters` of the fetched records: every fetched record that passes the selected filters, in order, and no other. Every record shown is open when open-only is set, Medicaid-supported when Medicaid-only is set, and has a wheelchair entrance when that filter is set. |
| ResultsView.RatingColour | app.py:519-528 | Green exactly for ratings ≥ 4, blue for [3, 4), orange for [2, 3), yellow for [1, 2), gray for no rating or below 1 (0 included). |
| ResultsView.MarkerMatchesLegend | app.py:354-358 | The marker colour equals the legend's band for the rating's whole number of stars, for every rating. |
| ResultsView.ColourIsMonotone | app.py:519-528 | A higher rating never gets a lower colour. |

## Left out

- The HTTP calls to the Places and Geocoding APIs, `time.sleep` and the request parameters (location, radius, key): network I/O, abstracted as the `server` parameter.
- `get_lat_lon_from_query` and `get_current_location`: network lookups of the search centre, which only feeds the request.
- `classify_issue_with_openai_cached` and its model fallback: a foreign call, abstracted as the arbitrary string `classifierAnswer`. Its one fixed answer, "Error", is used in `ClassifierErrorSearchesAllTypes`.
- Rounding to five decimal places and float comparison: coordinates are scaled integers, already rounded.
- MedicaidMatch.BoxBoundaryIsStrict: holds only in the scaled-integer model. In the source, `lat - 0.0001` and `lat + 0.0001` are computed in IEEE doubles and can land just inside or outside the exact boundary. For example, 38.5449 - 0.0001 is slightly below 38.5448, so a provider exactly 0.0001° away can match on that axis. The model does not capture this rounding at the box edge.
- The in-place rounding of the `medicaid_data` columns: the provider table is read-only input with rounded coordinates.
- Non-numeric text in the provider CSV, which makes `astype(float)` raise: only empty cells (NaN) are modelled.
- A missing `geometry.location` in a Places result, which raises `KeyError`: the API always sends it, so result coordinates are required.
- The miles/metres radius conversion: float arithmetic for display and for the API parameter.
- Streamlit widgets, session state, CSS/HTML, folium maps and markers, the sidebar and its rating sort: UI and library calls.
- The unconditional Medicaid filter after the search button: its result is overwritten by the re-read of the session state, so it has no observable effect.
- Determinism of the annotation: every member is a function of its inputs, so it holds by construction and needs no lemma.

## Findings

| source | as written | input that shows it | evidently intended | confidence | as-written member | corrected member |
|---|---|---|---|---|---|---|
| app.py:469-470 | The wheelchair filter selects column `wheelchair_accessible_entrance` without checking that it exists. A DataFrame built from an empty list has no columns, so it raises `KeyError`. | "Show only locations with wheelchair accessible entrances" ticked and a search that returns no facilities (e.g. open-only with nothing open). | Show an empty result ("No facilities found"), as the Medicaid filter on line 466 does by checking for its column first. | high; not executed | ResultsView.ApplyFiltersAsWritten | ResultsView.ApplyFilters |
