/** The care-type table of app.py and the two rules that turn a user's choice,
    or the classifier's answer, into the list of Places types to query. */
module CareTypes {

  /** A value of the care-type table: one Places type (a Python string) or several (a Python list). */
  datatype CareValue = Single(placeType: string) | Several(placeTypes: seq<string>)

  /** The `CARE_TYPES` table (app.py:36-44). */
  const CareTypeTable: map<string, CareValue> := map[
    "All Healthcare" := Several(["hospital", "pharmacy", "doctor", "dentist", "veterinary_care", "physiotherapist"]),
    "Pharmacy" := Single("pharmacy"),
    "Hospital" := Single("hospital"),
    "Doctor" := Single("doctor"),
    "Dentist" := Single("dentist"),
    "Veterinary" := Single("veterinary_care"),
    "Physiotherapist" := Single("physiotherapist")
  ]

  /** The key used when the classifier's answer is not a key of the table. */
  const AllHealthcare: string := "All Healthcare"

  /** The Places type searched when the selected key is not in the table. */
  const FallbackPlaceType: string := "hospital"

  /** Every Places type the table can name. */
  const PlaceTypes: set<string> := {"hospital", "pharmacy", "doctor", "dentist", "veterinary_care", "physiotherapist"}

  /** `types_to_query`: a string becomes a one-element list, a list is used as it is. */
  function TypesToQuery(v: CareValue): seq<string> {
    match v
    case Single(t) => [t]
    case Several(ts) => ts
  }

  /** `CARE_TYPES.get(care_type, "hospital")`: the value passed to the fetch. */
  function SelectedCareValue(selected: string): CareValue {
    if selected in CareTypeTable then CareTypeTable[selected] else Single(FallbackPlaceType)
  }

  /** The Places types searched for a selected key: its table value normalised to a list. */
  function QueryTypesFor(selected: string): (r: seq<string>)
    ensures r != []
    ensures forall i :: 0 <= i < |r| ==> r[i] in PlaceTypes
    ensures selected !in CareTypeTable ==> r == [FallbackPlaceType]
    ensures selected in CareTypeTable && CareTypeTable[selected].Single? ==> r == [CareTypeTable[selected].placeType]
    ensures selected in CareTypeTable && CareTypeTable[selected].Several? ==> r == CareTypeTable[selected].placeTypes
  {
    TypesToQuery(SelectedCareValue(selected))
  }

  /** The care type the search uses: when an issue is described and no type is selected,
      the classifier's answer if it is a known key, otherwise "All Healthcare". */
  function ResolveCareType(selected: string, issue: string, classifierAnswer: string): (r: string)
    ensures issue != "" && selected == "" ==> r in CareTypeTable
    ensures issue != "" && selected == "" && classifierAnswer in CareTypeTable ==> r == classifierAnswer
    ensures issue != "" && selected == "" && classifierAnswer !in CareTypeTable ==> r == AllHealthcare
    ensures issue == "" || selected != "" ==> r == selected
  {
    if issue != "" && selected == "" then
      if classifierAnswer in CareTypeTable then classifierAnswer else AllHealthcare
    else selected
  }

  /** An inferred care type is always a key of the table, so a described issue never
      falls back to the lone "hospital" query. */
  lemma InferredTypeUsesTable(issue: string, classifierAnswer: string)
    requires issue != ""
    ensures var key := ResolveCareType("", issue, classifierAnswer);
            key in CareTypeTable && QueryTypesFor(key) == TypesToQuery(CareTypeTable[key])
  {
  }

  /** A failed classification (the classifier answers "Error") searches every Places type of the table. */
  lemma ClassifierErrorSearchesAllTypes(issue: string)
    requires issue != ""
    ensures QueryTypesFor(ResolveCareType("", issue, "Error")) ==
            ["hospital", "pharmacy", "doctor", "dentist", "veterinary_care", "physiotherapist"]
  {
  }

  /** With neither a selection nor an issue, the empty key is unknown and only hospitals are searched. */
  lemma BlankSearchQueriesHospitals()
    ensures QueryTypesFor(ResolveCareType("", "", "")) == ["hospital"]
  {
  }
}
