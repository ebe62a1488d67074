/** The inventory sections (`AppSection`) and the drill-down key
    `SectionIngredient` of ContentView.swift. */
module Sections {
  import opened Wrappers

  /** The three inventory categories, in declaration order. */
  datatype AppSection = Fridge | Freezer | Pantry

  /** The Swift raw value of a case; it is also the case's `id`. */
  function RawValue(s: AppSection): (r: string)
    ensures r != [] && ':' !in r
  {
    match s
    case Fridge => "fridge"
    case Freezer => "freezer"
    case Pantry => "pantry"
  }

  /** `AppSection.allCases`, in declaration order. */
  const AllCases: seq<AppSection> := [Fridge, Freezer, Pantry]

  lemma AllCasesListsEverySection(s: AppSection)
    ensures s in AllCases
  {
  }

  /** Distinct sections have distinct raw values. */
  lemma RawValueInjective(a: AppSection, b: AppSection)
    requires RawValue(a) == RawValue(b)
    ensures a == b
  {
  }

  /** `cases.first { $0.rawValue == raw }`: the earliest case whose raw value is `raw`. */
  function FirstWithRawValue(cases: seq<AppSection>, raw: string): (r: Option<AppSection>)
    ensures r.None? <==> forall i :: 0 <= i < |cases| ==> RawValue(cases[i]) != raw
    ensures r.Some? ==> exists i :: 0 <= i < |cases| && cases[i] == r.value && RawValue(cases[i]) == raw &&
                                    forall j :: 0 <= j < i ==> RawValue(cases[j]) != raw
    decreases |cases|
  {
    if cases == [] then None
    else if RawValue(cases[0]) == raw then Some(cases[0])
    else
      var rest := FirstWithRawValue(cases[1..], raw);
      assert forall i :: 1 <= i < |cases| ==> cases[i] == cases[1..][i - 1];
      rest
  }

  /** `AppSection.from(rawValue:)`. */
  function FromRawValue(raw: string): (r: Option<AppSection>)
    ensures r.Some? <==> raw == "fridge" || raw == "freezer" || raw == "pantry"
    ensures r.Some? ==> RawValue(r.value) == raw
  {
    var r := FirstWithRawValue(AllCases, raw);
    assert RawValue(AllCases[0]) == "fridge" && RawValue(AllCases[1]) == "freezer" && RawValue(AllCases[2]) == "pantry";
    r
  }

  /** Every case survives the trip through its raw value. */
  lemma FromRawValueRoundTrip(s: AppSection)
    ensures FromRawValue(RawValue(s)) == Some(s)
  {
  }

  /** The target of a drill-down push from a section page. */
  datatype SectionIngredient = SectionIngredient(section: AppSection, ingredient: string)

  /** `SectionIngredient.id`: the section's raw value, a colon, then the ingredient name. */
  function Id(si: SectionIngredient): (r: string)
    ensures var n := |RawValue(si.section)|;
            |r| > n && r[..n] == RawValue(si.section) && r[n] == ':' && r[n + 1..] == si.ingredient
  {
    RawValue(si.section) + ":" + si.ingredient
  }

  /** Because no raw value contains ':', the id determines both the section and the ingredient. */
  lemma IdInjective(a: SectionIngredient, b: SectionIngredient)
    requires Id(a) == Id(b)
    ensures a == b
  {
  }
}
