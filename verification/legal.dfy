/**
 * The legal researcher's output sanitiser, which keeps at most five
 * precedent cases each carrying its default fields, and its table of
 * synthetic precedents by case type.
 */
module LegalResearcher {
  import opened Outcomes
  import opened Text
  import opened Json

  const OutputKeys: set<string> := {"relevant_cases", "legal_basis", "reasoning_summary", "confidence_score"}

  const CaseDefaults: Obj := map[
    "case_name" := JStr("Unknown Case"), "citation" := JStr("Citation not available"),
    "summary" := JStr(""), "relevance" := JStr("")]

  /** The number of cases the sanitiser keeps at most. */
  const MaxCases: nat := 5

  /**
   * `_validate_output`: exactly the four expected keys; `relevant_cases` is
   * the first (at most) five items of the reply's list, dict items carrying
   * their defaults; the confidence is clamped to [0, 1], 0.0 when it is not
   * a number.
   */
  method ValidateOutput(result: Obj) returns (validated: Obj)
    ensures validated.Keys == OutputKeys
    ensures var all := FillAll(ListOr(Get(result, "relevant_cases", JArr([]))), CaseDefaults);
      validated["relevant_cases"].JArr? &&
      |validated["relevant_cases"].items| == (if |all| > MaxCases then MaxCases else |all|) &&
      validated["relevant_cases"].items == all[..|validated["relevant_cases"].items|]
    ensures validated["legal_basis"] == Get(result, "legal_basis", JStr(""))
    ensures validated["reasoning_summary"] == Get(result, "reasoning_summary", JStr(""))
    ensures validated["confidence_score"] == JNum(Score(Get(result, "confidence_score", JNum(0.0)), 0.0))
  {
    validated := map[
      "relevant_cases" := Get(result, "relevant_cases", JArr([])),
      "legal_basis" := Get(result, "legal_basis", JStr("")),
      "reasoning_summary" := Get(result, "reasoning_summary", JStr("")),
      "confidence_score" := Get(result, "confidence_score", JNum(0.0))];
    assert validated.Keys == OutputKeys;

    var cases := FillEach(ListOr(validated["relevant_cases"]), CaseDefaults);
    if |cases| > MaxCases {
      cases := cases[..MaxCases];
    }
    validated := validated["relevant_cases" := JArr(cases)];
    assert validated.Keys == OutputKeys;

    validated := validated["confidence_score" := JNum(Score(validated["confidence_score"], 0.0))];
    assert validated.Keys == OutputKeys;
  }

  // ---------------------------------------------------------------------
  // Synthetic precedents
  // ---------------------------------------------------------------------

  datatype Precedent = Precedent(caseName: string, citation: string, summary: string, relevance: string)
  {
    function ToJson(): Json {
      JObj(map["case_name" := JStr(caseName), "citation" := JStr(citation),
        "summary" := JStr(summary), "relevance" := JStr(relevance)])
    }
  }

  /** `precedents_db`, by case type. */
  const PrecedentsDb: map<string, seq<Precedent>> := map[
    "personal_injury" := [
      Precedent(
        "Palsgraf v. Long Island Railroad Co.",
        "248 N.Y. 339, 162 N.E. 99 (1928)",
        "Landmark case establishing duty and proximate cause in negligence claims. Court held that duty is owed only to foreseeable plaintiffs within the zone of danger.",
        "Establishes foundational negligence principles applicable to personal injury claims"),
      Precedent(
        "Rowland v. Christian",
        "69 Cal.2d 108, 443 P.2d 561 (1968)",
        "California Supreme Court eliminated traditional distinctions between invitees, licensees, and trespassers in premises liability cases.",
        "Supports modern premises liability analysis based on reasonableness")],
    "premises_liability" := [
      Precedent(
        "Rowland v. Christian",
        "69 Cal.2d 108, 443 P.2d 561 (1968)",
        "Eliminated traditional status-based duties in premises liability, adopting general negligence standard.",
        "Establishes duty of reasonable care for all persons on property"),
      Precedent(
        "Sprecher v. Adamson Companies",
        "30 Cal.3d 358, 636 P.2d 1121 (1981)",
        "Property owner liable for dangerous conditions they create or maintain, even if not obvious to visitors.",
        "Supports liability for hazardous conditions on premises")],
    "negligence" := [
      Precedent(
        "Vaughan v. Menlove",
        "132 Eng. Rep. 490 (1837)",
        "Established objective reasonable person standard for negligence rather than subjective standard.",
        "Foundational case for reasonable person standard in negligence analysis"),
      Precedent(
        "Summers v. Tice",
        "33 Cal.2d 80, 199 P.2d 1 (1948)",
        "Burden of proof shifts to defendants when multiple parties act negligently and plaintiff cannot identify which caused injury.",
        "Supports burden-shifting in cases with multiple potential tortfeasors")]]

  /**
   * `_get_synthetic_precedents`: the list for the lower-cased case type, the
   * negligence list for any other type; the jurisdiction plays no part.
   */
  function SyntheticPrecedents(caseType: string, jurisdiction: string): (r: seq<Precedent>)
    ensures Lower(caseType) in PrecedentsDb ==> r == PrecedentsDb[Lower(caseType)]
    ensures Lower(caseType) !in PrecedentsDb ==> r == PrecedentsDb["negligence"]
    ensures |r| == 2
    ensures forall p :: p in r ==> p.caseName != "" && p.citation != ""
  {
    var key := Lower(caseType);
    if key in PrecedentsDb then PrecedentsDb[key] else PrecedentsDb["negligence"]
  }

  /** The answer does not depend on the jurisdiction. */
  lemma PrecedentsIgnoreJurisdiction(caseType: string, j1: string, j2: string)
    ensures SyntheticPrecedents(caseType, j1) == SyntheticPrecedents(caseType, j2)
  {
  }

  /** Case types differing only in letter case get the same precedents. */
  lemma PrecedentsIgnoreCase(a: string, b: string, jurisdiction: string)
    requires Lower(a) == Lower(b)
    ensures SyntheticPrecedents(a, jurisdiction) == SyntheticPrecedents(b, jurisdiction)
  {
  }
}
