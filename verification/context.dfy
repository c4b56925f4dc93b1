/**
 * The context enricher: metadata pulled out of the case text before any
 * agent runs. Every single-valued field is a first-match search over an
 * ordered list of probes, each with a fixed confidence; the medical
 * providers are every doctor and hospital mention, deduplicated by
 * lower-cased name.
 *
 * Regular-expression matching itself is not modelled: `re.search` and
 * `re.finditer` are parameters (`Search`, `FindAll`) applied to the
 * source's own pattern strings, with the IGNORECASE flag written as a
 * leading `(?i)`. Keyword and known-insurer scans are plain substring
 * tests and are modelled concretely. `_normalize_date` (date-library
 * parsing) is a parameter too.
 */
module ContextEnricher {
  import opened Outcomes
  import opened Text
  import opened Json
  import opened Seqs

  /** `re.search(pattern, text)`: the first group of the leftmost match, if there is one. */
  type Search = (string, string) -> Option<string>

  /** One match of `re.finditer`: the whole match and its first group. */
  datatype Match = Match(whole: string, group: string)

  /** `list(re.finditer(pattern, text))`, in text order. */
  type FindAll = (string, string) -> seq<Match>

  /** `_normalize_date`: an ISO date, or None when no format parses. */
  type Normalise = string -> Option<string>

  /** A single-valued field: `{"value": ..., "confidence": ...}`. */
  datatype Field = Field(value: Option<string>, confidence: real) {
    function ToJson(): Json {
      JObj(map[
        "value" := (if value.Some? then JStr(value.value) else JNull),
        "confidence" := JNum(confidence)])
    }
  }

  /** What every single-valued extractor returns when nothing matches. */
  const NotFound: Field := Field(None, 0.0)

  /** A pattern with the confidence its match is reported at. */
  datatype Probe = Probe(pattern: string, confidence: real)

  // ---------------------------------------------------------------------
  // First match wins
  // ---------------------------------------------------------------------

  /**
   * Tries the probes in order and returns the first hit with that probe's
   * confidence: the `for pattern, confidence in patterns: ... return`
   * shape every single-valued extractor shares.
   */
  function FirstHit<P>(probes: seq<P>, hit: P -> Option<string>, conf: P -> real): (r: Field)
    ensures r.value.None? <==> forall i :: 0 <= i < |probes| ==> hit(probes[i]).None?
    ensures r.value.None? ==> r == NotFound
  {
    if probes == [] then NotFound
    else match hit(probes[0])
      case Some(v) => Field(Some(v), conf(probes[0]))
      case None =>
        assert forall i :: 1 <= i < |probes| ==> probes[i] == probes[1..][i - 1];
        FirstHit(probes[1..], hit, conf)
  }

  /** The earliest probe that hits decides the value and the confidence. */
  lemma {:induction false} FirstHitFirst<P>(probes: seq<P>, hit: P -> Option<string>, conf: P -> real)
    ensures forall i :: (0 <= i < |probes| && hit(probes[i]).Some? &&
      (forall j :: 0 <= j < i ==> hit(probes[j]).None?)) ==>
      FirstHit(probes, hit, conf) == Field(hit(probes[i]), conf(probes[i]))
  {
    if probes != [] {
      FirstHitFirst(probes[1..], hit, conf);
      forall i | 0 < i < |probes| && hit(probes[i]).Some? &&
        (forall j :: 0 <= j < i ==> hit(probes[j]).None?)
        ensures FirstHit(probes, hit, conf) == Field(hit(probes[i]), conf(probes[i]))
      {
        assert hit(probes[0]).None?;
        assert probes[1..][i - 1] == probes[i];
        forall j | 0 <= j < i - 1
          ensures hit(probes[1..][j]).None?
        {
          assert probes[1..][j] == probes[j + 1];
        }
      }
    }
  }

  /** The same, for one probe. */
  lemma FirstHitAt<P>(probes: seq<P>, hit: P -> Option<string>, conf: P -> real, i: nat)
    requires i < |probes| && hit(probes[i]).Some? && forall j :: 0 <= j < i ==> hit(probes[j]).None?
    ensures FirstHit(probes, hit, conf) == Field(hit(probes[i]), conf(probes[i]))
  {
    FirstHitFirst(probes, hit, conf);
  }

  /** A probe whose trimmed capture is the value: the hit of every plain extractor. */
  function TrimmedHit(text: string, search: Search, p: Probe): Option<string> {
    match search(p.pattern, text)
    case None => None
    case Some(g) => Some(Strip(g))
  }

  // ---------------------------------------------------------------------
  // Client name and case number
  // ---------------------------------------------------------------------

  const ClientProbes: seq<Probe> := [
    Probe(@"(?i)client\s*:?\s*([A-Z][a-z]+(?:\s+[A-Z][a-z]+){1,3})(?:\s|$|\n)", 0.95),
    Probe(@"(?i)plaintiff\s*:?\s*([A-Z][a-z]+(?:\s+[A-Z][a-z]+){1,3})(?:\s|$|\n)", 0.90),
    Probe(@"(?i)claimant\s*:?\s*([A-Z][a-z]+(?:\s+[A-Z][a-z]+){1,3})(?:\s|$|\n)", 0.85),
    Probe(@"(?i)patient\s*:?\s*([A-Z][a-z]+(?:\s+[A-Z][a-z]+){1,3})(?:\s|$|\n)", 0.80)]

  const CaseNumberProbes: seq<Probe> := [
    Probe(@"(?i)case\s*(?:#|no\.?|number)?\s*:?\s*([A-Z0-9]{2,4}-[A-Z0-9]{2,4}-[0-9]{3,6})", 0.95),
    Probe(@"(?i)\b([A-Z]{2}-\d{4}-\d{3,6})\b", 0.90),
    Probe(@"(?i)case\s*(?:#|no\.?|number)?\s*:?\s*(\d{4,6})", 0.80),
    Probe(@"(?i)file\s*(?:#|no\.?|number)?\s*:?\s*([A-Z0-9-]{4,})", 0.85),
    Probe(@"(?i)docket\s*(?:#|no\.?|number)?\s*:?\s*([A-Z0-9-]{4,})", 0.85)]

  /**
   * The shared first-match rule of the plain extractors: the trimmed
   * capture of the first pattern that matches, at that pattern's
   * confidence; NotFound when none does.
   */
  function FirstTrimmed(text: string, search: Search, probes: seq<Probe>): (r: Field)
    ensures r == NotFound <==> forall i :: 0 <= i < |probes| ==> search(probes[i].pattern, text).None?
    ensures forall i :: (0 <= i < |probes| && search(probes[i].pattern, text).Some? &&
      (forall j :: 0 <= j < i ==> search(probes[j].pattern, text).None?)) ==>
      r == Field(Some(Strip(search(probes[i].pattern, text).value)), probes[i].confidence)
  {
    var hit := (p: Probe) => TrimmedHit(text, search, p);
    var conf := (p: Probe) => p.confidence;
    TrimmedFirst(text, search, probes, hit, conf);
    FirstHit(probes, hit, conf)
  }

  /** The earliest pattern that matches is the earliest probe that hits. */
  lemma TrimmedFirst(text: string, search: Search, probes: seq<Probe>, hit: Probe -> Option<string>, conf: Probe -> real)
    requires forall p :: hit(p) == TrimmedHit(text, search, p)
    requires forall p :: conf(p) == p.confidence
    ensures forall i :: (0 <= i < |probes| && search(probes[i].pattern, text).Some? &&
      (forall j :: 0 <= j < i ==> search(probes[j].pattern, text).None?)) ==>
      FirstHit(probes, hit, conf) == Field(Some(Strip(search(probes[i].pattern, text).value)), probes[i].confidence)
  {
    forall i | 0 <= i < |probes| && search(probes[i].pattern, text).Some? &&
      (forall j :: 0 <= j < i ==> search(probes[j].pattern, text).None?)
      ensures FirstHit(probes, hit, conf) == Field(Some(Strip(search(probes[i].pattern, text).value)), probes[i].confidence)
    {
      assert forall j :: 0 <= j < i ==> hit(probes[j]).None?;
      FirstHitAt(probes, hit, conf, i);
    }
  }

  /** `_extract_client_name`: the first-match rule over the four label patterns. */
  function ClientName(text: string, search: Search): (r: Field)
    ensures r == NotFound <==> forall i :: 0 <= i < |ClientProbes| ==> search(ClientProbes[i].pattern, text).None?
    ensures forall i :: (0 <= i < |ClientProbes| && search(ClientProbes[i].pattern, text).Some? &&
      (forall j :: 0 <= j < i ==> search(ClientProbes[j].pattern, text).None?)) ==>
      r == Field(Some(Strip(search(ClientProbes[i].pattern, text).value)), ClientProbes[i].confidence)
  {
    FirstTrimmed(text, search, ClientProbes)
  }

  /** `_extract_case_number`: the same first-match rule over the five case-number patterns. */
  function CaseNumber(text: string, search: Search): (r: Field)
    ensures r == NotFound <==> forall i :: 0 <= i < |CaseNumberProbes| ==> search(CaseNumberProbes[i].pattern, text).None?
    ensures forall i :: (0 <= i < |CaseNumberProbes| && search(CaseNumberProbes[i].pattern, text).Some? &&
      (forall j :: 0 <= j < i ==> search(CaseNumberProbes[j].pattern, text).None?)) ==>
      r == Field(Some(Strip(search(CaseNumberProbes[i].pattern, text).value)), CaseNumberProbes[i].confidence)
  {
    FirstTrimmed(text, search, CaseNumberProbes)
  }

  // ---------------------------------------------------------------------
  // Case type
  // ---------------------------------------------------------------------

  datatype Category = Category(keywords: seq<string>, caseType: string, confidence: real)

  const CaseTypes: seq<Category> := [
    Category(["auto accident", "motor vehicle accident", "car accident", "car crash",
              "vehicle collision", "traffic accident"], "personal injury - motor vehicle", 0.95),
    Category(["slip and fall", "trip and fall", "premises liability", "dangerous condition",
              "hazardous condition", "wet floor"], "premises liability", 0.95),
    Category(["medical malpractice", "medical negligence", "surgical error", "misdiagnosis",
              "wrong medication", "hospital negligence"], "medical malpractice", 0.95),
    Category(["wrongful termination", "employment discrimination", "workplace harassment",
              "retaliation", "hostile work environment", "wage dispute"], "employment law", 0.90),
    Category(["insurance dispute", "claim denial", "bad faith insurance", "coverage dispute",
              "insurance claim"], "insurance dispute", 0.90),
    Category(["breach of contract", "contract dispute", "agreement violation",
              "contractual obligation"], "contract dispute", 0.85),
    Category(["personal injury", "bodily injury", "negligence", "liability"],
             "personal injury", 0.75)]

  /** Some keyword of the list occurs in `t`. */
  predicate AnyIn(t: string, keywords: seq<string>) {
    exists i :: 0 <= i < |keywords| && Contains(t, keywords[i])
  }

  function CategoryHit(lowered: string, c: Category): Option<string> {
    if AnyIn(lowered, c.keywords) then Some(c.caseType) else None
  }

  /** The first category, in list order, one of whose keywords occurs in `lowered`. */
  function FirstCategory(lowered: string, categories: seq<Category>): (r: Field)
    ensures r == NotFound <==> forall i :: 0 <= i < |categories| ==> !AnyIn(lowered, categories[i].keywords)
    ensures forall i :: (0 <= i < |categories| && AnyIn(lowered, categories[i].keywords) &&
      (forall j :: 0 <= j < i ==> !AnyIn(lowered, categories[j].keywords))) ==>
      r == Field(Some(categories[i].caseType), categories[i].confidence)
  {
    var hit := (c: Category) => CategoryHit(lowered, c);
    var conf := (c: Category) => c.confidence;
    FirstHitFirst(categories, hit, conf);
    FirstHit(categories, hit, conf)
  }

  /**
   * `_extract_case_type`: the first category, in list order, one of whose
   * keywords occurs in the lower-cased text; where in the text the keyword
   * stands plays no part.
   */
  function CaseType(text: string): (r: Field)
    ensures r == NotFound <==> forall i :: 0 <= i < |CaseTypes| ==> !AnyIn(Lower(text), CaseTypes[i].keywords)
    ensures forall i :: (0 <= i < |CaseTypes| && AnyIn(Lower(text), CaseTypes[i].keywords) &&
      (forall j :: 0 <= j < i ==> !AnyIn(Lower(text), CaseTypes[j].keywords))) ==>
      r == Field(Some(CaseTypes[i].caseType), CaseTypes[i].confidence)
  {
    FirstCategory(Lower(text), CaseTypes)
  }

  /**
   * A motor-vehicle keyword decides the type whatever else the text says,
   * even "negligence" appearing earlier in it.
   */
  lemma MotorVehicleFirst(text: string, k: nat)
    requires k < |CaseTypes[0].keywords| && Contains(Lower(text), CaseTypes[0].keywords[k])
    ensures CaseType(text) == Field(Some("personal injury - motor vehicle"), 0.95)
  {
    assert AnyIn(Lower(text), CaseTypes[0].keywords);
  }

  // ---------------------------------------------------------------------
  // Insurance company
  // ---------------------------------------------------------------------

  const KnownInsurers: seq<string> := [
    "state farm", "allstate", "geico", "progressive", "farmers",
    "nationwide", "liberty mutual", "usaa", "travelers", "american family",
    "aig", "metlife", "prudential", "aetna", "cigna", "united healthcare",
    "blue cross", "anthem"]

  const InsurerProbes: seq<Probe> := [
    Probe(@"([A-Z][a-z]+(?:\s+[A-Z][a-z]+)*)\s+Insurance", 0.85),
    Probe(@"([A-Z][a-z]+(?:\s+[A-Z][a-z]+)*)\s+Assurance", 0.85),
    Probe(@"([A-Z][a-z]+(?:\s+[A-Z][a-z]+)*)\s+Mutual", 0.80),
    Probe(@"insurance\s+company\s*:?\s*([A-Z][a-z]+(?:\s+[A-Z][a-z]+)*)", 0.80),
    Probe(@"carrier\s*:?\s*([A-Z][a-z]+(?:\s+[A-Z][a-z]+)*)", 0.75)]

  /**
   * The text's own spelling of the first case-insensitive occurrence of
   * `insurer` (the `re.escape(insurer)` search with IGNORECASE).
   */
  function CasedOccurrence(text: string, insurer: string): (r: Option<string>)
    ensures r.Some? <==> Contains(Lower(text), insurer)
    ensures r.Some? ==> Lower(r.value) == insurer && Contains(text, r.value)
  {
    match IndexOf(Lower(text), insurer)
    case None => None
    case Some(k) =>
      var name := text[k..k + |insurer|];
      assert Lower(name) == insurer by {
        forall m | 0 <= m < |insurer|
          ensures Lower(name)[m] == insurer[m]
        {
          assert Lower(text)[k..k + |insurer|][m] == Lower(text)[k + m];
        }
      }
      assert OccursAt(text, name, k);
      ContainsIff(text, name);
      Some(name)
  }

  /** Appends " Insurance" unless the name already mentions insurance in any casing. */
  function WithInsurance(name: string): (r: string)
    ensures Contains(Lower(r), "insurance")
    ensures Contains(Lower(name), "insurance") ==> r == name
    ensures !Contains(Lower(name), "insurance") ==> r == name + " Insurance"
  {
    if Contains(Lower(name), "insurance") then name
    else
      var r := name + " Insurance";
      LowerAppend(name, " Insurance");
      assert Lower(" Insurance") == " insurance";
      assert OccursAt(Lower(r), "insurance", |name| + 1) by {
        assert Lower(r)[|name| + 1..|name| + 10] == Lower(" Insurance")[1..];
      }
      ContainsIff(Lower(r), "insurance");
      r
  }

  function InsurerHit(text: string, search: Search, p: Probe): Option<string> {
    match search(p.pattern, text)
    case None => None
    case Some(g) => Some(WithInsurance(Strip(g)))
  }

  /**
   * The first name of the list that occurs in the lower-cased text, spelled
   * as the text spells it, at 0.95.
   */
  function FirstKnown(text: string, names: seq<string>): (r: Field)
    ensures r == NotFound <==> forall i :: 0 <= i < |names| ==> !Contains(Lower(text), names[i])
    ensures r.value.Some? ==> r.confidence == 0.95 && Lower(r.value.value) in names && Contains(text, r.value.value)
    ensures forall i :: (0 <= i < |names| && Contains(Lower(text), names[i]) &&
      (forall j :: 0 <= j < i ==> !Contains(Lower(text), names[j]))) ==>
      r.value.Some? && Lower(r.value.value) == names[i]
  {
    var hit := (ins: string) => CasedOccurrence(text, ins);
    var conf := (ins: string) => 0.95;
    FirstHitFirst(names, hit, conf);
    FirstHitFound(names, hit, conf);
    FirstHit(names, hit, conf)
  }

  /** The known-insurer scan alone. */
  function KnownInsurer(text: string): (r: Field)
    ensures r == NotFound <==> forall i :: 0 <= i < |KnownInsurers| ==> !Contains(Lower(text), KnownInsurers[i])
    ensures r.value.Some? ==> r.confidence == 0.95 && Lower(r.value.value) in KnownInsurers && Contains(text, r.value.value)
    ensures forall i :: (0 <= i < |KnownInsurers| && Contains(Lower(text), KnownInsurers[i]) &&
      (forall j :: 0 <= j < i ==> !Contains(Lower(text), KnownInsurers[j]))) ==>
      r.value.Some? && Lower(r.value.value) == KnownInsurers[i]
  {
    FirstKnown(text, KnownInsurers)
  }

  /** When there is a hit, some probe is the earliest that hits. */
  lemma {:induction false} FirstHitFound<P>(probes: seq<P>, hit: P -> Option<string>, conf: P -> real)
    ensures FirstHit(probes, hit, conf).value.Some? ==>
      exists i :: 0 <= i < |probes| && hit(probes[i]).Some? &&
        (forall j :: 0 <= j < i ==> hit(probes[j]).None?)
  {
    if probes != [] && hit(probes[0]).None? {
      FirstHitFound(probes[1..], hit, conf);
      if FirstHit(probes, hit, conf).value.Some? {
        var i :| 0 <= i < |probes[1..]| && hit(probes[1..][i]).Some? &&
          (forall j :: 0 <= j < i ==> hit(probes[1..][j]).None?);
        assert hit(probes[i + 1]).Some?;
        forall j | 0 <= j < i + 1
          ensures hit(probes[j]).None?
        {
          if j > 0 {
            assert probes[1..][j - 1] == probes[j];
          }
        }
      }
    }
  }

  /**
   * The pattern fallback: the first pattern that matches gives its trimmed
   * capture, with " Insurance" added when it does not mention insurance,
   * at that pattern's confidence.
   */
  function FirstInsurer(text: string, search: Search, probes: seq<Probe>): (r: Field)
    ensures r.value.Some? ==> Contains(Lower(r.value.value), "insurance")
    ensures r == NotFound <==> forall i :: 0 <= i < |probes| ==> search(probes[i].pattern, text).None?
    ensures forall i :: (0 <= i < |probes| && search(probes[i].pattern, text).Some? &&
      (forall j :: 0 <= j < i ==> search(probes[j].pattern, text).None?)) ==>
      r == Field(Some(WithInsurance(Strip(search(probes[i].pattern, text).value))), probes[i].confidence)
  {
    var hit := (p: Probe) => InsurerHit(text, search, p);
    var conf := (p: Probe) => p.confidence;
    FirstHitFound(probes, hit, conf);
    InsurerFirst(text, search, probes, hit, conf);
    FirstHit(probes, hit, conf)
  }

  /** The earliest matching insurer pattern decides the name and the confidence. */
  lemma InsurerFirst(text: string, search: Search, probes: seq<Probe>, hit: Probe -> Option<string>, conf: Probe -> real)
    requires forall p :: hit(p) == InsurerHit(text, search, p)
    requires forall p :: conf(p) == p.confidence
    ensures forall i :: (0 <= i < |probes| && search(probes[i].pattern, text).Some? &&
      (forall j :: 0 <= j < i ==> search(probes[j].pattern, text).None?)) ==>
      FirstHit(probes, hit, conf) == Field(Some(WithInsurance(Strip(search(probes[i].pattern, text).value))), probes[i].confidence)
  {
    forall i | 0 <= i < |probes| && search(probes[i].pattern, text).Some? &&
      (forall j :: 0 <= j < i ==> search(probes[j].pattern, text).None?)
      ensures FirstHit(probes, hit, conf) == Field(Some(WithInsurance(Strip(search(probes[i].pattern, text).value))), probes[i].confidence)
    {
      assert forall j :: 0 <= j < i ==> hit(probes[j]).None?;
      FirstHitAt(probes, hit, conf, i);
    }
  }

  /**
   * `_extract_insurance_company`: a known insurer in the text wins, spelled
   * as the text spells it, at 0.95; otherwise the first pattern that matches
   * gives its trimmed capture, made to mention insurance, at its confidence.
   */
  function InsuranceCompany(text: string, search: Search): (r: Field)
    ensures KnownInsurer(text).value.Some? ==> r == KnownInsurer(text)
    ensures KnownInsurer(text).value.None? && r.value.Some? ==> Contains(Lower(r.value.value), "insurance")
    ensures KnownInsurer(text) == NotFound ==> r == FirstInsurer(text, search, InsurerProbes)
  {
    var known := KnownInsurer(text);
    if known.value.Some? then known else FirstInsurer(text, search, InsurerProbes)
  }

  /**
   * Without a known insurer, the first insurer pattern that matches names
   * the company: its trimmed capture, made to mention insurance, at that
   * pattern's confidence.
   */
  lemma InsuranceFromPattern(text: string, search: Search, i: nat)
    requires KnownInsurer(text) == NotFound
    requires i < |InsurerProbes| && search(InsurerProbes[i].pattern, text).Some?
    requires forall j :: 0 <= j < i ==> search(InsurerProbes[j].pattern, text).None?
    ensures InsuranceCompany(text, search) ==
      Field(Some(WithInsurance(Strip(search(InsurerProbes[i].pattern, text).value))), InsurerProbes[i].confidence)
  {
  }

  // ---------------------------------------------------------------------
  // Incident date
  // ---------------------------------------------------------------------

  /** The labelled-date patterns, searched case-insensitively. */
  const LabelPatterns: seq<string> := [
    @"(?i)(?:date\s+of\s+)?(?:incident|accident|injury|occurrence)\s*:?\s*([A-Za-z]+\s+\d{1,2},?\s+\d{4})",
    @"(?i)(?:date\s+of\s+)?(?:incident|accident|injury|occurrence)\s*:?\s*(\d{1,2}[/-]\d{1,2}[/-]\d{2,4})",
    @"(?i)(?:date\s+of\s+)?(?:incident|accident|injury|occurrence)\s*:?\s*(\d{4}-\d{2}-\d{2})"]

  /** Any date in the text, searched case-sensitively. */
  const DatePatterns: seq<string> := [
    @"\b([A-Z][a-z]+\.?\s+\d{1,2},?\s+\d{4})\b",
    @"\b(\d{4}-\d{2}-\d{2})\b",
    @"\b(\d{1,2}[/-]\d{1,2}[/-]\d{2,4})\b"]

  /** A date pattern hits when it matches and its trimmed capture normalises to a non-empty date. */
  function DateHit(text: string, search: Search, normalise: Normalise, pattern: string): (r: Option<string>)
    ensures r.Some? ==> r.value != ""
  {
    match search(pattern, text)
    case None => None
    case Some(g) =>
      match normalise(Strip(g))
      case Some(d) => if d != "" then Some(d) else None
      case None => None
  }

  /**
   * One of the two loops of `_extract_incident_date`: the first pattern
   * whose capture normalises gives the date, at the loop's fixed confidence.
   */
  function FirstDate(text: string, search: Search, normalise: Normalise, patterns: seq<string>, confidence: real)
    : (r: Field)
    ensures r.value.Some? ==> r.value.value != "" && r.confidence == confidence
    ensures r.value.None? ==> r == NotFound
    ensures r == NotFound <==> forall i :: 0 <= i < |patterns| ==> DateHit(text, search, normalise, patterns[i]).None?
    ensures forall i :: (0 <= i < |patterns| && DateHit(text, search, normalise, patterns[i]).Some? &&
      (forall j :: 0 <= j < i ==> DateHit(text, search, normalise, patterns[j]).None?)) ==>
      r.value == DateHit(text, search, normalise, patterns[i])
  {
    var hit := (p: string) => DateHit(text, search, normalise, p);
    var conf := (p: string) => confidence;
    FirstHitFound(patterns, hit, conf);
    FirstHitFirst(patterns, hit, conf);
    FirstHit(patterns, hit, conf)
  }

  /**
   * `_extract_incident_date`: labelled dates first (0.95), then any date in
   * the text (0.70); a capture that does not normalise falls through to the
   * next pattern.
   */
  function IncidentDate(text: string, search: Search, normalise: Normalise): (r: Field)
    ensures r.value.Some? ==> r.value.value != "" && (r.confidence == 0.95 || r.confidence == 0.70)
    ensures (exists i :: 0 <= i < |LabelPatterns| && DateHit(text, search, normalise, LabelPatterns[i]).Some?) ==>
      r.value.Some? && r.confidence == 0.95
    ensures r == NotFound <==>
      (forall i :: 0 <= i < |LabelPatterns| ==> DateHit(text, search, normalise, LabelPatterns[i]).None?) &&
      (forall i :: 0 <= i < |DatePatterns| ==> DateHit(text, search, normalise, DatePatterns[i]).None?)
    ensures forall i :: (0 <= i < |LabelPatterns| && DateHit(text, search, normalise, LabelPatterns[i]).Some? &&
      (forall j :: 0 <= j < i ==> DateHit(text, search, normalise, LabelPatterns[j]).None?)) ==>
      r == Field(DateHit(text, search, normalise, LabelPatterns[i]), 0.95)
    ensures (forall i :: 0 <= i < |LabelPatterns| ==> DateHit(text, search, normalise, LabelPatterns[i]).None?) ==>
      forall i :: (0 <= i < |DatePatterns| && DateHit(text, search, normalise, DatePatterns[i]).Some? &&
        (forall j :: 0 <= j < i ==> DateHit(text, search, normalise, DatePatterns[j]).None?)) ==>
        r == Field(DateHit(text, search, normalise, DatePatterns[i]), 0.70)
  {
    var labelled := FirstDate(text, search, normalise, LabelPatterns, 0.95);
    if labelled.value.Some? then labelled else FirstDate(text, search, normalise, DatePatterns, 0.70)
  }

  // ---------------------------------------------------------------------
  // Medical providers
  // ---------------------------------------------------------------------

  datatype Provider = Provider(name: string, confidence: real) {
    function ToJson(): Json {
      JObj(map["value" := JStr(name), "confidence" := JNum(confidence)])
    }
  }

  const DoctorProbes: seq<Probe> := [
    Probe(@"Dr\.?\s+([A-Z][a-z]+(?:\s+[A-Z][a-z]+)?)", 0.90),
    Probe(@"Doctor\s+([A-Z][a-z]+(?:\s+[A-Z][a-z]+)?)", 0.85),
    Probe(@"physician\s*:?\s*Dr\.?\s+([A-Z][a-z]+(?:\s+[A-Z][a-z]+)?)", 0.90)]

  const HospitalProbes: seq<Probe> := [
    Probe(@"([A-Z][a-z]+(?:\s+[A-Z][a-z]+)*)\s+(?:Hospital|Medical\s+Center|Clinic|Healthcare)", 0.90),
    Probe(@"(?:St\.|Mt\.|Saint)\s+([A-Z][a-z]+(?:\'s)?)\s+(?:Hospital|Medical\s+Center|Clinic)", 0.95),
    Probe(@"([A-Z][a-z]+\s+General)\s+Hospital", 0.90),
    Probe(@"(Memorial)\s+(?:Hospital|Medical\s+Center)", 0.85)]

  function DoctorName(m: Match): (r: string)
    ensures StartsWith(r, "Dr. ")
  {
    "Dr. " + Strip(m.group)
  }

  /** A saint's or mount's hospital keeps the whole match; any other gets " Hospital" after its name. */
  function HospitalName(m: Match): (r: string)
    ensures Contains(Lower(m.whole), "st.") || Contains(Lower(m.whole), "mt.") ==> r == Strip(m.whole)
    ensures EndsWith(r, " Hospital") || Contains(Lower(m.whole), "st.") || Contains(Lower(m.whole), "mt.")
  {
    if Contains(Lower(m.whole), "st.") || Contains(Lower(m.whole), "mt.") then Strip(m.whole)
    else Strip(m.group) + " Hospital"
  }

  /** The dedup key: `name.lower()`. */
  function ProviderKey(p: Provider): string {
    Lower(p.name)
  }

  /** The providers one pattern's matches name, in text order. */
  function Named(ms: seq<Match>, name: Match -> string, confidence: real): (r: seq<Provider>)
    ensures |r| == |ms|
    ensures forall i :: 0 <= i < |ms| ==> r[i] == Provider(name(ms[i]), confidence)
  {
    seq(|ms|, i requires 0 <= i < |ms| => Provider(name(ms[i]), confidence))
  }

  /** Every match of every probe, pattern by pattern, before deduplication. */
  function Candidates(text: string, findAll: FindAll, probes: seq<Probe>, name: Match -> string): (r: seq<Provider>)
    ensures forall c :: c in r ==> exists k :: 0 <= k < |probes| && c.confidence == probes[k].confidence
  {
    if probes == [] then []
    else
      var p := probes[|probes| - 1];
      Candidates(text, findAll, probes[..|probes| - 1], name) + Named(findAll(p.pattern, text), name, p.confidence)
  }

  lemma DoctorCandidates(text: string, findAll: FindAll, probes: seq<Probe>)
    ensures forall c :: c in Candidates(text, findAll, probes, DoctorName) ==> StartsWith(c.name, "Dr. ")
  {
    if probes != [] {
      DoctorCandidates(text, findAll, probes[..|probes| - 1]);
    }
  }

  /** One more probe adds its own matches after those of the probes before it. */
  lemma CandidatesStep(text: string, findAll: FindAll, probes: seq<Probe>, name: Match -> string, k: nat)
    requires k < |probes|
    ensures Candidates(text, findAll, probes[..k + 1], name) ==
      Candidates(text, findAll, probes[..k], name) +
      Named(findAll(probes[k].pattern, text), name, probes[k].confidence)
  {
    assert probes[..k + 1][..k] == probes[..k];
  }

  /** What `_extract_medical_providers` returns. */
  function MedicalProviders(text: string, findAll: FindAll): (r: seq<Provider>)
    ensures forall i, j :: 0 <= i < j < |r| ==> Lower(r[i].name) != Lower(r[j].name)
  {
    DedupDistinct(Candidates(text, findAll, DoctorProbes, DoctorName) +
      Candidates(text, findAll, HospitalProbes, HospitalName), ProviderKey);
    DedupBy(Candidates(text, findAll, DoctorProbes, DoctorName) +
            Candidates(text, findAll, HospitalProbes, HospitalName), ProviderKey)
  }

  /**
   * No two providers share a lower-cased name; the doctors, all named
   * "Dr. ...", come first, and everything after them is a hospital mention.
   */
  lemma ProvidersShape(text: string, findAll: FindAll)
    ensures var r := MedicalProviders(text, findAll);
      forall i, j :: 0 <= i < j < |r| ==> Lower(r[i].name) != Lower(r[j].name)
    ensures var r := MedicalProviders(text, findAll);
      var doctors := DedupBy(Candidates(text, findAll, DoctorProbes, DoctorName), ProviderKey);
      |doctors| <= |r| && r[..|doctors|] == doctors &&
      (forall i :: 0 <= i < |doctors| ==> StartsWith(r[i].name, "Dr. ")) &&
      (forall i :: |doctors| <= i < |r| ==> r[i] in Candidates(text, findAll, HospitalProbes, HospitalName))
  {
    var ds := Candidates(text, findAll, DoctorProbes, DoctorName);
    var hs := Candidates(text, findAll, HospitalProbes, HospitalName);
    var r := MedicalProviders(text, findAll);
    DedupDistinct(ds + hs, ProviderKey);
    DedupExtends(ds, hs, ProviderKey);
    DedupElements(ds, ProviderKey);
    DoctorCandidates(text, findAll, DoctorProbes);
    var doctors := DedupBy(ds, ProviderKey);
    forall i | 0 <= i < |doctors|
      ensures StartsWith(r[i].name, "Dr. ")
    {
      assert r[i] == r[..|doctors|][i] == doctors[i];
      assert doctors[i] in doctors;
    }
  }

  /** One step of the loop: admit `c` unless its key has been seen, and keep `seen` in step. */
  lemma DedupStep(s: seq<Provider>, c: Provider, providers: seq<Provider>, seen: set<string>)
    requires providers == DedupBy(s, ProviderKey) && seen == KeysOf(providers, ProviderKey)
    ensures ProviderKey(c) in seen ==> DedupBy(s + [c], ProviderKey) == providers
    ensures ProviderKey(c) !in seen ==>
      DedupBy(s + [c], ProviderKey) == providers + [c] &&
      KeysOf(providers + [c], ProviderKey) == seen + {ProviderKey(c)}
  {
    assert (s + [c])[..|s|] == s;
    KeysOfAppend(providers, c, ProviderKey);
  }

  /** The inner loop over one pattern's matches, with the `seen` set of lower-cased names. */
  method AdmitAll(ghost done: seq<Provider>, providers: seq<Provider>, seen: set<string>, batch: seq<Provider>)
    returns (providers': seq<Provider>, seen': set<string>)
    requires providers == DedupBy(done, ProviderKey) && seen == KeysOf(providers, ProviderKey)
    ensures providers' == DedupBy(done + batch, ProviderKey)
    ensures seen' == KeysOf(providers', ProviderKey)
  {
    providers', seen' := providers, seen;
    ghost var admitted := done;
    for i := 0 to |batch|
      invariant admitted == done + batch[..i]
      invariant providers' == DedupBy(admitted, ProviderKey)
      invariant seen' == KeysOf(providers', ProviderKey)
    {
      var c := batch[i];
      DedupStep(admitted, c, providers', seen');
      if ProviderKey(c) !in seen' {
        providers' := providers' + [c];
        seen' := seen' + {ProviderKey(c)};
      }
      admitted := admitted + [c];
      TakeStep(batch, i);
      AppendAssoc(done, batch[..i], [c]);
    }
    assert batch[..|batch|] == batch;
  }

  /** The outer loop over a list of patterns. */
  method AdmitProbes(text: string, findAll: FindAll, probes: seq<Probe>, name: Match -> string,
                     ghost done: seq<Provider>, providers: seq<Provider>, seen: set<string>)
    returns (providers': seq<Provider>, seen': set<string>)
    requires providers == DedupBy(done, ProviderKey) && seen == KeysOf(providers, ProviderKey)
    ensures providers' == DedupBy(done + Candidates(text, findAll, probes, name), ProviderKey)
    ensures seen' == KeysOf(providers', ProviderKey)
  {
    providers', seen' := providers, seen;
    ghost var gathered := done;
    assert Candidates(text, findAll, probes[..0], name) == [];
    for k := 0 to |probes|
      invariant gathered == done + Candidates(text, findAll, probes[..k], name)
      invariant providers' == DedupBy(gathered, ProviderKey)
      invariant seen' == KeysOf(providers', ProviderKey)
    {
      var p := probes[k];
      var batch := Named(findAll(p.pattern, text), name, p.confidence);
      providers', seen' := AdmitAll(gathered, providers', seen', batch);
      CandidatesStep(text, findAll, probes, name, k);
      AppendAssoc(done, Candidates(text, findAll, probes[..k], name), batch);
      gathered := gathered + batch;
    }
    assert probes[..|probes|] == probes;
  }

  /** `_extract_medical_providers`: doctor patterns, then hospital patterns, through one `seen` set. */
  method ExtractMedicalProviders(text: string, findAll: FindAll) returns (providers: seq<Provider>)
    ensures providers == MedicalProviders(text, findAll)
  {
    var seen: set<string> := {};
    providers := [];
    var ds := Candidates(text, findAll, DoctorProbes, DoctorName);
    providers, seen := AdmitProbes(text, findAll, DoctorProbes, DoctorName, [], providers, seen);
    assert [] + ds == ds;
    providers, seen := AdmitProbes(text, findAll, HospitalProbes, HospitalName, ds, providers, seen);
  }

  // ---------------------------------------------------------------------
  // The whole record
  // ---------------------------------------------------------------------

  const ContextKeys: set<string> := {
    "client_name", "case_number", "case_type", "insurance_company", "date_of_incident",
    "medical_providers"}

  function ProvidersJson(ps: seq<Provider>): (r: Json)
    ensures r.JArr? && |r.items| == |ps|
    ensures forall i :: 0 <= i < |ps| ==> r.items[i] == ps[i].ToJson()
  {
    JArr(seq(|ps|, i requires 0 <= i < |ps| => ps[i].ToJson()))
  }

  /** `context` holds exactly the six fields, each the given extractor's result. */
  predicate Holds(context: Obj, client: Field, number: Field, caseType: Field, insurer: Field, date: Field,
                  providers: seq<Provider>) {
    context.Keys == ContextKeys &&
    context["client_name"] == client.ToJson() &&
    context["case_number"] == number.ToJson() &&
    context["case_type"] == caseType.ToJson() &&
    context["insurance_company"] == insurer.ToJson() &&
    context["date_of_incident"] == date.ToJson() &&
    context["medical_providers"] == ProvidersJson(providers)
  }

  /** The `context` dict for the given fields. */
  function ContextOf(client: Field, number: Field, caseType: Field, insurer: Field, date: Field,
                     providers: seq<Provider>): (r: Obj)
    ensures Holds(r, client, number, caseType, insurer, date, providers)
  {
    var r := map[
      "client_name" := client.ToJson(), "case_number" := number.ToJson(), "case_type" := caseType.ToJson(),
      "insurance_company" := insurer.ToJson(), "date_of_incident" := date.ToJson(),
      "medical_providers" := ProvidersJson(providers)];
    assert r.Keys == ContextKeys;
    r
  }

  /** Two dicts holding the same six fields are the same dict. */
  lemma HoldsUnique(c: Obj, d: Obj, client: Field, number: Field, caseType: Field, insurer: Field, date: Field,
                    providers: seq<Provider>)
    requires Holds(c, client, number, caseType, insurer, date, providers)
    requires Holds(d, client, number, caseType, insurer, date, providers)
    ensures c == d
  {
    forall k | k in c
      ensures c[k] == d[k]
    {
      assert k in ContextKeys;
    }
  }

  /** What `extract_case_context` returns. */
  function CaseContext(text: string, search: Search, findAll: FindAll, normalise: Normalise): (r: Obj)
    ensures Holds(r, ClientName(text, search), CaseNumber(text, search), CaseType(text),
                  InsuranceCompany(text, search), IncidentDate(text, search, normalise), MedicalProviders(text, findAll))
  {
    ContextOf(ClientName(text, search), CaseNumber(text, search), CaseType(text),
      InsuranceCompany(text, search), IncidentDate(text, search, normalise), MedicalProviders(text, findAll))
  }

  /** The `context` dict, filled field by field in the source's order. */
  method FillContext(client: Field, number: Field, caseType: Field, insurer: Field, date: Field,
                     providers: seq<Provider>) returns (context: Obj)
    ensures Holds(context, client, number, caseType, insurer, date, providers)
  {
    context := map["client_name" := client.ToJson()];
    context := context["case_number" := number.ToJson()];
    assert context.Keys == {"client_name", "case_number"};
    context := context["case_type" := caseType.ToJson()];
    assert context.Keys == {"client_name", "case_number", "case_type"};
    context := context["insurance_company" := insurer.ToJson()];
    assert context.Keys == {"client_name", "case_number", "case_type", "insurance_company"};
    context := context["date_of_incident" := date.ToJson()];
    assert context.Keys == ContextKeys - {"medical_providers"};
    context := context["medical_providers" := ProvidersJson(providers)];
    assert context.Keys == ContextKeys;
  }

  /** `extract_case_context`: the six fields, each from its own extractor. */
  method ExtractCaseContext(text: string, search: Search, findAll: FindAll, normalise: Normalise)
    returns (context: Obj)
    ensures Holds(context, ClientName(text, search), CaseNumber(text, search), CaseType(text),
                  InsuranceCompany(text, search), IncidentDate(text, search, normalise), MedicalProviders(text, findAll))
    ensures context == CaseContext(text, search, findAll, normalise)
  {
    var providers := ExtractMedicalProviders(text, findAll);
    context := FillContext(ClientName(text, search), CaseNumber(text, search), CaseType(text),
      InsuranceCompany(text, search), IncidentDate(text, search, normalise), providers);
    HoldsUnique(context, CaseContext(text, search, findAll, normalise), ClientName(text, search),
      CaseNumber(text, search), CaseType(text), InsuranceCompany(text, search), IncidentDate(text, search, normalise),
      providers);
  }
}
