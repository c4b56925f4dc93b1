/**
 * The attorney brief: a paragraph composed from the orchestrator's result.
 * Its three sections are a case overview built from the context metadata,
 * one clause per agent that produced something, and a summary of the first
 * recommended actions. Any exception while composing yields a fixed error
 * sentence instead.
 *
 * The inputs are dynamic values, so `dict.get`, `len`, indexing and
 * iteration on the wrong kind of value are modelled as the exceptions
 * Python raises. Date formatting with `strptime`/`strftime` is a parameter.
 */
module Brief {
  import opened Outcomes
  import opened Text
  import opened Json

  const BriefError: string := "Error generating attorney brief. " + "Please review case file manually."

  // ---------------------------------------------------------------------
  // Python operations on dynamic values
  // ---------------------------------------------------------------------

  /** `v.get(key, default)`, which only a dict has. */
  function GetOn(v: Json, key: string, default: Json): (r: Result<Json>)
    ensures r.Ok? <==> v.JObj?
    ensures v.JObj? ==> r.value == Get(v.fields, key, default)
  {
    if v.JObj? then Ok(Get(v.fields, key, default)) else Err(NoAttribute(v, "get"))
  }

  /** `v[0]` */
  function Head(v: Json): (r: Result<Json>)
    ensures v.JArr? && v.items != [] ==> r == Ok(v.items[0])
    ensures r.Ok? <==> (v.JArr? && v.items != []) || (v.JStr? && v.s != [])
  {
    match v
    case JArr(items) => if items != [] then Ok(items[0]) else Err(IndexError("list index out of range"))
    case JStr(s) => if s != [] then Ok(JStr([s[0]])) else Err(IndexError("string index out of range"))
    case JObj(_) => Err(KeyError("0"))
    case _ => Err(TypeError("'" + TypeName(v) + "' object is not subscriptable"))
  }

  /** `v[:n]` as the list of elements iteration would give. */
  function Take(v: Json, n: nat): (r: Result<seq<Json>>)
    ensures v.JArr? ==> r == Ok(if |v.items| <= n then v.items else v.items[..n])
    ensures r.Ok? <==> v.JArr? || v.JStr?
    ensures r.Ok? ==> Len(v).Ok? && |r.value| == if Len(v).value <= n then Len(v).value else n
  {
    match v
    case JArr(items) => Ok(if |items| <= n then items else items[..n])
    case JStr(s) =>
      var t := if |s| <= n then s else s[..n];
      Ok(seq(|t|, i requires 0 <= i < |t| => JStr([t[i]])))
    case JObj(_) => Err(TypeError("unhashable type: 'slice'"))
    case _ => Err(TypeError("'" + TypeName(v) + "' object is not subscriptable"))
  }

  // ---------------------------------------------------------------------
  // Capitalisation (see Findings: the source lower-cases the rest)
  // ---------------------------------------------------------------------

  /** `str.capitalize()`: the first character upper-cased, every other one lower-cased. */
  function Capitalize(s: string): (r: string)
    ensures |r| == |s|
  {
    if s == [] then [] else [UpperChar(s[0])] + Lower(s[1..])
  }

  /** Everything after the first character is lower-cased, so a name inside the phrase loses its capitals. */
  lemma CapitalizeLowersRest(c: char, phrase: string, name: string)
    requires forall i :: 0 <= i < |phrase| ==> !IsUpper(phrase[i])
    ensures Capitalize([c] + phrase + name) == [UpperChar(c)] + phrase + Lower(name)
  {
    assert ([c] + phrase + name)[1..] == phrase + name;
    LowerAppend(phrase, name);
    assert Lower(phrase) == phrase;
  }

  /** As written, "State Farm" comes out as "state farm" in the key-party sentence. */
  lemma CarrierCasingLost()
    ensures Capitalize("the defendant's carrier is State Farm") != "The defendant's carrier is State Farm"
  {
    var s := "the defendant's carrier is State Farm";
    assert Capitalize(s)[27] == Lower(s[1..])[26] == 's';
  }

  /** The evident intent: upper-case the first character and keep the rest as it is. */
  function CapitalizeFirst(s: string): (r: string)
    ensures |r| == |s|
    ensures s != [] ==> r[0] == UpperChar(s[0])
    ensures forall i :: 1 <= i < |s| ==> r[i] == s[i]
  {
    if s == [] then [] else [UpperChar(s[0])] + s[1..]
  }

  /**
   * With the correction, a name after the opening phrase keeps the text's
   * own spelling: only the phrase's first character changes.
   */
  lemma CarrierCasingKept(phrase: string, name: string)
    requires phrase != []
    ensures CapitalizeFirst(phrase + name) == CapitalizeFirst(phrase) + name
  {
    assert (phrase + name)[1..] == phrase[1..] + name;
  }

  // ---------------------------------------------------------------------
  // Case overview
  // ---------------------------------------------------------------------

  /** `context.get(key, {}).get("value")` */
  function FieldValue(context: Json, key: string): (r: Result<Json>)
    ensures r.Ok? <==> context.JObj? && Get(context.fields, key, JObj(map[])).JObj?
  {
    var field :- GetOn(context, key, JObj(map[]));
    GetOn(field, "value", JNull)
  }

  /** The opening phrase, chosen by which of case number and client name are present. */
  function Opening(caseNumber: Json, client: Json): (r: string)
    ensures r != [] && (r[0] == 'T' || r[0] == 'C')
  {
    if Truthy(caseNumber) && Truthy(client) then
      "This office represents " + Render(client) + " in Case #" + Render(caseNumber) + ", which"
    else if Truthy(caseNumber) then "Case #" + Render(caseNumber)
    else if Truthy(client) then "This office represents " + Render(client) + " in a matter that"
    else "This case"
  }

  /** The incident phrase: a formatted date when the value parses as `%Y-%m-%d`, the raw value otherwise. */
  function IncidentPhrase(date: Json, formatDate: string -> Option<string>): (r: string)
    ensures StartsWith(r, "arising from an incident ")
  {
    if date.JStr? && formatDate(date.s).Some? then
      "arising from an incident that occurred on " + formatDate(date.s).value
    else "arising from an incident on " + Render(date)
  }

  /** The treatment clause, from the first provider's `value`, when there is one. */
  function TreatmentParty(providers: Json): (r: Result<seq<string>>)
    ensures !Truthy(providers) ==> r == Ok([])
    ensures r.Ok? ==> |r.value| <= 1
    ensures r.Ok? && r.value != [] ==> StartsWith(r.value[0], "the client received treatment at ")
  {
    if !Truthy(providers) then Ok([])
    else
      var n :- Len(providers);
      var first :- Head(providers);
      var name :- GetOn(first, "value", JNull);
      if !Truthy(name) then Ok([])
      else if n > 1 then Ok(["the client received treatment at " + Render(name) + " and other facilities"])
      else Ok(["the client received treatment at " + Render(name)])
  }

  /** The key-party sentence: the first party capitalised after ". ", the second after ", and ". */
  function PartyParts(parties: seq<string>): (r: seq<string>)
    ensures |r| == if |parties| > 1 then 2 else |parties|
    ensures parties != [] ==> |r[0]| == |parties[0]| + 2 && StartsWith(r[0], ". ")
    ensures |parties| > 1 ==> EndsWith(r[1], parties[1])
  {
    if parties == [] then []
    else [". " + CapitalizeFirst(parties[0])] + (if |parties| > 1 then [", and " + parties[1]] else [])
  }

  /** `" ".join(parts)`, with a final "." added when missing. */
  function Sentence(parts: seq<string>): (r: string)
    requires parts != []
    ensures EndsWith(r, ".")
    ensures StartsWith(r, parts[0])
  {
    var joined := Join(parts, " ");
    JoinStartsWith(parts, " ");
    if EndsWith(joined, ".") then joined
    else
      assert (joined + ".")[..|parts[0]|] == joined[..|parts[0]|];
      joined + "."
  }

  lemma JoinStartsWith(parts: seq<string>, sep: string)
    requires parts != []
    ensures StartsWith(Join(parts, sep), parts[0])
  {
    if |parts| > 1 {
      assert (parts[0] + sep + Join(parts[1..], sep))[..|parts[0]|] == parts[0];
    }
  }

  /** The phrases that open the overview: who and which case, the kind of claim, the incident. */
  function Heading(caseNumber: Json, client: Json, caseType: Json, date: Json,
                   formatDate: string -> Option<string>): (r: seq<string>)
    ensures r != [] && r[0] == Opening(caseNumber, client)
  {
    [Opening(caseNumber, client)] +
    (if Truthy(caseType) then ["involves a " + Render(caseType) + " claim"] else []) +
    (if Truthy(date) then [IncidentPhrase(date, formatDate)] else [])
  }

  /** The key parties: the carrier, then the treating facility. */
  function Parties(insurance: Json, treatment: seq<string>): seq<string> {
    (if Truthy(insurance) then ["the defendant's carrier is " + Render(insurance)] else []) + treatment
  }

  /** The opening phrases of the overview, once the four fields they use are read. */
  function HeadingOf(context: Json, formatDate: string -> Option<string>): (r: Result<seq<string>>)
    ensures r.Ok? ==> FieldValue(context, "case_number").Ok? && FieldValue(context, "client_name").Ok?
    ensures r.Ok? ==> (r.value != [] &&
      r.value[0] == Opening(FieldValue(context, "case_number").value, FieldValue(context, "client_name").value))
  {
    var caseNumber :- FieldValue(context, "case_number");
    var client :- FieldValue(context, "client_name");
    var caseType :- FieldValue(context, "case_type");
    var date :- FieldValue(context, "date_of_incident");
    Ok(Heading(caseNumber, client, caseType, date, formatDate))
  }

  /** The key parties, once the carrier and the providers are read. */
  function PartiesOf(context: Json): Result<seq<string>> {
    var insurance :- FieldValue(context, "insurance_company");
    var treatment :- TreatmentParty(Get(context.fields, "medical_providers", JArr([])));
    Ok(Parties(insurance, treatment))
  }

  /** What `_generate_case_overview` returns, or the exception it raises. */
  function Overview(context: Json, formatDate: string -> Option<string>): (r: Result<string>)
    ensures !context.JObj? ==> r.Err?
    ensures r.Ok? ==> r.value != [] && EndsWith(r.value, ".") && (r.value[0] == 'T' || r.value[0] == 'C')
    ensures r.Ok? ==> (FieldValue(context, "case_number").Ok? && FieldValue(context, "client_name").Ok? &&
      StartsWith(r.value, Opening(FieldValue(context, "case_number").value, FieldValue(context, "client_name").value)))
  {
    var heading :- HeadingOf(context, formatDate);
    var parties :- PartiesOf(context);
    var r := Sentence(heading + PartyParts(parties));
    assert r[..|heading[0]|] == heading[0];
    Ok(r)
  }

  /** The first phrases of `_generate_case_overview`, appended to `parts` one after another. */
  method CaseHeading(context: Json, formatDate: string -> Option<string>) returns (r: Result<seq<string>>)
    ensures r == HeadingOf(context, formatDate)
  {
    var caseNumber := FieldValue(context, "case_number");
    if caseNumber.Err? { return Err(caseNumber.fault); }
    var client := FieldValue(context, "client_name");
    if client.Err? { return Err(client.fault); }
    var caseType := FieldValue(context, "case_type");
    if caseType.Err? { return Err(caseType.fault); }
    var parts := [Opening(caseNumber.value, client.value)];
    if Truthy(caseType.value) {
      parts := parts + ["involves a " + Render(caseType.value) + " claim"];
    }
    var date := FieldValue(context, "date_of_incident");
    if date.Err? { return Err(date.fault); }
    if Truthy(date.value) {
      parts := parts + [IncidentPhrase(date.value, formatDate)];
    }
    assert parts == Heading(caseNumber.value, client.value, caseType.value, date.value, formatDate);
    return Ok(parts);
  }

  /** The `key_parties` list of `_generate_case_overview`. */
  method KeyParties(context: Json) returns (r: Result<seq<string>>)
    requires context.JObj?
    ensures r == PartiesOf(context)
  {
    var parties: seq<string> := [];
    var insurance := FieldValue(context, "insurance_company");
    if insurance.Err? { return Err(insurance.fault); }
    if Truthy(insurance.value) {
      parties := parties + ["the defendant's carrier is " + Render(insurance.value)];
    }
    var treatment := TreatmentParty(Get(context.fields, "medical_providers", JArr([])));
    if treatment.Err? { return Err(treatment.fault); }
    parties := parties + treatment.value;
    assert parties == Parties(insurance.value, treatment.value);
    return Ok(parties);
  }

  /** `_generate_case_overview`: the opening phrases, then the key-party sentence, joined. */
  method GenerateCaseOverview(context: Json, formatDate: string -> Option<string>) returns (r: Result<string>)
    ensures r == Overview(context, formatDate)
  {
    var heading := CaseHeading(context, formatDate);
    if heading.Err? { return Err(heading.fault); }
    var parties := KeyParties(context);
    if parties.Err? { return Err(parties.fault); }
    var parts := heading.value;
    var key := parties.value;
    if key != [] {
      var first := ". " + CapitalizeFirst(key[0]);
      parts := parts + [first];
      if |key| > 1 {
        parts := parts + [", and " + key[1]];
        assert PartyParts(key) == [first] + [", and " + key[1]];
        assert parts == heading.value + ([first] + [", and " + key[1]]);
      } else {
        assert PartyParts(key) == [first] + [];
      }
    }
    assert parts == heading.value + PartyParts(key);
    return Ok(Sentence(parts));
  }

  /** A context as the enricher builds it: every single-valued field a dict, the providers a list of dicts. */
  predicate EnrichedShape(context: Obj) {
    (forall k :: k in context && k != "medical_providers" ==> context[k].JObj?) &&
    ("medical_providers" in context ==>
      context["medical_providers"].JArr? &&
      forall i :: 0 <= i < |context["medical_providers"].items| ==> context["medical_providers"].items[i].JObj?)
  }

  /** The overview of such a context never raises. */
  lemma OverviewOfEnriched(context: Obj, formatDate: string -> Option<string>)
    requires EnrichedShape(context)
    ensures Overview(JObj(context), formatDate).Ok?
  {
    var c := JObj(context);
    assert HeadingOf(c, formatDate).Ok? by {
      assert FieldValue(c, "case_number").Ok? && FieldValue(c, "client_name").Ok?;
      assert FieldValue(c, "case_type").Ok? && FieldValue(c, "date_of_incident").Ok?;
    }
    assert PartiesOf(c).Ok? by {
      assert FieldValue(c, "insurance_company").Ok?;
      assert TreatmentParty(Get(context, "medical_providers", JArr([]))).Ok?;
    }
  }

  // ---------------------------------------------------------------------
  // Agent findings
  // ---------------------------------------------------------------------

  /** `"identified 1 missing record"` or `"identified N missing records"` */
  function Counted(verb: string, n: nat, one: string, many: string): (r: string)
    ensures StartsWith(r, verb + " ")
  {
    var w := if n == 1 then one else many;
    assert (verb + " " + NatToString(n) + " " + w)[..|verb| + 1] == verb + " ";
    verb + " " + NatToString(n) + " " + w
  }

  lemma CountedOne(verb: string, one: string, many: string)
    ensures Counted(verb, 1, one, many) == verb + " 1 " + one
  {
    assert NatToString(1) == "1";
  }

  /** The count phrase for a list value when it is truthy: its `len`, which may raise. */
  function CountPart(v: Json, verb: string, one: string, many: string): (r: Result<seq<string>>)
    ensures r.Err? <==> Truthy(v) && Len(v).Err?
    ensures r.Ok? ==> (r.value == [] <==> !Truthy(v))
    ensures r.Ok? && Truthy(v) ==> r.value == [Counted(verb, Len(v).value, one, many)]
  {
    if !Truthy(v) then Ok([])
    else
      var n :- Len(v);
      Ok([Counted(verb, n, one, many)])
  }

  /** What `_summarize_records_wrangler` returns. */
  function RecordsSummary(data: Obj): (r: Result<string>)
    ensures r.Ok? ==> (r.value == "confirmed all records are complete" <==>
      !Truthy(Get(data, "missing_records", JArr([]))) && !Truthy(Get(data, "duplicates", JArr([]))))
    ensures r.Ok? && Truthy(Get(data, "missing_records", JArr([]))) ==> StartsWith(r.value, "identified ")
  {
    var missing :- CountPart(Get(data, "missing_records", JArr([])), "identified", "missing record", "missing records");
    var duplicates :- CountPart(Get(data, "duplicates", JArr([])), "found", "duplicate document", "duplicate documents");
    var parts := missing + duplicates;
    if parts == [] then Ok("confirmed all records are complete")
    else
      RecordsJoined(missing, duplicates);
      Ok(Join(parts, " and "))
  }

  /** Joined count phrases start with their first verb, so they never read as the all-complete sentence. */
  lemma RecordsJoined(missing: seq<string>, duplicates: seq<string>)
    requires missing + duplicates != []
    requires missing != [] ==> StartsWith(missing[0], "identified" + " ")
    requires duplicates != [] ==> StartsWith(duplicates[0], "found" + " ")
    ensures Join(missing + duplicates, " and ") != "confirmed all records are complete"
    ensures missing != [] ==> StartsWith(Join(missing + duplicates, " and "), "identified ")
  {
    var parts := missing + duplicates;
    var r := Join(parts, " and ");
    JoinStartsWith(parts, " and ");
    if missing != [] {
      assert parts[0] == missing[0];
      StartsWithTrans(r, parts[0], "identified ");
      assert r[0] == 'i';
    } else {
      assert parts[0] == duplicates[0];
      StartsWithTrans(r, parts[0], "found ");
      assert r[0] == 'f';
    }
  }

  lemma StartsWithTrans(s: string, t: string, u: string)
    requires StartsWith(s, t) && StartsWith(t, u)
    ensures StartsWith(s, u)
  {
    assert s[..|u|] == s[..|t|][..|u|];
  }

  /** `_summarize_records_wrangler`: collects the parts, then joins them with " and ". */
  method SummarizeRecords(data: Obj) returns (r: Result<string>)
    ensures r == RecordsSummary(data)
  {
    var parts: seq<string> := [];
    var missing := CountPart(Get(data, "missing_records", JArr([])), "identified", "missing record", "missing records");
    if missing.Err? { return Err(missing.fault); }
    parts := parts + missing.value;
    var duplicates := CountPart(Get(data, "duplicates", JArr([])), "found", "duplicate document", "duplicate documents");
    if duplicates.Err? { return Err(duplicates.fault); }
    parts := parts + duplicates.value;
    if parts == [] {
      parts := parts + ["confirmed all records are complete"];
    }
    r := Ok(Join(parts, " and "));
  }

  /** What `_summarize_communication_guru` returns. */
  function CommunicationSummary(data: Obj): (r: string)
    ensures StartsWith(r, "detected ") <==> Truthy(Get(data, "tone", JStr("")))
  {
    var tone := Get(data, "tone", JStr(""));
    if Truthy(tone) then
      var r := "detected " + Render(tone) + " client tone and prepared appropriate response";
      assert r[..9] == "detected ";
      r
    else
      var r := "prepared client communication";
      assert r[0] == 'p';
      r
  }

  /** What `_summarize_legal_researcher` returns; a single case is named, and must be a dict. */
  function LegalSummary(data: Obj): (r: Result<string>)
    ensures !Truthy(Get(data, "relevant_cases", JArr([]))) ==> r == Ok("completed legal research")
    ensures r.Ok? && Truthy(Get(data, "relevant_cases", JArr([]))) ==> StartsWith(r.value, "found ")
    ensures var cases := Get(data, "relevant_cases", JArr([]));
      cases.JArr? && |cases.items| == 1 && cases.items[0].JObj? ==>
        r == Ok("found 1 relevant precedent (" + Render(Get(cases.items[0].fields, "case_name", JStr("relevant case"))) + ")")
    ensures var cases := Get(data, "relevant_cases", JArr([]));
      cases.JArr? && |cases.items| > 1 ==> r == Ok("found " + NatToString(|cases.items|) + " relevant legal precedents")
  {
    var cases := Get(data, "relevant_cases", JArr([]));
    if !Truthy(cases) then Ok("completed legal research")
    else
      var n :- Len(cases);
      if n == 1 then
        var first :- Head(cases);
        var name :- GetOn(first, "case_name", JStr("relevant case"));
        var r := "found 1 relevant precedent (" + Render(name) + ")";
        assert r[..6] == "found ";
        Ok(r)
      else
        var r := "found " + NatToString(n) + " relevant legal precedents";
        assert r[..6] == "found ";
        Ok(r)
  }

  /** How many items of the list are dicts whose `authenticity_status` is "verified"; a non-dict raises. */
  function VerifiedIn(items: seq<Json>): (r: Result<nat>)
    ensures r.Ok? <==> forall i :: 0 <= i < |items| ==> items[i].JObj?
    ensures r.Ok? ==> r.value <= |items|
  {
    if items == [] then Ok(0)
    else
      var last := items[|items| - 1];
      var before := VerifiedIn(items[..|items| - 1]);
      assert forall i :: 0 <= i < |items| - 1 ==> items[..|items| - 1][i] == items[i];
      if before.Err? then before
      else if !last.JObj? then Err(NoAttribute(last, "get"))
      else Ok(before.value + if Get(last.fields, "authenticity_status", JNull) == JStr("verified") then 1 else 0)
  }

  /** `sum(1 for e in evidence if e.get(...) == "verified")` on a truthy value. */
  function Verified(evidence: Json): (r: Result<nat>)
    ensures r.Ok? <==> evidence.JArr? && forall i :: 0 <= i < |evidence.items| ==> evidence.items[i].JObj?
    ensures r.Ok? ==> r.value <= |evidence.items|
  {
    match evidence
    case JArr(items) => VerifiedIn(items)
    case JStr(_) => Err(NoAttribute(JStr(""), "get"))
    case JObj(_) => Err(NoAttribute(JStr(""), "get"))
    case _ => Err(TypeError("'" + TypeName(evidence) + "' object is not iterable"))
  }

  function CountChar(s: string, c: char): nat {
    if s == [] then 0 else CountChar(s[..|s| - 1], c) + (if s[|s| - 1] == c then 1 else 0)
  }

  lemma CountCharAppend(a: string, b: string, c: char)
    ensures CountChar(a + b, c) == CountChar(a, c) + CountChar(b, c)
    decreases |b|
  {
    if b == [] {
      assert a + b == a;
    } else {
      assert (a + b)[..|a + b| - 1] == a + b[..|b| - 1];
      CountCharAppend(a, b[..|b| - 1], c);
    }
  }

  predicate NoParens(s: string) {
    forall i :: 0 <= i < |s| ==> s[i] != '(' && s[i] != ')'
  }

  lemma NoParensCount(s: string)
    requires NoParens(s)
    ensures CountChar(s, '(') == 0 && CountChar(s, ')') == 0
  {
    if s != [] {
      NoParensCount(s[..|s| - 1]);
    }
  }

  /** The evidence sorter's parts joined as the source writes it. */
  function EvidenceJoinAsWritten(parts: seq<string>): (r: string)
    ensures !Contains(Join(parts, " "), "(") ==> EndsWith(r, ")")
  {
    if !Contains(Join(parts, " "), "(") then
      var joined := Join(parts, " (");
      assert (joined + ")")[|joined|..] == ")";
      joined + ")"
    else Join(parts, " and ")
  }

  /** Text with no parenthesis has no "(" in it. */
  lemma NoParensNoOpening(s: string)
    requires NoParens(s)
    ensures !Contains(s, "(")
  {
    ContainsIff(s, "(");
    forall i: nat | i < |s|
      ensures !OccursAt(s, "(", i)
    {
      assert s[i..i + 1][0] == s[i] != '(';
    }
  }

  /** A single part without parentheses gets a closing parenthesis that nothing opens. */
  lemma SingleJoinUnbalanced(p: string)
    requires NoParens(p)
    ensures EvidenceJoinAsWritten([p]) == p + ")"
    ensures !Balanced(EvidenceJoinAsWritten([p]))
  {
    NoParensNoOpening(p);
    assert Join([p], " ") == p && Join([p], " (") == p;
    NoParensCount(p);
    CountCharAppend(p, ")", '(');
    CountCharAppend(p, ")", ')');
    assert ")"[..0] == "";
  }

  /** One piece of evidence and nothing else gets a closing parenthesis that nothing opens. */
  lemma EvidenceJoinUnbalanced()
    ensures EvidenceJoinAsWritten(["catalogued 1 piece of evidence"]) == "catalogued 1 piece of evidence)"
    ensures !Balanced(EvidenceJoinAsWritten(["catalogued 1 piece of evidence"]))
  {
    var p := "catalogued 1 piece of evidence";
    assert NoParens(p);
    SingleJoinUnbalanced(p);
  }

  /** `"catalogued N pieces of evidence"` with the verified count in parentheses when there is one. */
  function EvidencePart(count: nat, verified: nat): string {
    (if count == 1 then "catalogued 1 piece of evidence" else "catalogued " + NatToString(count) + " pieces of evidence") +
    (if verified > 0 then " (" + NatToString(verified) + " verified)" else "")
  }

  function MissingPart(count: nat): string {
    if count == 1 then "noted 1 missing exhibit" else "noted " + NatToString(count) + " missing exhibits"
  }

  /**
   * The evident intent of `_summarize_evidence_sorter`: the verified count
   * in parentheses after the evidence count, the missing exhibits after
   * " and ", and "organized case evidence" when there is neither.
   */
  function EvidenceText(evidence: Option<(nat, nat)>, missing: Option<nat>): (r: string)
    ensures evidence.None? && missing.None? <==> r == "organized case evidence"
  {
    var parts := (if evidence.Some? then [EvidencePart(evidence.value.0, evidence.value.1)] else []) +
      (if missing.Some? then [MissingPart(missing.value)] else []);
    if parts == [] then "organized case evidence"
    else
      var r := Join(parts, " and ");
      JoinStartsWith(parts, " and ");
      assert r[..|parts[0]|] == parts[0];
      assert r[0] == parts[0][0] == 'c' || r[0] == parts[0][0] == 'n';
      r
  }

  lemma DigitsNoParens(n: nat)
    ensures NoParens(NatToString(n))
  {
  }

  predicate Balanced(s: string) {
    CountChar(s, '(') == CountChar(s, ')')
  }

  lemma BalancedAppend(a: string, b: string)
    requires Balanced(a) && Balanced(b)
    ensures Balanced(a + b)
  {
    CountCharAppend(a, b, '(');
    CountCharAppend(a, b, ')');
  }

  lemma NoParensBalanced(s: string)
    requires NoParens(s)
    ensures Balanced(s)
  {
    NoParensCount(s);
  }

  /** A parenthesised text without parentheses of its own, after one without any, is balanced. */
  lemma ParenthesisedBalanced(pre: string, x: string)
    requires NoParens(pre) && NoParens(x)
    ensures Balanced(pre + ("(" + x + ")"))
  {
    NoParensBalanced(pre);
    NoParensCount(x);
    CountCharAppend("(" + x, ")", '(');
    CountCharAppend("(" + x, ")", ')');
    CountCharAppend("(", x, '(');
    CountCharAppend("(", x, ')');
    assert "("[..0] == "" && ")"[..0] == "";
    BalancedAppend(pre, "(" + x + ")");
  }

  /** " (N verified)" opens and closes one parenthesis. */
  lemma VerifiedBalanced(verified: nat)
    ensures Balanced(" (" + NatToString(verified) + " verified)")
  {
    var v := NatToString(verified);
    assert NoParens(v + " verified") by {
      DigitsNoParens(verified);
      assert NoParens(" verified");
    }
    ParenthesisedBalanced(" ", v + " verified");
    assert " (" + v + " verified)" == " " + ("(" + (v + " verified") + ")") by {
      var l := " (" + v + " verified)";
      var r := " " + ("(" + (v + " verified") + ")");
      assert |l| == |r|;
      forall k | 0 <= k < |l|
        ensures l[k] == r[k]
      {
        if k >= 2 + |v| {
          assert l[k] == " verified)"[k - 2 - |v|];
          assert r[k] == (" verified" + ")")[k - 2 - |v|];
        }
      }
    }
  }

  lemma EvidencePartBalanced(count: nat, verified: nat)
    ensures Balanced(EvidencePart(count, verified))
  {
    var head := if count == 1 then "catalogued 1 piece of evidence" else "catalogued " + NatToString(count) + " pieces of evidence";
    DigitsNoParens(count);
    assert NoParens(head) by {
      assert NoParens("catalogued 1 piece of evidence");
      assert NoParens("catalogued ") && NoParens(" pieces of evidence");
    }
    NoParensBalanced(head);
    if verified > 0 {
      VerifiedBalanced(verified);
      BalancedAppend(head, " (" + NatToString(verified) + " verified)");
    } else {
      assert EvidencePart(count, verified) == head;
    }
  }

  lemma MissingPartBalanced(count: nat)
    ensures Balanced(MissingPart(count))
  {
    DigitsNoParens(count);
    assert NoParens(MissingPart(count)) by {
      assert NoParens("noted 1 missing exhibit");
      assert NoParens("noted ") && NoParens(" missing exhibits");
    }
    NoParensBalanced(MissingPart(count));
  }

  /** The corrected text always balances its parentheses. */
  lemma EvidenceTextBalanced(evidence: Option<(nat, nat)>, missing: Option<nat>)
    ensures Balanced(EvidenceText(evidence, missing))
  {
    match (evidence, missing)
    case (Some((count, verified)), Some(m)) =>
      var e := EvidencePart(count, verified);
      assert EvidenceText(evidence, missing) == e + " and " + MissingPart(m) by {
        assert [e] + [MissingPart(m)] == [e, MissingPart(m)];
        assert [e, MissingPart(m)][1..] == [MissingPart(m)];
        assert Join([e, MissingPart(m)], " and ") == e + " and " + Join([MissingPart(m)], " and ");
      }
      EvidencePartBalanced(count, verified);
      MissingPartBalanced(m);
      assert NoParens(" and ");
      NoParensBalanced(" and ");
      BalancedAppend(e, " and ");
      BalancedAppend(e + " and ", MissingPart(m));
    case (Some((count, verified)), None) =>
      assert EvidenceText(evidence, missing) == EvidencePart(count, verified) by {
        assert [EvidencePart(count, verified)] + [] == [EvidencePart(count, verified)];
      }
      EvidencePartBalanced(count, verified);
    case (None, Some(m)) =>
      assert EvidenceText(evidence, missing) == MissingPart(m) by {
        assert [] + [MissingPart(m)] == [MissingPart(m)];
      }
      MissingPartBalanced(m);
    case (None, None) =>
      assert NoParens("organized case evidence");
      NoParensBalanced("organized case evidence");
  }

  /** What `_summarize_evidence_sorter` returns, with the parentheses as intended. */
  function EvidenceSummary(data: Obj): (r: Result<string>)
    ensures r.Ok? ==> Balanced(r.value)
    ensures r.Ok? ==> (r.value == "organized case evidence" <==>
      !Truthy(Get(data, "evidence_summary", JArr([]))) && !Truthy(Get(data, "missing_evidence", JArr([]))))
  {
    var evidence := Get(data, "evidence_summary", JArr([]));
    var missing := Get(data, "missing_evidence", JArr([]));
    var counted :-
      if !Truthy(evidence) then Ok(None)
      else
        var n :- Len(evidence);
        var v :- Verified(evidence);
        Ok(Some((n, v)));
    var noted :-
      if !Truthy(missing) then Ok(None)
      else
        var m :- Len(missing);
        Ok(Some(m));
    EvidenceTextBalanced(counted, noted);
    Ok(EvidenceText(counted, noted))
  }

  /** `_summarize_evidence_sorter`: collects the parts, then joins them. */
  method SummarizeEvidence(data: Obj) returns (r: Result<string>)
    ensures r == EvidenceSummary(data)
  {
    var evidence := Get(data, "evidence_summary", JArr([]));
    var missing := Get(data, "missing_evidence", JArr([]));
    var parts: seq<string> := [];
    var counted: Option<(nat, nat)> := None;
    if Truthy(evidence) {
      var n := Len(evidence);
      if n.Err? { return Err(n.fault); }
      var v := Verified(evidence);
      if v.Err? { return Err(v.fault); }
      parts := parts + [EvidencePart(n.value, v.value)];
      counted := Some((n.value, v.value));
    }
    var noted: Option<nat> := None;
    if Truthy(missing) {
      var m := Len(missing);
      if m.Err? { return Err(m.fault); }
      parts := parts + [MissingPart(m.value)];
      noted := Some(m.value);
    }
    if parts == [] {
      r := Ok("organized case evidence");
    } else {
      r := Ok(Join(parts, " and "));
    }
    assert r == Ok(EvidenceText(counted, noted));
  }

  /** What `_summarize_voice_bot_scheduler` returns. */
  function SchedulerSummary(data: Obj): (r: string)
    ensures StartsWith(r, "scheduled ") <==> Truthy(Get(data, "contact_name", JStr("")))
  {
    var contact := Get(data, "contact_name", JStr(""));
    var action := Get(data, "action_type", JStr("contact"));
    if Truthy(contact) then
      var r := "scheduled " + Render(action) + " with " + Render(contact);
      assert r[..10] == "scheduled ";
      r
    else
      var r := "prepared " + Render(action) + " coordination";
      assert r[0] == 'p';
      r
  }

  /**
   * `summarize_agent_result`: None for an unavailable agent and for a name
   * it does not know, otherwise that agent's summary.
   */
  function SummarizeAgentResult(name: string, data: Json): (r: Result<Option<string>>)
    ensures r.Err? ==> !data.JObj? || name in AgentOrder
    ensures data.JObj? && Get(data.fields, "status", JNull) == JStr("agent_unavailable") ==> r == Ok(None)
    ensures data.JObj? && name !in AgentOrder ==> r == Ok(None)
    ensures r.Ok? && r.value.Some? ==> r.value.value != ""
  {
    var status :- GetOn(data, "status", JNull);
    if status == JStr("agent_unavailable") then Ok(None)
    else if name == "records_wrangler" then
      var s :- RecordsSummary(data.fields);
      Ok(if s != "" then Some(s) else None)
    else if name == "communication_guru" then
      Ok(Some(CommunicationSummary(data.fields)))
    else if name == "legal_researcher" then
      var s :- LegalSummary(data.fields);
      Ok(if s != "" then Some(s) else None)
    else if name == "evidence_sorter" then
      var s :- EvidenceSummary(data.fields);
      Ok(if s != "" then Some(s) else None)
    else if name == "voice_bot_scheduler" then
      Ok(Some(SchedulerSummary(data.fields)))
    else Ok(None)
  }

  /** The fixed order the findings follow, whatever order the outputs were recorded in. */
  const AgentOrder: seq<string> :=
    ["records_wrangler", "communication_guru", "legal_researcher", "evidence_sorter", "voice_bot_scheduler"]

  /** `name in agent_outputs` followed by `agent_outputs[name]`. */
  function AgentEntry(outputs: Json, name: string): (r: Result<Option<Json>>)
    ensures outputs.JObj? ==> r.Ok?
    ensures r.Ok? && r.value.Some? ==> outputs.JObj? && name in outputs.fields && r.value.value == outputs.fields[name]
  {
    match outputs
    case JObj(fields) => Ok(if name in fields then Some(fields[name]) else None)
    case JArr(items) =>
      if JStr(name) in items then Err(TypeError("list indices must be integers or slices, not str")) else Ok(None)
    case JStr(s) =>
      if Contains(s, name) then Err(TypeError("string indices must be integers")) else Ok(None)
    case _ => Err(TypeError("argument of type '" + TypeName(outputs) + "' is not iterable"))
  }

  /** The clause one agent contributes, if any. */
  function Finding(outputs: Json, name: string): Result<seq<string>> {
    var entry :- AgentEntry(outputs, name);
    if entry.None? then Ok([])
    else
      var s :- SummarizeAgentResult(name, entry.value);
      Ok(if s.Some? then [s.value] else [])
  }

  /** The clauses of the agents named in `names`, in that order. */
  function FindingsIn(outputs: Json, names: seq<string>): Result<seq<string>> {
    if names == [] then Ok([])
    else
      var before :- FindingsIn(outputs, names[..|names| - 1]);
      var next :- Finding(outputs, names[|names| - 1]);
      Ok(before + next)
  }

  const FindingsOpening: string := "Our comprehensive case analysis has "

  /** What `_generate_agent_findings` returns. */
  function Findings(outputs: Json): (r: Result<string>)
    ensures r.Ok? && r.value != "" ==> StartsWith(r.value, FindingsOpening) && EndsWith(r.value, ".")
    ensures r.Ok? ==> FindingsIn(outputs, AgentOrder).Ok? && (r.value == "" <==> FindingsIn(outputs, AgentOrder).value == [])
  {
    var clauses :- FindingsIn(outputs, AgentOrder);
    if clauses == [] then Ok("")
    else
      var r := FindingsOpening + Join(clauses, ", ") + ".";
      assert r[..|FindingsOpening|] == FindingsOpening;
      Ok(r)
  }

  /** `_generate_agent_findings`: one check per agent, in the fixed order. */
  method GenerateAgentFindings(outputs: Json) returns (r: Result<string>)
    ensures r == Findings(outputs)
  {
    var findings: seq<string> := [];
    for k := 0 to |AgentOrder|
      invariant FindingsIn(outputs, AgentOrder[..k]) == Ok(findings)
    {
      var next := Finding(outputs, AgentOrder[k]);
      FindingsInNext(outputs, AgentOrder[..k + 1]);
      assert AgentOrder[..k + 1][..k] == AgentOrder[..k];
      if next.Err? {
        FindingsErrPersists(outputs, k + 1);
        return Err(next.fault);
      }
      findings := findings + next.value;
    }
    assert AgentOrder[..|AgentOrder|] == AgentOrder;
    if findings == [] {
      r := Ok("");
    } else {
      r := Ok(FindingsOpening + Join(findings, ", ") + ".");
    }
  }

  /** The clauses of a non-empty list of agents: those of all but the last, then the last one's. */
  lemma FindingsInNext(outputs: Json, names: seq<string>)
    requires names != []
    ensures var before := FindingsIn(outputs, names[..|names| - 1]);
      var next := Finding(outputs, names[|names| - 1]);
      FindingsIn(outputs, names) ==
        if before.Err? then Err(before.fault)
        else if next.Err? then Err(next.fault)
        else Ok(before.value + next.value)
  {
  }

  /** Once one agent's clause raises, the findings raise with that fault. */
  lemma {:induction false} FindingsErrPersists(outputs: Json, j: nat)
    requires j <= |AgentOrder| && FindingsIn(outputs, AgentOrder[..j]).Err?
    ensures FindingsIn(outputs, AgentOrder) == FindingsIn(outputs, AgentOrder[..j])
    decreases |AgentOrder| - j
  {
    if j < |AgentOrder| {
      assert AgentOrder[..j + 1][..j] == AgentOrder[..j];
      FindingsErrPersists(outputs, j + 1);
    } else {
      assert AgentOrder[..j] == AgentOrder;
    }
  }

  /** Whether an output records an unavailable agent. */
  predicate Unavailable(v: Json) {
    v.JObj? && Get(v.fields, "status", JNull) == JStr("agent_unavailable")
  }

  /** An unavailable agent's output contributes exactly what a missing one does. */
  lemma {:induction false} UnavailableSkipped(outputs: Obj, name: string, names: seq<string>)
    requires name in outputs && Unavailable(outputs[name])
    ensures FindingsIn(JObj(outputs), names) == FindingsIn(JObj(outputs - {name}), names)
  {
    if names != [] {
      UnavailableSkipped(outputs, name, names[..|names| - 1]);
      var n := names[|names| - 1];
      assert Finding(JObj(outputs), n) == Finding(JObj(outputs - {name}), n);
    }
  }

  // ---------------------------------------------------------------------
  // Recommended actions
  // ---------------------------------------------------------------------

  /** `[\w_]`, for ASCII text. */
  predicate IsWordChar(c: char)
    ensures IsWordChar(c) ==> c != ']' && !IsSpace(c)
  {
    IsLetter(c) || IsDigit(c) || c == '_'
  }

  /** The length of the run of word characters starting at `i`. */
  function WordRun(s: string, i: nat): (n: nat)
    requires i <= |s|
    ensures i + n <= |s|
    ensures forall k :: i <= k < i + n ==> IsWordChar(s[k])
    ensures i + n == |s| || !IsWordChar(s[i + n])
    decreases |s| - i
  {
    if i < |s| && IsWordChar(s[i]) then 1 + WordRun(s, i + 1) else 0
  }

  /** `re.sub(r'^\[[\w_]+\]\s*', '', s)`: a leading bracketed tag and the whitespace after it go. */
  function StripTag(s: string): (r: string)
    ensures |r| <= |s| && r == s[|s| - |r|..]
    ensures s == [] || s[0] != '[' ==> r == s
  {
    if |s| >= 1 && s[0] == '[' then
      var n := WordRun(s, 1);
      if n >= 1 && 1 + n < |s| && s[1 + n] == ']' then LStrip(s[n + 2..]) else s
    else s
  }

  /** `s.rstrip('.')` */
  function RStripDots(s: string): (r: string)
    ensures |r| <= |s| && r == s[..|r|]
    ensures r == [] || r[|r| - 1] != '.'
    ensures forall i :: |r| <= i < |s| ==> s[i] == '.'
  {
    if s != [] && s[|s| - 1] == '.' then RStripDots(s[..|s| - 1]) else s
  }

  /** What `_clean_action` does after removing the tag. */
  function Finish(s: string): (r: string)
    ensures r == [] || r[|r| - 1] != '.'
    ensures r == [] || !IsUpper(r[0])
  {
    RStripDots(if s == [] then s else [LowerChar(s[0])] + s[1..])
  }

  /**
   * `_clean_action`: the tag and the whitespace after it removed, the first
   * character lower-cased, trailing periods stripped.
   */
  function CleanText(s: string): (r: string)
    ensures r == [] || r[|r| - 1] != '.'
    ensures r == [] || !IsUpper(r[0])
    ensures (s == [] || s[0] != '[') ==> r == Finish(s)
  {
    Finish(StripTag(s))
  }

  /** A bracketed tag of word characters is removed together with the whitespace after it. */
  lemma CleanTagged(tag: string, rest: string)
    requires tag != [] && forall i :: 0 <= i < |tag| ==> IsWordChar(tag[i])
    ensures CleanText("[" + tag + "]" + rest) == Finish(LStrip(rest))
  {
    var s := "[" + tag + "]" + rest;
    assert forall k :: 1 <= k < 1 + |tag| ==> s[k] == tag[k - 1];
    WordRunOver(s, 1, |tag|);
    assert s[1 + |tag|] == ']';
    assert s[|tag| + 2..] == rest;
  }

  lemma WordRunOver(s: string, i: nat, n: nat)
    requires i + n < |s|
    requires forall k :: i <= k < i + n ==> IsWordChar(s[k])
    requires !IsWordChar(s[i + n])
    ensures WordRun(s, i) == n
    decreases n
  {
    if n > 0 {
      WordRunOver(s, i + 1, n - 1);
    }
  }

  /** `_clean_action(action)`; `re.sub` raises on anything but a string. */
  function CleanAction(action: Json): (r: Result<string>)
    ensures r.Ok? <==> action.JStr?
    ensures action.JStr? ==> r.value == CleanText(action.s)
  {
    if action.JStr? then Ok(CleanText(action.s))
    else Err(TypeError("expected string or bytes-like object, got '" + TypeName(action) + "'"))
  }

  const NoActions: string :=
    "The case file appears complete " + "at this time, and no immediate " +
    "follow-up actions are required " + "pending further developments."

  const ActionsOpening: string := "To advance this matter, "

  /**
   * The sentence after "To advance this matter, " when `shown` (one to
   * three) of `total` actions are taken, `first` and `second` the first two.
   */
  function ActionClause(first: Json, second: Json, shown: nat, total: nat): (r: Result<string>)
    requires 1 <= shown <= 3 && shown <= total
    ensures r.Ok? ==> EndsWith(r.value, ".")
    ensures r.Ok? <==> first.JStr? && (shown == 1 || second.JStr?)
  {
    var a :- CleanAction(first);
    var clause :-
      if shown == 1 then Ok("the following action is recommended: " + a)
      else
        var b :- CleanAction(second);
        if shown == 2 then Ok("the following actions are recommended: " + a + ", and " + b)
        else if total - 2 == 1 then Ok("priority actions include: " + a + ", " + b + ", and one additional follow-up item")
        else Ok("priority actions include: " + a + ", " + b + ", and " + NatToString(total - 2) + " additional follow-up items");
    assert (clause + ".")[|clause|..] == ".";
    Ok(clause + ".")
  }

  /** What `_generate_action_summary` returns: at most two actions quoted, the rest counted. */
  function ActionSummary(actions: Json): (r: Result<string>)
    ensures r == Ok(NoActions) <==> !Truthy(actions)
    ensures r.Ok? && Truthy(actions) ==> StartsWith(r.value, ActionsOpening)
    ensures r.Ok? ==> EndsWith(r.value, ".")
    ensures actions.JArr? && (forall i :: 0 <= i < |actions.items| ==> actions.items[i].JStr?) ==> r.Ok?
  {
    if !Truthy(actions) then Ok(NoActions)
    else
      var top :- Take(actions, 3);
      var total := Len(actions).value;
      assert total >= 1;
      var clause :- ActionClause(top[0], if |top| > 1 then top[1] else JNull, |top|, total);
      ActionsOpened(clause);
      Ok(ActionsOpening + clause)
  }

  lemma ActionsOpened(clause: string)
    requires EndsWith(clause, ".")
    ensures var r := ActionsOpening + clause;
      StartsWith(r, ActionsOpening) && EndsWith(r, ".") && r != NoActions
  {
    var r := ActionsOpening + clause;
    assert r[..|ActionsOpening|] == ActionsOpening;
    assert r[1] == 'o' && NoActions[1] == 'h';
    assert r[|r| - 1..] == clause[|clause| - 1..];
  }

  /** From the third action on, only how many there are shows in the summary. */
  lemma ActionSummaryTail(a: seq<Json>, b: seq<Json>)
    requires |a| == |b| && |a| >= 3 && a[0] == b[0] && a[1] == b[1]
    ensures ActionSummary(JArr(a)) == ActionSummary(JArr(b))
  {
    var s := Take(JArr(a), 3).value;
    var t := Take(JArr(b), 3).value;
    assert |s| == |t| == 3;
    assert s[0] == t[0] && s[1] == t[1];
  }

  /** `x` occurs in `p + x + q`. */
  lemma ContainsAtEnd(p: string, x: string)
    ensures Contains(p + x, x)
  {
    var s := p + x;
    assert s[|p|..|p| + |x|] == x;
    assert OccursAt(s, x, |p|);
    ContainsIff(s, x);
  }

  /** Text that occurs in `s` still occurs once more is appended to `s`. */
  lemma ContainsExtended(s: string, x: string, t: string)
    requires Contains(s, x)
    ensures Contains(s + t, x)
  {
    ContainsIff(s, x);
    var i: nat :| OccursAt(s, x, i);
    assert (s + t)[i..i + |x|] == s[i..i + |x|];
    assert OccursAt(s + t, x, i);
    ContainsIff(s + t, x);
  }

  lemma EndsWithSuffix(p: string, x: string)
    ensures EndsWith(p + x, x)
  {
    assert (p + x)[|p|..] == x;
  }

  lemma EndsWithLast(q: string, x: string, d: string)
    ensures EndsWith(q + x + d, x + d)
  {
    assert q + x + d == q + (x + d);
    EndsWithSuffix(q, x + d);
  }

  lemma EndsWithLastFour(q: string, u: string, n: string, y: string, d: string)
    ensures EndsWith(q + u + n + y + d, u + n + y + d)
  {
    assert q + u + n + y + d == q + (u + n + y + d);
    EndsWithSuffix(q, u + n + y + d);
  }

  /** For a non-empty list of strings, the summary is the opening followed by the clause on its first actions. */
  lemma SummaryOfStrings(items: seq<Json>)
    requires items != [] && forall i :: 0 <= i < |items| ==> items[i].JStr?
    ensures var shown := if |items| < 3 then |items| else 3;
      var second := if |items| > 1 then items[1] else JNull;
      ActionClause(items[0], second, shown, |items|).Ok? &&
      ActionSummary(JArr(items)) == Ok(ActionsOpening + ActionClause(items[0], second, shown, |items|).value)
  {
    var top := Take(JArr(items), 3).value;
    assert top[0] == items[0];
    if |items| > 1 {
      assert top[1] == items[1];
    }
  }

  /** The clause for one action names it. */
  lemma ClauseNamesOne(first: Json, second: Json)
    requires first.JStr?
    ensures Contains(ActionClause(first, second, 1, 1).value, CleanText(first.s))
  {
    var a := CleanText(first.s);
    var p := "the following action is recommended: ";
    ContainsAtEnd(p, a);
    ContainsExtended(p + a, a, ".");
    assert ActionClause(first, second, 1, 1).value == p + a + ".";
  }

  /** The clause for two actions names both. */
  lemma ClauseNamesTwo(first: Json, second: Json)
    requires first.JStr? && second.JStr?
    ensures Contains(ActionClause(first, second, 2, 2).value, CleanText(first.s))
    ensures Contains(ActionClause(first, second, 2, 2).value, CleanText(second.s))
  {
    var a := CleanText(first.s);
    var b := CleanText(second.s);
    var p := "the following actions are recommended: ";
    ContainsAtEnd(p, a);
    ContainsExtended(p + a, a, ", and ");
    ContainsExtended(p + a + ", and ", a, b);
    ContainsExtended(p + a + ", and " + b, a, ".");
    ContainsAtEnd(p + a + ", and ", b);
    ContainsExtended(p + a + ", and " + b, b, ".");
    assert ActionClause(first, second, 2, 2).value == p + a + ", and " + b + ".";
  }

  /** The clause for three or more actions names the first two. */
  lemma ClauseNamesMany(first: Json, second: Json, total: nat)
    requires first.JStr? && second.JStr? && total >= 3
    ensures var r := ActionClause(first, second, 3, total).value;
      Contains(r, CleanText(first.s)) && Contains(r, CleanText(second.s))
  {
    var a := CleanText(first.s);
    var b := CleanText(second.s);
    var p := "priority actions include: ";
    var q := p + a + ", " + b;
    ContainsAtEnd(p, a);
    ContainsExtended(p + a, a, ", ");
    ContainsExtended(p + a + ", ", a, b);
    ContainsAtEnd(p + a + ", ", b);
    if total == 3 {
      var x := ", and one additional follow-up item";
      ContainsExtended(q, a, x);
      ContainsExtended(q + x, a, ".");
      ContainsExtended(q, b, x);
      ContainsExtended(q + x, b, ".");
      assert ActionClause(first, second, 3, total).value == q + x + ".";
    } else {
      var u := ", and ";
      var n := NatToString(total - 2);
      var y := " additional follow-up items";
      ContainsExtended(q, a, u);
      ContainsExtended(q + u, a, n);
      ContainsExtended(q + u + n, a, y);
      ContainsExtended(q + u + n + y, a, ".");
      ContainsExtended(q, b, u);
      ContainsExtended(q + u, b, n);
      ContainsExtended(q + u + n, b, y);
      ContainsExtended(q + u + n + y, b, ".");
      assert ActionClause(first, second, 3, total).value == q + u + n + y + ".";
    }
  }

  /** The clause for exactly three actions ends by counting the one beyond the first two. */
  lemma ClauseCountsOne(first: Json, second: Json)
    requires first.JStr? && second.JStr?
    ensures EndsWith(ActionClause(first, second, 3, 3).value, ", and one additional follow-up item.")
  {
    var q := "priority actions include: " + CleanText(first.s) + ", " + CleanText(second.s);
    var x := ", and one additional follow-up item";
    EndsWithLast(q, x, ".");
    assert x + "." == ", and one additional follow-up item.";
    assert ActionClause(first, second, 3, 3).value == q + x + ".";
  }

  /** The clause for four or more actions ends by counting the actions beyond the first two. */
  lemma ClauseCountsMore(first: Json, second: Json, total: nat)
    requires first.JStr? && second.JStr? && total >= 4
    ensures EndsWith(ActionClause(first, second, 3, total).value,
      ", and " + NatToString(total - 2) + " additional follow-up items.")
  {
    var q := "priority actions include: " + CleanText(first.s) + ", " + CleanText(second.s);
    var u := ", and ";
    var n := NatToString(total - 2);
    var y := " additional follow-up items";
    EndsWithLastFour(q, u, n, y, ".");
    assert u + n + y + "." == u + n + " additional follow-up items.";
    assert ActionClause(first, second, 3, total).value == q + u + n + y + ".";
  }

  /** Whatever occurs in the clause occurs in the summary. */
  lemma OpenedContains(clause: string, x: string)
    requires Contains(clause, x)
    ensures Contains(ActionsOpening + clause, x)
  {
    ContainsIff(clause, x);
    var i: nat :| OccursAt(clause, x, i);
    assert (ActionsOpening + clause)[|ActionsOpening| + i..|ActionsOpening| + i + |x|] == clause[i..i + |x|];
    assert OccursAt(ActionsOpening + clause, x, |ActionsOpening| + i);
    ContainsIff(ActionsOpening + clause, x);
  }

  /** A suffix of the clause ends the summary. */
  lemma OpenedEndsWith(clause: string, y: string)
    requires EndsWith(clause, y)
    ensures EndsWith(ActionsOpening + clause, y)
  {
    assert (ActionsOpening + clause)[|ActionsOpening + clause| - |y|..] == clause[|clause| - |y|..];
  }


  /** A single action: the summary names it, cleaned. */
  lemma ActionSummaryOne(items: seq<Json>, summary: string)
    requires |items| == 1 && forall i :: 0 <= i < |items| ==> items[i].JStr?
    requires ActionSummary(JArr(items)) == Ok(summary)
    ensures Contains(summary, CleanText(items[0].s))
  {
    SummaryOfStrings(items);
    var clause := ActionClause(items[0], JNull, 1, 1).value;
    assert summary == ActionsOpening + clause;
    ClauseNamesOne(items[0], JNull);
    OpenedContains(clause, CleanText(items[0].s));
  }

  /** Two actions: the summary names both, cleaned. */
  lemma ActionSummaryTwo(items: seq<Json>, summary: string)
    requires |items| == 2 && forall i :: 0 <= i < |items| ==> items[i].JStr?
    requires ActionSummary(JArr(items)) == Ok(summary)
    ensures Contains(summary, CleanText(items[0].s)) && Contains(summary, CleanText(items[1].s))
  {
    SummaryOfStrings(items);
    var clause := ActionClause(items[0], items[1], 2, 2).value;
    assert summary == ActionsOpening + clause;
    ClauseNamesTwo(items[0], items[1]);
    OpenedContains(clause, CleanText(items[0].s));
    OpenedContains(clause, CleanText(items[1].s));
  }

  /** Three or more actions: the summary names the first two, cleaned. */
  lemma ActionSummaryNamesTwo(items: seq<Json>, summary: string)
    requires |items| >= 3 && forall i :: 0 <= i < |items| ==> items[i].JStr?
    requires ActionSummary(JArr(items)) == Ok(summary)
    ensures Contains(summary, CleanText(items[0].s)) && Contains(summary, CleanText(items[1].s))
  {
    SummaryOfStrings(items);
    var clause := ActionClause(items[0], items[1], 3, |items|).value;
    assert summary == ActionsOpening + clause;
    ClauseNamesMany(items[0], items[1], |items|);
    OpenedContains(clause, CleanText(items[0].s));
    OpenedContains(clause, CleanText(items[1].s));
  }

  /** Exactly three actions: the summary ends by mentioning one more follow-up item. */
  lemma ActionSummaryCountsOne(items: seq<Json>, summary: string)
    requires |items| == 3 && forall i :: 0 <= i < |items| ==> items[i].JStr?
    requires ActionSummary(JArr(items)) == Ok(summary)
    ensures EndsWith(summary, ", and one additional follow-up item.")
  {
    SummaryOfStrings(items);
    var clause := ActionClause(items[0], items[1], 3, 3).value;
    assert summary == ActionsOpening + clause;
    ClauseCountsOne(items[0], items[1]);
    OpenedEndsWith(clause, ", and one additional follow-up item.");
  }

  /** Four or more actions: the summary ends by counting the actions beyond the first two. */
  lemma ActionSummaryCountsMore(items: seq<Json>, summary: string)
    requires |items| >= 4 && forall i :: 0 <= i < |items| ==> items[i].JStr?
    requires ActionSummary(JArr(items)) == Ok(summary)
    ensures EndsWith(summary, ", and " + NatToString(|items| - 2) + " additional follow-up items.")
  {
    var clause := ActionClause(items[0], items[1], 3, |items|).value;
    assert summary == ActionsOpening + clause by {
      SummaryOfStrings(items);
    }
    var tail := ", and " + NatToString(|items| - 2) + " additional follow-up items.";
    assert EndsWith(clause, tail) by {
      ClauseCountsMore(items[0], items[1], |items|);
    }
    OpenedEndsWith(clause, tail);
  }

  /** The sections that are not empty, in order. */
  function Present(sections: seq<string>): (r: seq<string>)
    ensures forall i :: 0 <= i < |r| ==> r[i] != ""
  {
    if sections == [] then []
    else Present(sections[..|sections| - 1]) + (if sections[|sections| - 1] != "" then [sections[|sections| - 1]] else [])
  }

  lemma PresentThree(o: string, f: string, a: string)
    requires o != "" && a != ""
    ensures Present([o, f, a]) == [o] + (if f != "" then [f] else []) + [a]
  {
    assert [o, f, a][..2] == [o, f] && [o, f][..1] == [o] && [o][..0] == [];
    assert Present([o]) == [o];
    assert Present([o, f]) == [o] + (if f != "" then [f] else []);
    assert Present([o, f, a]) == Present([o, f]) + [a];
  }

  /** The brief from its three sections: the error sentence when any raised, else the non-empty ones joined. */
  function Compose(overview: Result<string>, findings: Result<string>, actions: Result<string>): (r: string)
    requires overview.Ok? ==> overview.value != [] && (overview.value[0] == 'T' || overview.value[0] == 'C')
    requires actions.Ok? ==> EndsWith(actions.value, ".")
    ensures r == BriefError <==> overview.Err? || findings.Err? || actions.Err?
    ensures r != BriefError ==> StartsWith(r, overview.value) && EndsWith(r, actions.value)
    ensures r != BriefError && findings.value == "" ==> r == overview.value + " " + actions.value
  {
    if overview.Err? || findings.Err? || actions.Err? then BriefError
    else
      PresentThree(overview.value, findings.value, actions.value);
      BriefSections(overview.value, findings.value, actions.value);
      Join(Present([overview.value, findings.value, actions.value]), " ")
  }

  /** `generate_attorney_brief`: the overview, the findings when there are any, and the action summary. */
  function AttorneyBrief(output: Obj, formatDate: string -> Option<string>): (r: string)
    ensures r == BriefError <==>
      Overview(Get(output, "context_metadata", JObj(map[])), formatDate).Err? ||
      Findings(Get(output, "agent_outputs", JObj(map[]))).Err? ||
      ActionSummary(Get(output, "recommended_actions", JArr([]))).Err?
    ensures r != BriefError ==>
      StartsWith(r, Overview(Get(output, "context_metadata", JObj(map[])), formatDate).value) &&
      EndsWith(r, ActionSummary(Get(output, "recommended_actions", JArr([]))).value)
  {
    Compose(Overview(Get(output, "context_metadata", JObj(map[])), formatDate),
            Findings(Get(output, "agent_outputs", JObj(map[]))),
            ActionSummary(Get(output, "recommended_actions", JArr([]))))
  }

  /** The joined sections start with the overview and end with the action summary, and are never the error sentence. */
  lemma BriefSections(overview: string, findings: string, actions: string)
    requires overview != [] && (overview[0] == 'T' || overview[0] == 'C')
    ensures var r := Join([overview] + (if findings != "" then [findings] else []) + [actions], " ");
      StartsWith(r, overview) && EndsWith(r, actions) && r != BriefError &&
      (findings == "" ==> r == overview + " " + actions)
  {
    var sections := [overview] + (if findings != "" then [findings] else []) + [actions];
    var r := Join(sections, " ");
    JoinStartsWith(sections, " ");
    if findings != "" {
      assert sections[1..][1..] == [actions];
      assert Join(sections[1..], " ") == findings + " " + actions;
      assert r == overview + " " + findings + " " + actions;
    } else {
      assert sections == [overview, actions] && sections[1..] == [actions];
      assert Join(sections[1..], " ") == actions;
      assert r == overview + " " + actions;
    }
    assert r[|r| - |actions|..] == actions;
    assert r[0] == r[..|overview|][0] == overview[0];
    assert BriefError[0] == 'E';
  }

  /** `generate_attorney_brief`: the sections appended in order, then joined. */
  method GenerateAttorneyBrief(output: Obj, formatDate: string -> Option<string>) returns (brief: string)
    ensures brief == AttorneyBrief(output, formatDate)
  {
    var overview := GenerateCaseOverview(Get(output, "context_metadata", JObj(map[])), formatDate);
    var findings := GenerateAgentFindings(Get(output, "agent_outputs", JObj(map[])));
    var actions := ActionSummary(Get(output, "recommended_actions", JArr([])));
    brief := Assemble(overview, findings, actions);
  }

  /** Collects the sections that are present and joins them. */
  method Assemble(overview: Result<string>, findings: Result<string>, actions: Result<string>) returns (brief: string)
    requires overview.Ok? ==> overview.value != [] && (overview.value[0] == 'T' || overview.value[0] == 'C')
    requires actions.Ok? ==> EndsWith(actions.value, ".")
    ensures brief == Compose(overview, findings, actions)
  {
    if overview.Err? || findings.Err? || actions.Err? { return BriefError; }
    var sections: seq<string> := [];
    ghost var all := [overview.value, findings.value, actions.value];
    assert all[..0] == [];
    if overview.value != "" {
      sections := sections + [overview.value];
    }
    assert all[..1][..0] == all[..0];
    assert sections == Present(all[..1]);
    if findings.value != "" {
      sections := sections + [findings.value];
    }
    assert all[..2][..1] == all[..1];
    assert sections == Present(all[..2]);
    if actions.value != "" {
      sections := sections + [actions.value];
    }
    assert all[..3][..2] == all[..2] && all[..3] == all;
    brief := Join(sections, " ");
  }
}
