/**
 * The voice scheduler's output sanitiser: the action type is normalised,
 * the phone number is rewritten into one of its standard forms, the email
 * address is checked against a basic shape, and the confidence is clamped.
 */
module VoiceScheduler {
  import opened Outcomes
  import opened Text
  import opened Json

  // ---------------------------------------------------------------------
  // Phone numbers
  // ---------------------------------------------------------------------

  /** `re.sub(r'\D', '', s)`: the digits of `s`, in order. */
  function Digits(s: string): (r: string)
    ensures AllDigits(r) && |r| <= |s|
    ensures |r| == |s| <==> AllDigits(s)
  {
    if s == [] then []
    else
      assert AllDigits(s) <==> IsDigit(s[0]) && AllDigits(s[1..]) by {
        assert forall i :: 1 <= i < |s| ==> s[i] == s[1..][i - 1];
      }
      (if IsDigit(s[0]) then [s[0]] else []) + Digits(s[1..])
  }

  lemma {:induction false} DigitsAppend(a: string, b: string)
    ensures Digits(a + b) == Digits(a) + Digits(b)
  {
    if a != [] {
      assert (a + b)[0] == a[0];
      assert (a + b)[1..] == a[1..] + b;
      DigitsAppend(a[1..], b);
      var h := if IsDigit(a[0]) then [a[0]] else [];
      assert Digits(a + b) == h + (Digits(a[1..]) + Digits(b));
      assert Digits(a) == h + Digits(a[1..]);
    } else {
      assert a + b == b;
    }
  }

  /** Digits after a dash: the dash contributes nothing. */
  lemma DigitsDashed(p: string, x: string)
    requires AllDigits(x)
    ensures Digits(p + "-" + x) == Digits(p) + x
  {
    DigitsAppend(p, "-");
    assert Digits("-") == [] by {
      assert "-"[1..] == [];
    }
    assert Digits(p + "-") == Digits(p);
    DigitsAppend(p + "-", x);
    DigitsOfDigits(x);
  }

  lemma {:induction false} DigitsOfDigits(s: string)
    requires AllDigits(s)
    ensures Digits(s) == s
  {
    if s != [] {
      DigitsOfDigits(s[1..]);
    }
  }

  /** `+1-ddd-ddd-dddd` */
  predicate UsForm(r: string) {
    |r| == 15 && r[..3] == "+1-" && r[6] == '-' && r[10] == '-' &&
    AllDigits(r[3..6]) && AllDigits(r[7..10]) && AllDigits(r[11..])
  }

  /** `+dd-` followed by the remaining digits. */
  predicate InternationalForm(r: string) {
    |r| >= 4 && r[0] == '+' && r[3] == '-' && AllDigits(r[1..3]) && AllDigits(r[4..])
  }

  /** Formats ten digits as `+1-ddd-ddd-dddd`. */
  function UsNumber(d: string): (r: string)
    requires |d| == 10 && AllDigits(d)
    ensures UsForm(r) && Digits(r) == "1" + d
  {
    UsNumberDigits(d);
    "+1-" + d[..3] + "-" + d[3..6] + "-" + d[6..]
  }

  lemma UsNumberDigits(d: string)
    requires |d| == 10 && AllDigits(d)
    ensures var r := "+1-" + d[..3] + "-" + d[3..6] + "-" + d[6..];
      UsForm(r) && Digits(r) == "1" + d
  {
    var x, y, z := d[..3], d[3..6], d[6..];
    UsFormOf(x, y, z);
    UsDigits(x, y, z);
    assert d == x + y + z;
  }

  /** The digits of `+1-x-y-z` are a leading 1 and the three groups. */
  lemma UsDigits(x: string, y: string, z: string)
    requires AllDigits(x) && AllDigits(y) && AllDigits(z)
    ensures Digits("+1-" + x + "-" + y + "-" + z) == "1" + x + y + z
  {
    CountryDigits(x);
    TwoDashed("+1-" + x, y, z);
  }

  lemma CountryDigits(x: string)
    requires AllDigits(x)
    ensures Digits("+1-" + x) == "1" + x
  {
    DigitsAppend("+1-", x);
    DigitsOfDigits(x);
    assert Digits("+1-") == "1";
  }

  lemma TwoDashed(a: string, y: string, z: string)
    requires AllDigits(y) && AllDigits(z)
    ensures Digits(a + "-" + y + "-" + z) == Digits(a) + y + z
  {
    DigitsDashed(a, y);
    DigitsDashed(a + "-" + y, z);
  }

  lemma UsFormOf(x: string, y: string, z: string)
    requires |x| == 3 && |y| == 3 && |z| == 4
    requires AllDigits(x) && AllDigits(y) && AllDigits(z)
    ensures UsForm("+1-" + x + "-" + y + "-" + z)
  {
    var r := "+1-" + x + "-" + y + "-" + z;
    assert r[..3] == "+1-";
    assert r[3..6] == x;
    assert r[7..10] == y;
    assert r[11..] == z;
  }

  /** `_standardize_phone_number` */
  function StandardizePhoneNumber(phone: string): (r: string)
    ensures var d := Digits(phone);
      (|d| == 10 ==> UsForm(r) && Digits(r) == "1" + d) &&
      (|d| == 11 && d[0] == '1' ==> UsForm(r) && Digits(r) == d) &&
      (|d| > 11 ==> InternationalForm(r) && Digits(r) == d && |r| == |d| + 2) &&
      (|d| < 10 || (|d| == 11 && d[0] != '1') ==> r == phone)
  {
    var d := Digits(phone);
    if |d| == 10 then UsNumber(d)
    else if |d| == 11 && d[0] == '1' then
      LeadingOne(d);
      UsNumber(d[1..])
    else if |d| > 11 then
      InternationalNumber(d);
      "+" + d[..2] + "-" + d[2..]
    else phone
  }

  lemma LeadingOne(d: string)
    requires |d| == 11 && d[0] == '1'
    ensures d == "1" + d[1..]
  {
    assert d == [d[0]] + d[1..];
  }

  lemma InternationalNumber(d: string)
    requires |d| > 11 && AllDigits(d)
    ensures var r := "+" + d[..2] + "-" + d[2..];
      InternationalForm(r) && Digits(r) == d && |r| == |d| + 2
  {
    var r := "+" + d[..2] + "-" + d[2..];
    assert r[1..3] == d[..2] && r[4..] == d[2..];
    DigitsDashed("+" + d[..2], d[2..]);
    DigitsAppend("+", d[..2]);
    DigitsOfDigits(d[..2]);
    assert d == d[..2] + d[2..];
  }

  /** Standardising a number that is already standard changes nothing. */
  lemma StandardizeIdempotent(phone: string)
    ensures StandardizePhoneNumber(StandardizePhoneNumber(phone)) == StandardizePhoneNumber(phone)
  {
    var d := Digits(phone);
    var r := StandardizePhoneNumber(phone);
    if |d| == 10 || (|d| == 11 && d[0] == '1') {
      UsRebuilt(r);
    } else if |d| > 11 {
      InternationalRebuilt(r);
    }
  }

  lemma UsRebuilt(r: string)
    requires UsForm(r)
    ensures StandardizePhoneNumber(r) == r
  {
    var e := r[3..6] + r[7..10] + r[11..];
    assert |e| == 10 && AllDigits(e) by {
      assert forall i :: 0 <= i < 3 ==> e[i] == r[3 + i];
      assert forall i :: 3 <= i < 6 ==> e[i] == r[4 + i];
      assert forall i :: 6 <= i < 10 ==> e[i] == r[5 + i];
    }
    assert r == "+1-" + e[..3] + "-" + e[3..6] + "-" + e[6..] by {
      assert e[..3] == r[3..6] && e[3..6] == r[7..10] && e[6..] == r[11..];
    }
    assert Digits(r) == "1" + e by {
      UsNumberDigits(e);
    }
    LeadingOne("1" + e);
    assert ("1" + e)[1..] == e;
  }

  lemma InternationalRebuilt(r: string)
    requires InternationalForm(r) && |r| > 13
    ensures StandardizePhoneNumber(r) == r
  {
    assert r == [r[0]] + r[1..3] + [r[3]] + r[4..];
    DigitsAppend([r[0]] + r[1..3] + [r[3]], r[4..]);
    DigitsAppend([r[0]] + r[1..3], [r[3]]);
    DigitsAppend([r[0]], r[1..3]);
    DigitsOfDigits(r[1..3]);
    DigitsOfDigits(r[4..]);
    var d := Digits(r);
    assert d == r[1..3] + r[4..];
    assert d[..2] == r[1..3] && d[2..] == r[4..];
  }

  // ---------------------------------------------------------------------
  // Email addresses
  // ---------------------------------------------------------------------

  /** `[a-zA-Z0-9._%+-]` */
  predicate LocalChar(c: char) {
    IsLetter(c) || IsDigit(c) || c == '.' || c == '_' || c == '%' || c == '+' || c == '-'
  }

  /** `[a-zA-Z0-9.-]` */
  predicate DomainChar(c: char) {
    IsLetter(c) || IsDigit(c) || c == '.' || c == '-'
  }

  /**
   * `s` reads as local part, '@' at `k`, domain, '.' at `p`, and at least two
   * letters: the shape `^[a-zA-Z0-9._%+-]+@[a-zA-Z0-9.-]+\.[a-zA-Z]{2,}$`.
   */
  predicate EmailAt(s: string, k: nat, p: nat) {
    0 < k && k + 1 < p && p + 3 <= |s| && s[k] == '@' && s[p] == '.' &&
    (forall i :: 0 <= i < k ==> LocalChar(s[i])) &&
    (forall i :: k < i < p ==> DomainChar(s[i])) &&
    (forall i :: p < i < |s| ==> IsLetter(s[i]))
  }

  ghost predicate EmailShaped(s: string) {
    exists k: nat, p: nat :: EmailAt(s, k, p)
  }

  /** The last position holding `c`. */
  function LastIndex(s: string, c: char): (r: Option<nat>)
    ensures r.Some? ==> r.value < |s| && s[r.value] == c && forall i :: r.value < i < |s| ==> s[i] != c
    ensures r.None? ==> forall i :: 0 <= i < |s| ==> s[i] != c
  {
    if s == [] then None
    else if s[|s| - 1] == c then Some(|s| - 1)
    else LastIndex(s[..|s| - 1], c)
  }

  /** The shape test, splitting at the first '@' and the last '.'. */
  predicate IsEmail(s: string) {
    match (IndexOf(s, "@"), LastIndex(s, '.'))
    case (Some(k), Some(p)) => EmailAt(s, k, p)
    case _ => false
  }

  lemma IsEmailIff(s: string)
    ensures IsEmail(s) <==> EmailShaped(s)
  {
    if EmailShaped(s) {
      var k: nat, p: nat :| EmailAt(s, k, p);
      assert OccursAt(s, "@", k);
      var k' := IndexOf(s, "@").value;
      assert s[k'] == '@' by { assert s[k'..k' + 1] == "@"; }
      assert k' == k;
      var p' := LastIndex(s, '.').value;
      assert p' == p;
    }
  }

  /** `_validate_email` */
  function ValidateEmail(email: string): (r: string)
    ensures r == "" || r == Lower(Strip(email))
    ensures r != "" <==> EmailShaped(Strip(email))
  {
    var t := Strip(email);
    IsEmailIff(t);
    if IsEmail(t) then
      assert |Lower(t)| > 0;
      Lower(t)
    else ""
  }

  /** A valid address has exactly one '@'. */
  lemma EmailOneAt(s: string, k: nat, p: nat)
    requires EmailAt(s, k, p)
    ensures forall i :: 0 <= i < |s| && s[i] == '@' ==> i == k
  {
  }

  // ---------------------------------------------------------------------
  // The sanitiser
  // ---------------------------------------------------------------------

  const ValidActions: seq<string> := ["call", "email", "meeting"]

  const OutputKeys: set<string> := {"action_type", "contact_name", "contact_number", "contact_email",
    "suggested_time", "call_script", "reasoning", "confidence_score"}

  /** `action_type` lower-cased when it names a valid action, "call" otherwise. */
  function ActionType(v: Json): (r: Result<string>)
    ensures r.Ok? <==> v.JStr?
    ensures r.Ok? ==> r.value in ValidActions
    ensures r.Ok? ==> (r.value == Lower(v.s) <==> Lower(v.s) in ValidActions)
  {
    if !v.JStr? then Err(NoAttribute(v, "lower"))
    else if Lower(v.s) !in ValidActions then Ok("call")
    else Ok(Lower(v.s))
  }

  /** `contact_number`, standardised when truthy; `re.sub` raises on a non-string. */
  function ContactNumber(v: Json): (r: Result<Json>)
    ensures r.Ok? <==> (!Truthy(v) || v.JStr?)
    ensures r.Ok? && !Truthy(v) ==> r.value == v
    ensures r.Ok? && Truthy(v) ==> r.value == JStr(StandardizePhoneNumber(v.s))
  {
    if !Truthy(v) then Ok(v)
    else if !v.JStr? then Err(TypeError("expected string or bytes-like object, got '" + TypeName(v) + "'"))
    else Ok(JStr(StandardizePhoneNumber(v.s)))
  }

  /** `contact_email`, validated when truthy; `strip` raises on a non-string. */
  function ContactEmail(v: Json): (r: Result<Json>)
    ensures r.Ok? <==> (!Truthy(v) || v.JStr?)
    ensures r.Ok? && !Truthy(v) ==> r.value == v
    ensures r.Ok? && Truthy(v) ==> r.value == JStr(ValidateEmail(v.s))
  {
    if !Truthy(v) then Ok(v)
    else if !v.JStr? then Err(NoAttribute(v, "strip"))
    else Ok(JStr(ValidateEmail(v.s)))
  }

  /** `_validate_output`: overwrites the fields of `validated` one step at a time. */
  method ValidateOutput(result: Obj) returns (r: Result<Obj>)
    ensures r.Ok? <==>
      ActionType(Get(result, "action_type", JStr("call"))).Ok? &&
      ContactNumber(Get(result, "contact_number", JStr(""))).Ok? &&
      ContactEmail(Get(result, "contact_email", JStr(""))).Ok?
    ensures r.Ok? ==> r.value.Keys == OutputKeys
    ensures r.Ok? ==> r.value["action_type"] == JStr(ActionType(Get(result, "action_type", JStr("call"))).value)
    ensures r.Ok? ==> r.value["contact_number"] == ContactNumber(Get(result, "contact_number", JStr(""))).value
    ensures r.Ok? ==> r.value["contact_email"] == ContactEmail(Get(result, "contact_email", JStr(""))).value
    ensures r.Ok? ==> r.value["confidence_score"] == JNum(Score(Get(result, "confidence_score", JNum(0.0)), 0.0))
    ensures r.Ok? ==> r.value["contact_name"] == Get(result, "contact_name", JStr(""))
    ensures r.Ok? ==> r.value["suggested_time"] == Get(result, "suggested_time", JStr(""))
    ensures r.Ok? ==> r.value["call_script"] == Get(result, "call_script", JStr(""))
    ensures r.Ok? ==> r.value["reasoning"] == Get(result, "reasoning", JStr(""))
  {
    assert |"action_type"| == 11 && |"contact_name"| == 12 && |"contact_number"| == 14 && |"contact_email"| == 13;
    assert |"suggested_time"| == 14 && |"call_script"| == 11 && |"reasoning"| == 9 && |"confidence_score"| == 16;
    assert "contact_number"[0] != "suggested_time"[0] && "action_type"[0] != "call_script"[0];
    var validated: Obj := map[
      "action_type" := Get(result, "action_type", JStr("call")),
      "contact_name" := Get(result, "contact_name", JStr("")),
      "contact_number" := Get(result, "contact_number", JStr("")),
      "contact_email" := Get(result, "contact_email", JStr("")),
      "suggested_time" := Get(result, "suggested_time", JStr("")),
      "call_script" := Get(result, "call_script", JStr("")),
      "reasoning" := Get(result, "reasoning", JStr("")),
      "confidence_score" := Get(result, "confidence_score", JNum(0.0))];
    assert validated.Keys == OutputKeys;
    ghost var kept := validated;
    assert kept["contact_name"] == Get(result, "contact_name", JStr(""));
    assert kept["suggested_time"] == Get(result, "suggested_time", JStr(""));
    assert kept["call_script"] == Get(result, "call_script", JStr(""));
    assert kept["reasoning"] == Get(result, "reasoning", JStr(""));

    var action := ActionType(validated["action_type"]);
    if action.Err? {
      return Err(action.fault);
    }
    validated := validated["action_type" := JStr(action.value)];
    assert validated.Keys == OutputKeys;
    assert validated["contact_number"] == Get(result, "contact_number", JStr(""));
    assert validated["contact_email"] == Get(result, "contact_email", JStr(""));

    var number := ContactNumber(validated["contact_number"]);
    if number.Err? {
      return Err(number.fault);
    }
    validated := validated["contact_number" := number.value];
    assert validated.Keys == OutputKeys;
    assert validated["contact_email"] == Get(result, "contact_email", JStr(""));

    var email := ContactEmail(validated["contact_email"]);
    if email.Err? {
      return Err(email.fault);
    }
    validated := validated["contact_email" := email.value];
    assert validated.Keys == OutputKeys;

    validated := validated["confidence_score" := JNum(Score(validated["confidence_score"], 0.0))];
    assert validated.Keys == OutputKeys;
    assert validated["contact_name"] == kept["contact_name"];
    assert validated["suggested_time"] == kept["suggested_time"];
    assert validated["call_script"] == kept["call_script"];
    assert validated["reasoning"] == kept["reasoning"];
    return Ok(validated);
  }
}
