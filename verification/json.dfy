/**
 * The dynamic values an LLM reply is parsed into (`json.loads`), and the
 * Python built-ins the sanitisers apply to them: `dict.get`, truthiness,
 * `len`, `float`, the clamp to [0, 1] and `dict.setdefault`.
 */
module Json {
  import opened Outcomes
  import opened Text

  datatype Json =
    | JNull
    | JBool(b: bool)
    | JNum(n: real)
    | JStr(s: string)
    | JArr(items: seq<Json>)
    | JObj(fields: map<string, Json>)

  /** A Python dict with string keys. */
  type Obj = map<string, Json>

  /** `o.get(key, default)`: what `setdefault(key, default)` would leave at `key`, without the update. */
  function Get(o: Obj, key: string, default: Json): (r: Json)
    ensures r == (map[key := default] + o)[key]
  {
    if key in o then o[key] else default
  }

  /** `bool(v)`: a container or string is true exactly when its `len` is not zero. */
  predicate Truthy(v: Json)
    ensures Len(v).Ok? ==> (Truthy(v) <==> Len(v).value != 0)
  {
    match v
    case JNull => false
    case JBool(b) => b
    case JNum(n) => n != 0.0
    case JStr(s) => s != ""
    case JArr(items) => items != []
    case JObj(fields) => fields != map[]
  }

  /** `type(v).__name__` */
  function TypeName(v: Json): (r: string)
    ensures r != ""
  {
    match v
    case JNull => "NoneType"
    case JBool(_) => "bool"
    case JNum(_) => "float"
    case JStr(_) => "str"
    case JArr(_) => "list"
    case JObj(_) => "dict"
  }

  /** Two values have the same `__name__` exactly when they are the same kind of value. */
  lemma TypeNameDistinct(v: Json, w: Json)
    ensures TypeName(v) == TypeName(w) <==> SameKind(v, w)
  {
  }

  /** Built by the same constructor. */
  predicate SameKind(v: Json, w: Json) {
    v.JNull? == w.JNull? && v.JBool? == w.JBool? && v.JNum? == w.JNum? &&
    v.JStr? == w.JStr? && v.JArr? == w.JArr? && v.JObj? == w.JObj?
  }

  /** `len(v)`: defined on strings, lists and dicts, a TypeError otherwise. */
  function Len(v: Json): (r: Result<nat>)
    ensures r.Ok? <==> (v.JStr? || v.JArr? || v.JObj?)
    ensures v.JArr? ==> r == Ok(|v.items|)
  {
    match v
    case JStr(s) => Ok(|s|)
    case JArr(items) => Ok(|items|)
    case JObj(fields) => Ok(|fields|)
    case _ => Err(TypeError("object of type '" + TypeName(v) + "' has no len()"))
  }

  /** The AttributeError raised by calling a method `name` that `v` lacks. */
  function NoAttribute(v: Json, name: string): Fault {
    AttributeError("'" + TypeName(v) + "' object has no attribute '" + name + "'")
  }

  /** What `float` returns: a finite number, an infinity or a NaN. */
  datatype Float = Finite(x: real) | PosInf | NegInf | NaN

  /** Digits and underscores only. */
  predicate DigitsOrUnderscores(s: string) {
    forall i :: 0 <= i < |s| ==> IsDigit(s[i]) || s[i] == '_'
  }

  /** Digits grouped by single underscores, as in `1_000`: a digit first and a digit after each underscore. */
  predicate DigitPart(s: string) {
    s != [] && IsDigit(s[0]) && DigitsOrUnderscores(s) &&
    forall i :: 0 <= i < |s| && s[i] == '_' ==> i + 1 < |s| && IsDigit(s[i + 1])
  }

  /** The digits of `s` with the underscores left out. */
  function NoUnderscores(s: string): (r: string)
    requires DigitsOrUnderscores(s)
    ensures AllDigits(r) && |r| <= |s|
    ensures AllDigits(s) ==> r == s
  {
    if s == [] then []
    else
      assert DigitsOrUnderscores(s[1..]) && (AllDigits(s) ==> AllDigits(s[1..]));
      (if s[0] == '_' then [] else [s[0]]) + NoUnderscores(s[1..])
  }

  /** The value of a digit part, 0 for the empty text. */
  function PartValue(s: string): nat
    requires DigitsOrUnderscores(s)
  {
    DigitsValue(NoUnderscores(s))
  }

  /** A decimal numeral without sign or exponent: `1`, `1.`, `.5` or `1.5`. */
  function ParseDecimal(s: string): (r: Option<real>)
    ensures s != [] && AllDigits(s) ==> r == Some(DigitsValue(s) as real)
    ensures r.Some? ==> s != [] && r.value >= 0.0
  {
    if DigitPart(s) then Some(PartValue(s) as real)
    else
      match IndexOf(s, ".")
      case None => None
      case Some(k) =>
        var whole, frac := s[..k], s[k + 1..];
        if (whole == [] || DigitPart(whole)) && (frac == [] || DigitPart(frac)) && |whole| + |frac| >= 1 then
          var f := PartValue(frac) as real / Pow10(|NoUnderscores(frac)|) as real;
          assert f >= 0.0;
          Some(PartValue(whole) as real + f)
        else None
  }

  /** The exponent after `e`: an optional sign and a digit part. */
  function ParseExponent(s: string): (r: Option<int>) {
    if s != [] && (s[0] == '-' || s[0] == '+') && DigitPart(s[1..]) then
      Some(if s[0] == '-' then -(PartValue(s[1..]) as int) else PartValue(s[1..]))
    else if DigitPart(s) then Some(PartValue(s))
    else None
  }

  /** `m` times ten to the power `e`. */
  function Scale(m: real, e: int): real {
    if e >= 0 then m * Pow10(e) as real else m / Pow10(-e) as real
  }

  /** An unsigned numeral, lower-cased: a decimal with an optional exponent, or an infinity or NaN. */
  function ParseUnsigned(s: string): (r: Option<Float>)
    ensures s != [] && AllDigits(s) ==> r == Some(Finite(DigitsValue(s) as real))
    ensures r.Some? ==> s != []
    ensures r == Some(PosInf) <==> s == "inf" || s == "infinity"
    ensures r == Some(NaN) <==> s == "nan"
    ensures r != Some(NegInf)
  {
    if s == "inf" || s == "infinity" then Some(PosInf)
    else if s == "nan" then Some(NaN)
    else if s != [] && AllDigits(s) then Some(Finite(DigitsValue(s) as real))
    else
      match IndexOf(s, "e")
      case None => if ParseDecimal(s).Some? then Some(Finite(ParseDecimal(s).value)) else None
      case Some(k) =>
        match (ParseDecimal(s[..k]), ParseExponent(s[k + 1..]))
        case (Some(m), Some(e)) => Some(Finite(Scale(m, e)))
        case _ => None
  }

  /** `-x` */
  function Negate(f: Float): (r: Float)
    ensures r.Finite? <==> f.Finite?
    ensures f.Finite? ==> r.x == -f.x
    ensures r == PosInf <==> f == NegInf
    ensures r == NegInf <==> f == PosInf
    ensures r == NaN <==> f == NaN
  {
    match f
    case Finite(x) => Finite(-x)
    case PosInf => NegInf
    case NegInf => PosInf
    case NaN => NaN
  }

  /**
   * `float(s)` for a string: surrounding whitespace, an optional sign, then a
   * numeral read without regard to case.
   */
  function ParseFloat(s: string): (r: Option<Float>)
    ensures r.Some? ==> Strip(s) != []
  {
    var t := Lower(Strip(s));
    if t != [] && t[0] == '-' then
      match ParseUnsigned(t[1..])
      case Some(x) => Some(Negate(x))
      case None => None
    else if t != [] && t[0] == '+' then ParseUnsigned(t[1..])
    else ParseUnsigned(t)
  }

  /** The spellings `float` reads as an infinity or a NaN, with or without a sign. */
  lemma ParseFloatSpecial(s: string)
    ensures ParseFloat(s) == Some(PosInf) <==> Lower(Strip(s)) in ["inf", "infinity", "+inf", "+infinity"]
    ensures ParseFloat(s) == Some(NegInf) <==> Lower(Strip(s)) in ["-inf", "-infinity"]
    ensures ParseFloat(s) == Some(NaN) <==> Lower(Strip(s)) in ["nan", "+nan", "-nan"]
  {
    var t := Lower(Strip(s));
    if t != [] && t[0] == '-' {
      MinusSpecial(t);
    } else if t != [] && t[0] == '+' {
      PlusSpecial(t);
    } else {
      assert t !in ["+inf", "+infinity", "+nan", "-inf", "-infinity", "-nan"];
    }
  }

  lemma MinusSpecial(t: string)
    requires t != [] && t[0] == '-'
    ensures var r := ParseUnsigned(t[1..]);
      (r.Some? && Negate(r.value) == PosInf <==> false) &&
      (r.Some? && Negate(r.value) == NegInf <==> t in ["-inf", "-infinity"]) &&
      (r.Some? && Negate(r.value) == NaN <==> t == "-nan")
    ensures t !in ["inf", "infinity", "+inf", "+infinity", "nan", "+nan"]
  {
    SignedSpecial(t, '-');
    assert "-inf" == ['-'] + "inf" && "-infinity" == ['-'] + "infinity" && "-nan" == ['-'] + "nan";
  }

  lemma PlusSpecial(t: string)
    requires t != [] && t[0] == '+'
    ensures var r := ParseUnsigned(t[1..]);
      (r == Some(PosInf) <==> t in ["+inf", "+infinity"]) && r != Some(NegInf) && (r == Some(NaN) <==> t == "+nan")
    ensures t !in ["inf", "infinity", "-inf", "-infinity", "nan", "-nan"]
  {
    SignedSpecial(t, '+');
    assert "+inf" == ['+'] + "inf" && "+infinity" == ['+'] + "infinity" && "+nan" == ['+'] + "nan";
  }

  /** After a sign, the special words are read as the words without it. */
  lemma SignedSpecial(t: string, sign: char)
    requires t != [] && t[0] == sign && (sign == '-' || sign == '+')
    ensures t == [sign] + "inf" <==> t[1..] == "inf"
    ensures t == [sign] + "infinity" <==> t[1..] == "infinity"
    ensures t == [sign] + "nan" <==> t[1..] == "nan"
    ensures t !in ["inf", "infinity", "nan"]
  {
    SignedWord(t, "inf");
    SignedWord(t, "infinity");
    SignedWord(t, "nan");
  }

  /** A sign followed by a word is that word after the sign. */
  lemma SignedWord(t: string, w: string)
    requires t != []
    ensures t == [t[0]] + w <==> t[1..] == w
  {
    assert t == [t[0]] + t[1..];
  }

  /** A plain run of digits reads as its value. */
  lemma ParseFloatDigits(s: string)
    requires s != [] && AllDigits(s)
    ensures ParseFloat(s) == Some(Finite(DigitsValue(s) as real))
  {
    DigitsStripped(s);
    assert Lower(s) == s;
  }

  /** Digits carry no surrounding whitespace. */
  lemma DigitsStripped(s: string)
    requires s != [] && AllDigits(s)
    ensures Strip(s) == s
  {
    assert !IsSpace(s[0]) && !IsSpace(s[|s| - 1]);
    assert LStrip(s) == s;
  }

  /** `float(v)`; None stands for the ValueError or TypeError it raises. */
  function ToFloat(v: Json): (r: Option<Float>)
    ensures v.JNum? ==> r == Some(Finite(v.n))
    ensures v.JBool? ==> r == Some(Finite(if v.b then 1.0 else 0.0))
    ensures v.JStr? && v.s != [] && AllDigits(v.s) ==> r == Some(Finite(DigitsValue(v.s) as real))
    ensures v.JStr? && r.Some? ==> Strip(v.s) != []
    ensures v.JNull? || v.JArr? || v.JObj? ==> r.None?
  {
    match v
    case JNum(n) => Some(Finite(n))
    case JBool(b) => Some(Finite(if b then 1.0 else 0.0))
    case JStr(s) =>
      assert s != [] && AllDigits(s) ==> ParseFloat(s) == Some(Finite(DigitsValue(s) as real)) by {
        if s != [] && AllDigits(s) {
          ParseFloatDigits(s);
        }
      }
      ParseFloat(s)
    case _ => None
  }

  /** `float(str(n))` gives `n` back. */
  lemma ToFloatOfNumeral(n: nat)
    ensures ToFloat(JStr(NatToString(n))) == Some(Finite(n as real))
  {
    ParseFloatDigits(NatToString(n));
  }

  /** An exponent scales the mantissa: "1e-1" reads as a tenth. */
  lemma ExponentExample(s: string)
    requires s == "1e-1"
    ensures ToFloat(JStr(s)) == Some(Finite(0.1))
  {
    assert Strip(s) == s by {
      assert LStrip(s) == s && RStrip(s) == s;
    }
    assert Lower(s) == s;
    ExponentParts(s);
  }

  lemma ExponentParts(s: string)
    requires s == "1e-1"
    ensures ParseUnsigned(s) == Some(Finite(0.1))
  {
    assert !AllDigits(s) by {
      assert !IsDigit(s[1]);
    }
    assert IndexOf(s, "e") == Some(1) by {
      assert s[1..2] == "e" && s[0..1] == "1";
      assert OccursAt(s, "e", 1) && !OccursAt(s, "e", 0);
    }
    assert s[..1] == "1" && s[2..] == "-1";
    OneDigit();
  }

  lemma OneDigit()
    ensures ParseDecimal("1") == Some(1.0) && ParseExponent("-1") == Some(-1)
  {
    assert DigitPart("1") && NoUnderscores("1") == "1" && DigitsValue("1") == 1 by {
      assert "1"[..0] == [];
    }
    assert "-1"[1..] == "1";
  }

  /** Underscores may group digits: "1_000" reads as a thousand. */
  lemma UnderscoreExample(s: string)
    requires s == "1_000"
    ensures ParseUnsigned(s) == Some(Finite(1000.0))
  {
    assert !AllDigits(s) by {
      assert !IsDigit(s[1]);
    }
    assert DigitPart(s) by {
      assert forall i :: 0 <= i < |s| && s[i] == '_' ==> i == 1;
    }
    assert NoUnderscores(s) == "1000" by {
      assert s[1..] == "_000" && s[1..][1..] == "000";
    }
    assert DigitsValue("1000") == 1000 by {
      assert "1000"[..3] == "100" && "100"[..2] == "10" && "10"[..1] == "1" && "1"[..0] == [];
    }
  }

  /** `max(0.0, min(1.0, x))` */
  function Clamp01(x: real): (r: real)
    ensures 0.0 <= r <= 1.0
    ensures 0.0 <= x <= 1.0 ==> r == x
    ensures x < 0.0 ==> r == 0.0
    ensures x > 1.0 ==> r == 1.0
  {
    if x < 0.0 then 0.0 else if x > 1.0 then 1.0 else x
  }

  /**
   * The score idiom of every sanitiser:
   * `try: max(0.0, min(1.0, float(v))) except (ValueError, TypeError): fallback`.
   */
  function Score(v: Json, fallback: real): (r: real)
    requires 0.0 <= fallback <= 1.0
    ensures 0.0 <= r <= 1.0
    ensures ToFloat(v).None? ==> r == fallback
    ensures v.JNum? && 0.0 <= v.n <= 1.0 ==> r == v.n
    ensures ToFloat(v).Some? && ToFloat(v).value.Finite? ==>
      var x := ToFloat(v).value.x;
      (x < 0.0 ==> r == 0.0) && (x > 1.0 ==> r == 1.0) && (0.0 <= x <= 1.0 ==> r == x)
    ensures ToFloat(v) == Some(NegInf) ==> r == 0.0
    ensures ToFloat(v) == Some(PosInf) || ToFloat(v) == Some(NaN) ==> r == 1.0
  {
    match ToFloat(v)
    case Some(Finite(x)) => Clamp01(x)
    case Some(NegInf) => 0.0
    // `min(1.0, nan)` keeps its first argument, so NaN clamps like infinity.
    case Some(_) => 1.0
    case None => fallback
  }

  lemma ScoreIdempotent(v: Json, fallback: real)
    requires 0.0 <= fallback <= 1.0
    ensures Score(JNum(Score(v, fallback)), fallback) == Score(v, fallback)
  {
  }

  /**
   * `d.setdefault(k, x)` for every default `k: x`, applied only when `v` is a
   * dict; anything else is left as it is.
   */
  function SetDefaults(v: Json, defaults: Obj): (r: Json)
    ensures !v.JObj? ==> r == v
    ensures v.JObj? ==> r.JObj? && r.fields.Keys == v.fields.Keys + defaults.Keys
    ensures v.JObj? ==> forall k :: k in v.fields ==> r.fields[k] == v.fields[k]
    ensures v.JObj? ==> forall k :: k in defaults && k !in v.fields ==> r.fields[k] == defaults[k]
  {
    match v
    case JObj(m) => JObj(defaults + m)
    case _ => v
  }

  lemma SetDefaultsIdempotent(v: Json, defaults: Obj)
    ensures SetDefaults(SetDefaults(v, defaults), defaults) == SetDefaults(v, defaults)
  {
    if v.JObj? {
      var once := SetDefaults(v, defaults).fields;
      assert defaults + once == once;
    }
  }

  /**
   * How a value reads when interpolated into an f-string. Strings, None and
   * booleans read as Python writes them; numbers, lists and dicts are shown by
   * a placeholder naming their type.
   */
  function Render(v: Json): (r: string)
    ensures r == "" <==> v == JStr("")
  {
    match v
    case JStr(s) => s
    case JNull => "None"
    case JBool(b) => if b then "True" else "False"
    case _ => "<" + TypeName(v) + ">"
  }

  /** `v if isinstance(v, list) else []` */
  function ListOr(v: Json): (r: seq<Json>)
    ensures v.JArr? ==> r == v.items
    ensures !v.JArr? ==> r == []
  {
    if v.JArr? then v.items else []
  }

  /** Every item after `item.setdefault(k, x)` for each default, dicts only. */
  function FillAll(items: seq<Json>, defaults: Obj): (r: seq<Json>)
    ensures |r| == |items|
    ensures forall i :: 0 <= i < |items| ==> r[i] == SetDefaults(items[i], defaults)
  {
    seq(|items|, i requires 0 <= i < |items| => SetDefaults(items[i], defaults))
  }

  lemma FillAllIdempotent(items: seq<Json>, defaults: Obj)
    ensures FillAll(FillAll(items, defaults), defaults) == FillAll(items, defaults)
  {
    forall i | 0 <= i < |items| {
      SetDefaultsIdempotent(items[i], defaults);
    }
  }

  /**
   * The loop `for item in items: if isinstance(item, dict): item.setdefault(...)`,
   * updating the list in place.
   */
  method FillEach(items: seq<Json>, defaults: Obj) returns (filled: seq<Json>)
    ensures filled == FillAll(items, defaults)
  {
    filled := items;
    for i := 0 to |items|
      invariant |filled| == |items|
      invariant forall j :: 0 <= j < i ==> filled[j] == SetDefaults(items[j], defaults)
      invariant forall j :: i <= j < |items| ==> filled[j] == items[j]
    {
      if filled[i].JObj? {
        filled := filled[i := SetDefaults(filled[i], defaults)];
      }
    }
  }
}
