/** The weight units the app can display and the parser for stored unit names. */
module Units {
  import opened Wrappers

  /** `WeightUnit`: the label resource of each constant is a UI concern and is not modelled. */
  datatype WeightUnit = Kilograms | Pounds {

    /** The unit's short symbol. */
    function Symbol(): (s: string)
      ensures |s| == 2 && (s == "lb" <==> this == Pounds)
    {
      match this
      case Kilograms => "kg"
      case Pounds => "lb"
    }
  }

  /** Lower-cases an ASCII capital letter and leaves every other character alone. */
  function LowerChar(c: char): char {
    if 'A' <= c <= 'Z' then (c as int + 32) as char else c
  }

  /** `String.lowercase()`, restricted to the ASCII letters. */
  function Lowercase(s: string): (r: string)
    ensures |r| == |s|
    ensures forall i :: 0 <= i < |s| ==> r[i] == LowerChar(s[i])
  {
    if s == [] then [] else [LowerChar(s[0])] + Lowercase(s[1..])
  }

  /** The names that `fromString` reads as pounds. */
  const PoundNames: set<string> := {"lbs", "lb", "pounds"}

  /** `WeightUnit.fromString`: pounds for the three pound names in any case, kilograms
      for everything else, including a null value. */
  function FromString(value: Option<string>): (u: WeightUnit)
    ensures value == None ==> u == Kilograms
  {
    if value.Some? && Lowercase(value.value) in PoundNames then Pounds else Kilograms
  }

  /** Upper-cases an ASCII small letter and leaves every other character alone. */
  function UpperChar(c: char): char {
    if 'a' <= c <= 'z' then (c as int - 32) as char else c
  }

  /** s spells the lower-case ASCII word w with each letter in either case. */
  predicate SpelledIgnoringCase(s: string, w: string) {
    |s| == |w| && forall i :: 0 <= i < |s| ==> s[i] == w[i] || s[i] == UpperChar(w[i])
  }

  predicate IsLowerAsciiWord(w: string) {
    forall i :: 0 <= i < |w| ==> 'a' <= w[i] <= 'z'
  }

  lemma LowercaseMatches(s: string, w: string)
    requires IsLowerAsciiWord(w)
    ensures Lowercase(s) == w <==> SpelledIgnoringCase(s, w)
  {
    if SpelledIgnoringCase(s, w) {
      assert forall i :: 0 <= i < |s| ==> Lowercase(s)[i] == w[i];
    }
    if Lowercase(s) == w {
      forall i | 0 <= i < |s| ensures s[i] == w[i] || s[i] == UpperChar(w[i]) {
        assert LowerChar(s[i]) == w[i];
      }
    }
  }

  /** `fromString` answers pounds exactly for "lbs", "lb" and "pounds" written in any
      mixture of upper and lower case, and kilograms for every other string. */
  lemma FromStringPounds(s: string)
    ensures FromString(Some(s)) == Pounds <==>
      SpelledIgnoringCase(s, "lbs") || SpelledIgnoringCase(s, "lb") || SpelledIgnoringCase(s, "pounds")
  {
    LowercaseMatches(s, "lbs");
    LowercaseMatches(s, "lb");
    LowercaseMatches(s, "pounds");
  }

  /** Parsing only depends on the lower-cased text. */
  lemma FromStringIgnoresCase(s: string, t: string)
    requires Lowercase(s) == Lowercase(t)
    ensures FromString(Some(s)) == FromString(Some(t))
  {
  }

  /** Each unit's symbol parses back to that unit. */
  lemma FromStringSymbol(u: WeightUnit)
    ensures FromString(Some(u.Symbol())) == u
  {
    assert Lowercase("kg") == "kg";
    assert Lowercase("lb") == "lb";
  }

  /** Concrete cases: upper- and lower-case short pound names. */
  lemma FromStringPoundExamples()
    ensures FromString(Some("LB")) == Pounds
    ensures FromString(Some("lbs")) == Pounds
  {
    assert Lowercase("LB") == "lb";
    assert Lowercase("lbs") == "lbs";
  }

  /** Concrete case: a capitalised long pound name. */
  lemma FromStringCapitalisedPounds()
    ensures FromString(Some("Pounds")) == Pounds
  {
    var r := Lowercase("Pounds");
    assert r[0] == 'p';
    assert r == "pounds";
  }

  /** Concrete cases: the empty string and "kg" in either case. */
  lemma FromStringKilogramExamples()
    ensures FromString(Some("")) == Kilograms
    ensures FromString(Some("kg")) == Kilograms
    ensures FromString(Some("KG")) == Kilograms
  {
    assert Lowercase("") == "";
    assert Lowercase("kg") == "kg";
    assert Lowercase("KG") == "kg";
  }
}
