/** Step 2 of the artist wizard: the personal fields and the age range. */
module PersonalInfoStep {

  import opened Types
  import opened EcmaScript
  import opened Registration
  import opened Wizard

  const MIN_AGE := 18
  const MAX_AGE := 120
  const DEFAULT_COUNTRY := "Chile"

  const MSG_REQUIRED := "Todos los campos son obligatorios"
  const MSG_UNDERAGE := "Debes ser mayor de 18 años"
  const MSG_AGE_INVALID := "Edad inválida"

  /** None of the six fields is empty. */
  predicate AllFilled(fullName: string, displayName: string, age: string,
                      nationality: string, country: string, city: string)
  {
    fullName != "" && displayName != "" && age != "" && nationality != "" && country != "" && city != ""
  }

  /** `handleSubmit`: every field filled, then `parseInt(age)` neither NaN nor
      below 18, then not above 120; the patch stores the parsed age. */
  function PersonalInfoResult(fullName: string, displayName: string, age: string,
                              nationality: string, country: string, city: string): (r: StepResult)
    ensures r.Accepted? <==>
      AllFilled(fullName, displayName, age, nationality, country, city) &&
      ParseInt(age).Some? && MIN_AGE <= ParseInt(age).value <= MAX_AGE
    ensures r == Rejected(MSG_REQUIRED) <==> !AllFilled(fullName, displayName, age, nationality, country, city)
    ensures r == Rejected(MSG_UNDERAGE) <==>
      AllFilled(fullName, displayName, age, nationality, country, city) &&
      (ParseInt(age).None? || ParseInt(age).value < MIN_AGE)
    ensures r == Rejected(MSG_AGE_INVALID) <==>
      AllFilled(fullName, displayName, age, nationality, country, city) &&
      ParseInt(age).Some? && ParseInt(age).value > MAX_AGE
    ensures r.Accepted? ==>
      r.patch == PersonalInfoPatch(fullName, displayName, ParseInt(age).value, nationality, country, city)
  {
    if !AllFilled(fullName, displayName, age, nationality, country, city) then
      Rejected(MSG_REQUIRED)
    else
      match ParseInt(age)
      case None => Rejected(MSG_UNDERAGE)
      case Some(n) =>
        if n < MIN_AGE then Rejected(MSG_UNDERAGE)
        else if n > MAX_AGE then Rejected(MSG_AGE_INVALID)
        else Accepted(PersonalInfoPatch(fullName, displayName, n, nationality, country, city))
  }

  /** The patch step 2 hands up: the six fields, with the age as a number. */
  function PersonalInfoPatch(fullName: string, displayName: string, age: int,
                             nationality: string, country: string, city: string): (p: Record)
    ensures p.Keys == StepFields(2) && Conforms(p)
    ensures p[FullName] == Text(fullName) && p[DisplayName] == Text(displayName) && p[Age] == Number(age)
    ensures p[Nationality] == Text(nationality) && p[Country] == Text(country) && p[City] == Text(city)
  {
    map[FullName := Text(fullName), DisplayName := Text(displayName), Age := Number(age),
        Nationality := Text(nationality), Country := Text(country), City := Text(city)]
  }

  /** The age is read by `parseInt`, so a leading numeral is enough: "30.9"
      is accepted and stored as 30. */
  lemma AgeReadsLeadingNumeral()
    ensures PersonalInfoResult("Ana", "Ana", "30.9", "Chilena", "Chile", "Santiago").Accepted?
    ensures PersonalInfoResult("Ana", "Ana", "30.9", "Chilena", "Chile", "Santiago").patch[Age] == Number(30)
  {
    ParseIntOfDecimalWithFraction();
  }

  lemma ParseIntOfDecimalWithFraction()
    ensures ParseInt("30.9") == Some(30)
  {
    assert NumeralValue("30", 10) == 30 by {
      assert "30"[..1] == "3";
      assert "3"[..0] == [];
    }
    assert ParseInt([] + "30" + ".9") == Some(NumeralValue("30", 10)) by {
      ParseIntReadsDecimalPrefix([], "30", ".9");
    }
    assert [] + "30" + ".9" == "30.9";
  }

  /** `data.age?.toString() || ''`: the text the age field starts with. */
  function AgeText(data: Record): (text: string)
    // a stored age reads back through `parseInt` as itself
    ensures Age in data && data[Age].Number? ==> ParseInt(text) == Some(data[Age].number)
    ensures Age !in data ==> text == ""
  {
    if Age in data then
      match data[Age]
      case Number(n) => IntToStringRoundTrip(n); IntToString(n)
      case Text(t) => t
      case _ => ""
    else ""
  }

  /** Coming back to step 2, the fields start from the patch it handed up, and
      submitting them unchanged hands up the same patch again. */
  lemma ResubmitGivesSamePatch(fullName: string, displayName: string, age: string,
                               nationality: string, country: string, city: string)
    requires PersonalInfoResult(fullName, displayName, age, nationality, country, city).Accepted?
    ensures var p := PersonalInfoResult(fullName, displayName, age, nationality, country, city).patch;
      PersonalInfoResult(TextOr(p, FullName, ""), TextOr(p, DisplayName, ""), AgeText(p),
                         TextOr(p, Nationality, ""), TextOr(p, Country, DEFAULT_COUNTRY), TextOr(p, City, ""))
      == Accepted(p)
  {
    var p := PersonalInfoResult(fullName, displayName, age, nationality, country, city).patch;
    var n := ParseInt(age).value;
    var ageText := AgeText(p);
    assert ageText == IntToString(n);
    IntToStringRoundTrip(n);
    assert ageText != "";
    assert TextOr(p, FullName, "") == fullName && TextOr(p, DisplayName, "") == displayName;
    assert TextOr(p, Nationality, "") == nationality && TextOr(p, Country, DEFAULT_COUNTRY) == country;
    assert TextOr(p, City, "") == city;
    var again := PersonalInfoResult(fullName, displayName, ageText, nationality, country, city);
    assert again.Accepted?;
    assert again.patch == p;
  }

  class Step2PersonalInfo {
    var fullName: string
    var displayName: string
    var age: string
    var nationality: string
    var country: string
    var city: string
    var error: string

    /** The fields start from the record's values; the country defaults to Chile. */
    constructor (data: Record)
      ensures fullName == TextOr(data, FullName, "") && displayName == TextOr(data, DisplayName, "")
      ensures age == AgeText(data) && nationality == TextOr(data, Nationality, "")
      ensures country == TextOr(data, Country, DEFAULT_COUNTRY) && city == TextOr(data, City, "")
      ensures error == ""
    {
      fullName := TextOr(data, FullName, "");
      displayName := TextOr(data, DisplayName, "");
      age := AgeText(data);
      nationality := TextOr(data, Nationality, "");
      country := TextOr(data, Country, DEFAULT_COUNTRY);
      city := TextOr(data, City, "");
      error := "";
    }

    /** `handleSubmit`, wired to the wizard's `onNext`. */
    method HandleSubmit(wizard: ArtistRegistrationWizard)
      requires wizard.Valid() && wizard.currentStep == 2
      modifies this`error, wizard
      ensures wizard.Valid()
      ensures match PersonalInfoResult(fullName, displayName, age, nationality, country, city)
        case Rejected(m) =>
          error == m && wizard.formData == old(wizard.formData) && wizard.currentStep == 2
        case Accepted(patch) =>
          error == "" && wizard.formData == Merge(old(wizard.formData), patch) && wizard.currentStep == 3
      ensures old(wizard.Populated()) ==> wizard.Populated()
    {
      error := "";
      var result := PersonalInfoResult(fullName, displayName, age, nationality, country, city);
      match result
      case Rejected(m) =>
        error := m;
      case Accepted(patch) =>
        wizard.OnNext(patch);
    }
  }
}
