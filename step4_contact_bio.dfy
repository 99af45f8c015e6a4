/** Step 4 of the artist wizard: the biography length, the optional WhatsApp
    number and the optional website. */
module ContactBioStep {

  import opened Types
  import opened EcmaScript
  import opened Registration
  import opened Wizard

  const MIN_BIO_LENGTH := 50
  const MAX_BIO_LENGTH := 500
  /** Country code and subscriber number together: at most 15 digits, as in E.164. */
  const MAX_PHONE_DIGITS := 15

  const MSG_BIO_SHORT := "La biografía debe tener al menos 50 caracteres"
  const MSG_BIO_LONG := "La biografía no puede superar 500 caracteres"
  const MSG_PHONE_INVALID := "Número de WhatsApp inválido. Usa formato internacional: +56912345678"
  const MSG_URL_INVALID := "URL de sitio web inválida"

  /** The phone pattern `^\+?[1-9]\d{1,14}$`: an optional `+` (taken whenever it
      is there, since `[1-9]` cannot match it), a digit 1 to 9, then 1 to 14 digits. */
  predicate MatchesPhonePattern(t: string) {
    var digits := if |t| > 0 && t[0] == '+' then t[1..] else t;
    2 <= |digits| <= MAX_PHONE_DIGITS && '1' <= digits[0] <= '9' && AllDecimalDigits(digits)
  }

  /** A matching number spells an international number: at most 15 digits, no
      leading zero, and at most one `+`, in front. */
  lemma PhonePatternIsInternational(t: string)
    requires MatchesPhonePattern(t)
    ensures 2 <= |t| <= MAX_PHONE_DIGITS + 1
    ensures forall k | 0 <= k < |t| :: IsDecimalDigit(t[k]) || (k == 0 && t[k] == '+')
    ensures t[0] != '0'
  {
    if t[0] == '+' {
      forall k | 1 <= k < |t|
        ensures IsDecimalDigit(t[k])
      {
        assert t[k] == t[1..][k - 1];
      }
    }
  }

  /** `handleSubmit`: the bio bounds, then the WhatsApp pattern on the number
      with whitespace deleted, then the URL; the number is stored as typed and an
      empty text becomes `undefined`. `isUrl` is whether `new URL(s)` succeeds. */
  function ContactBioResult(bio: string, whatsapp: string, websiteUrl: string, isUrl: string -> bool): (r: StepResult)
    ensures r.Accepted? <==>
      MIN_BIO_LENGTH <= |bio| <= MAX_BIO_LENGTH &&
      (whatsapp == "" || MatchesPhonePattern(StripWhitespace(whatsapp))) &&
      (websiteUrl == "" || isUrl(websiteUrl))
    ensures r == Rejected(MSG_BIO_SHORT) <==> |bio| < MIN_BIO_LENGTH
    ensures r == Rejected(MSG_BIO_LONG) <==> |bio| > MAX_BIO_LENGTH
    ensures r == Rejected(MSG_PHONE_INVALID) <==>
      MIN_BIO_LENGTH <= |bio| <= MAX_BIO_LENGTH &&
      whatsapp != "" && !MatchesPhonePattern(StripWhitespace(whatsapp))
    ensures r == Rejected(MSG_URL_INVALID) <==>
      MIN_BIO_LENGTH <= |bio| <= MAX_BIO_LENGTH &&
      (whatsapp == "" || MatchesPhonePattern(StripWhitespace(whatsapp))) &&
      websiteUrl != "" && !isUrl(websiteUrl)
    ensures r.Accepted? ==> r.patch == ContactBioPatch(bio, whatsapp, websiteUrl)
  {
    if bio == "" || |bio| < MIN_BIO_LENGTH then Rejected(MSG_BIO_SHORT)
    else if |bio| > MAX_BIO_LENGTH then Rejected(MSG_BIO_LONG)
    else if whatsapp != "" && !MatchesPhonePattern(StripWhitespace(whatsapp)) then Rejected(MSG_PHONE_INVALID)
    else if websiteUrl != "" && !isUrl(websiteUrl) then Rejected(MSG_URL_INVALID)
    else Accepted(ContactBioPatch(bio, whatsapp, websiteUrl))
  }

  /** `whatsapp || undefined`. */
  function TextOrUndefined(s: string): (v: Value)
    ensures v == Undefined <==> s == ""
    ensures s != "" ==> v == Text(s)
  {
    if s == "" then Undefined else Text(s)
  }

  /** The patch step 4 hands up: the three keys always, with an empty WhatsApp
      number or website given as `undefined`. */
  function ContactBioPatch(bio: string, whatsapp: string, websiteUrl: string): (p: Record)
    ensures p.Keys == StepFields(4) && Conforms(p)
    ensures p[Bio] == Text(bio)
    ensures p[Whatsapp] == (if whatsapp == "" then Undefined else Text(whatsapp))
    ensures p[WebsiteUrl] == (if websiteUrl == "" then Undefined else Text(websiteUrl))
  {
    map[Bio := Text(bio), Whatsapp := TextOrUndefined(whatsapp), WebsiteUrl := TextOrUndefined(websiteUrl)]
  }

  /** Whitespace typed inside a number is ignored by the check but kept in the
      patch: `a + ws + b` is accepted exactly when `a + b` would be, and stored as typed. */
  lemma NumberStoredAsTyped(bio: string, a: string, ws: string, b: string, isUrl: string -> bool)
    requires MIN_BIO_LENGTH <= |bio| <= MAX_BIO_LENGTH
    requires NoWhitespace(a) && NoWhitespace(b) && a + b != ""
    requires forall k | 0 <= k < |ws| :: IsWhitespace(ws[k])
    ensures ContactBioResult(bio, a + ws + b, "", isUrl).Accepted? <==> MatchesPhonePattern(a + b)
    ensures ContactBioResult(bio, a + ws + b, "", isUrl).Accepted? ==>
      ContactBioResult(bio, a + ws + b, "", isUrl).patch[Whatsapp] == Text(a + ws + b)
  {
    StripAroundWhitespace(a, ws, b);
  }

  /** A run of whitespace between two whitespace-free texts strips away. */
  lemma StripAroundWhitespace(a: string, ws: string, b: string)
    requires NoWhitespace(a) && NoWhitespace(b) && a + b != ""
    requires forall k | 0 <= k < |ws| :: IsWhitespace(ws[k])
    ensures StripWhitespace(a + ws + b) == a + b && a + ws + b != ""
  {
    var tail := ws + b;
    assert StripWhitespace(tail) == b by {
      AllWhitespaceStripsToEmpty(ws);
      StripWhitespaceAppend(ws, b);
      assert [] + b == b;
    }
    StripWhitespaceAppend(a, tail);
    assert a + ws + b == a + tail;
    assert |a + ws + b| == |a| + |ws| + |b|;
  }

  lemma {:induction false} AllWhitespaceStripsToEmpty(ws: string)
    requires forall k | 0 <= k < |ws| :: IsWhitespace(ws[k])
    ensures StripWhitespace(ws) == []
  {
    if ws != [] {
      AllWhitespaceStripsToEmpty(ws[1..]);
    }
  }

  class Step4ContactBio {
    var bio: string
    var whatsapp: string
    var websiteUrl: string
    var error: string

    /** The fields start from the record's values, or empty. */
    constructor (data: Record)
      ensures bio == TextOr(data, Bio, "") && whatsapp == TextOr(data, Whatsapp, "")
      ensures websiteUrl == TextOr(data, WebsiteUrl, "") && error == ""
    {
      bio := TextOr(data, Bio, "");
      whatsapp := TextOr(data, Whatsapp, "");
      websiteUrl := TextOr(data, WebsiteUrl, "");
      error := "";
    }

    /** `handleSubmit`, wired to the wizard's `onNext`. */
    method HandleSubmit(wizard: ArtistRegistrationWizard, isUrl: string -> bool)
      requires wizard.Valid() && wizard.currentStep == 4
      modifies this`error, wizard
      ensures wizard.Valid()
      ensures match ContactBioResult(bio, whatsapp, websiteUrl, isUrl)
        case Rejected(m) =>
          error == m && wizard.formData == old(wizard.formData) && wizard.currentStep == 4
        case Accepted(patch) =>
          error == "" && wizard.formData == Merge(old(wizard.formData), patch) && wizard.currentStep == 5
      ensures old(wizard.Populated()) ==> wizard.Populated()
    {
      error := "";
      var result := ContactBioResult(bio, whatsapp, websiteUrl, isUrl);
      match result
      case Rejected(m) =>
        error := m;
      case Accepted(patch) =>
        wizard.OnNext(patch);
    }
  }
}
