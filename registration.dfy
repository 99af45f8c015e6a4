/** The artist-registration record. The wizard accumulates it as a partial
    object, with one key per field of `ArtistRegistrationData`. A step hands up a
    patch of the same shape, and the wizard merges it by object spread. */
module Registration {

  import opened Types

  /** The keys of `ArtistRegistrationData`; `SelectedPeriod` is the key `billingPeriod`. */
  datatype Field =
    | Email | Password | ConfirmPassword
    | FullName | DisplayName | Age | Nationality | Country | City
    | ProfilePhoto | SelfieVerification | IdDocument
    | Bio | Whatsapp | WebsiteUrl
    | SelectedPlan | SelectedPeriod

  /** A property value. `Undefined` is a key that is present with the value
      `undefined`: object spread copies it like any other value. */
  datatype Value =
    | Text(text: string)
    | Number(number: int)
    | Attachment(file: File)
    | PlanValue(plan: PlanType)
    | PeriodValue(period: BillingPeriod)
    | Undefined

  /** `Partial<ArtistRegistrationData>`: the keys present and their values. */
  type Record = map<Field, Value>

  /** What a step's submit handler produces: the patch it hands up, or the one
      message it shows. */
  datatype StepResult = Accepted(patch: Record) | Rejected(message: string)

  /** The fields declared with `?`. */
  predicate IsOptional(f: Field) {
    f in {ProfilePhoto, SelfieVerification, IdDocument, Whatsapp, WebsiteUrl}
  }

  /** The declared type of each field; optional ones also admit `undefined`. */
  predicate Fits(f: Field, v: Value) {
    match f
    case Age => v.Number?
    case ProfilePhoto | SelfieVerification | IdDocument => v.Attachment? || v.Undefined?
    case Whatsapp | WebsiteUrl => v.Text? || v.Undefined?
    case SelectedPlan => v.PlanValue?
    case SelectedPeriod => v.PeriodValue?
    case _ => v.Text?
  }

  /** The record is a well-typed `Partial<ArtistRegistrationData>`. */
  predicate Conforms(r: Record) {
    forall f | f in r :: Fits(f, r[f])
  }

  /** The fields that `ArtistRegistrationData` requires. */
  function RequiredFields(): set<Field> {
    {Email, Password, ConfirmPassword, FullName, DisplayName, Age, Nationality, Country, City,
     Bio, SelectedPlan, SelectedPeriod}
  }

  /** The record is a full `ArtistRegistrationData`. */
  predicate IsComplete(r: Record) {
    Conforms(r) && RequiredFields() <= r.Keys
  }

  /** The keys that step `k` of the wizard hands up on a successful submit. */
  function StepFields(k: int): set<Field> {
    if k == 1 then {Email, Password, ConfirmPassword}
    else if k == 2 then {FullName, DisplayName, Age, Nationality, Country, City}
    else if k == 3 then {ProfilePhoto, SelfieVerification, IdDocument}
    else if k == 4 then {Bio, Whatsapp, WebsiteUrl}
    else if k == 5 then {SelectedPlan, SelectedPeriod}
    else {}
  }

  /** `{ ...r, ...patch }`: a right-biased shallow merge. */
  function Merge(r: Record, patch: Record): (m: Record)
    ensures m.Keys == r.Keys + patch.Keys
    ensures forall f | f in patch :: m[f] == patch[f]
    ensures forall f | f in r && f !in patch :: m[f] == r[f]
  {
    r + patch
  }

  lemma MergeConforms(r: Record, patch: Record)
    requires Conforms(r) && Conforms(patch)
    ensures Conforms(Merge(r, patch))
  {
  }

  /** Merging the same patch twice is merging it once. */
  lemma MergeIdempotent(r: Record, patch: Record)
    ensures Merge(Merge(r, patch), patch) == Merge(r, patch)
  {
  }

  /** Two merges in a row are one merge of the merged patches. */
  lemma MergeAssociative(r: Record, p1: Record, p2: Record)
    ensures Merge(Merge(r, p1), p2) == Merge(r, Merge(p1, p2))
  {
  }

  /** Patches with disjoint keys can be merged in either order. */
  lemma MergeDisjointCommutes(r: Record, p1: Record, p2: Record)
    requires p1.Keys !! p2.Keys
    ensures Merge(Merge(r, p1), p2) == Merge(Merge(r, p2), p1)
  {
  }

  /** A patch the record already holds changes nothing. */
  lemma MergeHeldPatch(r: Record, patch: Record)
    requires forall f | f in patch :: f in r && r[f] == patch[f]
    ensures Merge(r, patch) == r
  {
  }

  /** A merge leaves every field outside the patch as the record had it,
      including whether an optional field is present. */
  lemma MergeOutsidePatch(r: Record, patch: Record, f: Field)
    requires f !in patch
    ensures f in Merge(r, patch) <==> f in r
    ensures f in r ==> Merge(r, patch)[f] == r[f]
    ensures OptionalText(Merge(r, patch), f) == OptionalText(r, f)
    ensures OptionalFile(Merge(r, patch), f) == OptionalFile(r, f)
  {
  }

  /** A well-typed record holding the keys of steps 1 to 4 holds a text in each
      required text field among them and a number in `age`. */
  lemma EarlierStepsTyped(r: Record)
    requires Conforms(r)
    requires forall k | 1 <= k < 5 :: StepFields(k) <= r.Keys
    ensures Email in r && r[Email].Text? && Password in r && r[Password].Text?
    ensures FullName in r && r[FullName].Text? && Age in r && r[Age].Number?
    ensures Bio in r && r[Bio].Text? && Country in r && r[Country].Text? && City in r && r[City].Text?
  {
    assert StepFields(1) <= r.Keys && StepFields(2) <= r.Keys && StepFields(4) <= r.Keys;
    assert Fits(Email, r[Email]) && Fits(Password, r[Password]) && Fits(FullName, r[FullName]);
    assert Fits(Age, r[Age]) && Fits(Bio, r[Bio]) && Fits(Country, r[Country]) && Fits(City, r[City]);
  }

  /** `data.f || fallback` for a text field: the stored text unless it is
      missing, `undefined` or empty. */
  function TextOr(r: Record, f: Field, fallback: string): (s: string)
    ensures f in r && r[f].Text? && r[f].text != "" ==> s == r[f].text
    ensures !(f in r && r[f].Text? && r[f].text != "") ==> s == fallback
  {
    if f in r && r[f].Text? && r[f].text != "" then r[f].text else fallback
  }

  /** An optional text field, with `undefined` read as absent. */
  function OptionalText(r: Record, f: Field): Option<string> {
    if f in r && r[f].Text? then Some(r[f].text) else None
  }

  /** An optional file field, with `undefined` read as absent. */
  function OptionalFile(r: Record, f: Field): Option<File> {
    if f in r && r[f].Attachment? then Some(r[f].file) else None
  }

  /** `ArtistRegistrationData`, the record as the server action receives it. */
  datatype ArtistRegistrationData = ArtistRegistrationData(
    email: string, password: string, confirmPassword: string,
    fullName: string, displayName: string, age: int,
    nationality: string, country: string, city: string,
    profilePhoto: Option<File>, selfieVerification: Option<File>, idDocument: Option<File>,
    bio: string, whatsapp: Option<string>, websiteUrl: Option<string>,
    selectedPlan: PlanType, billingPeriod: BillingPeriod)

  /** The cast `as ArtistRegistrationData`, made for a complete record only. */
  function ToRegistrationData(r: Record): (d: ArtistRegistrationData)
    requires IsComplete(r)
    ensures d.email == r[Email].text && d.password == r[Password].text
    ensures d.fullName == r[FullName].text && d.age == r[Age].number && d.bio == r[Bio].text
    ensures d.country == r[Country].text && d.city == r[City].text
    ensures d.selectedPlan == r[SelectedPlan].plan && d.billingPeriod == r[SelectedPeriod].period
    ensures d.whatsapp.Some? <==> Whatsapp in r && r[Whatsapp].Text?
    ensures d.profilePhoto.Some? <==> ProfilePhoto in r && r[ProfilePhoto].Attachment?
    ensures d.profilePhoto == OptionalFile(r, ProfilePhoto) && d.whatsapp == OptionalText(r, Whatsapp)
  {
    ArtistRegistrationData(
      r[Email].text, r[Password].text, r[ConfirmPassword].text,
      r[FullName].text, r[DisplayName].text, r[Age].number,
      r[Nationality].text, r[Country].text, r[City].text,
      OptionalFile(r, ProfilePhoto), OptionalFile(r, SelfieVerification), OptionalFile(r, IdDocument),
      r[Bio].text, OptionalText(r, Whatsapp), OptionalText(r, WebsiteUrl),
      r[SelectedPlan].plan, r[SelectedPeriod].period)
  }

  /** The keys handed up by steps 1 to 5 together are all the required fields:
      a well-typed record holding every step's keys is complete. */
  lemma AllStepsComplete(r: Record)
    requires Conforms(r)
    requires forall k | 1 <= k <= 5 :: StepFields(k) <= r.Keys
    ensures IsComplete(r)
  {
    assert StepFields(1) <= r.Keys && StepFields(2) <= r.Keys;
    assert StepFields(4) <= r.Keys && StepFields(5) <= r.Keys;
  }
}
