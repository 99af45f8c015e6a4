/** Step 3 of the artist wizard: three identity images, each gated when it is
    selected, and all three required to continue. */
module VerificationStep {

  import opened Types
  import opened Registration
  import opened ImageFiles
  import opened Wizard

  const MSG_MISSING := "Debes subir todos los documentos requeridos"

  /** Which of the three file inputs a selection comes from. */
  datatype Slot = ProfilePhotoSlot | SelfieSlot | IdDocumentSlot

  /** `handleSubmit`: all three slots filled, and then the patch of exactly those files. */
  function VerificationResult(profilePhoto: Option<File>, selfieVerification: Option<File>,
                              idDocument: Option<File>): (r: StepResult)
    ensures r.Accepted? <==> profilePhoto.Some? && selfieVerification.Some? && idDocument.Some?
    ensures r.Rejected? ==> r.message == MSG_MISSING
    ensures r.Accepted? ==>
      r.patch == map[ProfilePhoto := Attachment(profilePhoto.value),
                     SelfieVerification := Attachment(selfieVerification.value),
                     IdDocument := Attachment(idDocument.value)]
    ensures r.Accepted? ==> r.patch.Keys == StepFields(3) && Conforms(r.patch)
  {
    match (profilePhoto, selfieVerification, idDocument)
    case (Some(p), Some(s), Some(i)) =>
      Accepted(map[ProfilePhoto := Attachment(p), SelfieVerification := Attachment(s), IdDocument := Attachment(i)])
    case _ => Rejected(MSG_MISSING)
  }

  class Step3Verification {
    var profilePhoto: Option<File>
    var selfieVerification: Option<File>
    var idDocument: Option<File>
    var error: string

    function SlotFile(slot: Slot): Option<File>
      reads this
    {
      match slot
      case ProfilePhotoSlot => profilePhoto
      case SelfieSlot => selfieVerification
      case IdDocumentSlot => idDocument
    }

    /** The slots start empty whatever the record holds: files are not carried
        back into the form. */
    constructor (data: Record)
      ensures profilePhoto == None && selfieVerification == None && idDocument == None
      ensures error == ""
    {
      profilePhoto, selfieVerification, idDocument := None, None, None;
      error := "";
    }

    /** `handleFileChange` for one input. No file: nothing changes. A refused
        file: its message is shown and every slot is kept. An accepted file: it
        fills its own slot, the others are kept and the message is cleared. */
    method HandleFileChange(slot: Slot, file: Option<File>)
      modifies this
      ensures file.None? ==>
        profilePhoto == old(profilePhoto) && selfieVerification == old(selfieVerification) &&
        idDocument == old(idDocument) && error == old(error)
      ensures file.Some? && ImageFileError(file.value).Some? ==>
        profilePhoto == old(profilePhoto) && selfieVerification == old(selfieVerification) &&
        idDocument == old(idDocument) && error == ImageFileError(file.value).value
      ensures file.Some? && ImageFileError(file.value).None? ==>
        SlotFile(slot) == file && error == "" &&
        forall other: Slot | other != slot :: SlotFile(other) == old(SlotFile(other))
    {
      if file.Some? {
        var refusal := ImageFileError(file.value);
        if refusal.Some? {
          error := refusal.value;
          return;
        }
        match slot {
          case ProfilePhotoSlot => profilePhoto := file;
          case SelfieSlot => selfieVerification := file;
          case IdDocumentSlot => idDocument := file;
        }
        error := "";
      }
    }

    /** The "Eliminar" button of a filled slot: the slot is emptied, the other
        slots and the message are kept, and the step can no longer continue. */
    method ClearSlot(slot: Slot)
      modifies this`profilePhoto, this`selfieVerification, this`idDocument
      ensures SlotFile(slot) == None
      ensures forall other: Slot | other != slot :: SlotFile(other) == old(SlotFile(other))
      ensures VerificationResult(profilePhoto, selfieVerification, idDocument) == Rejected(MSG_MISSING)
    {
      match slot {
        case ProfilePhotoSlot => profilePhoto := None;
        case SelfieSlot => selfieVerification := None;
        case IdDocumentSlot => idDocument := None;
      }
    }

    /** `handleSubmit`, wired to the wizard's `onNext`. */
    method HandleSubmit(wizard: ArtistRegistrationWizard)
      requires wizard.Valid() && wizard.currentStep == 3
      modifies this`error, wizard
      ensures wizard.Valid()
      ensures match VerificationResult(profilePhoto, selfieVerification, idDocument)
        case Rejected(m) =>
          error == m && wizard.formData == old(wizard.formData) && wizard.currentStep == 3
        case Accepted(patch) =>
          error == "" && wizard.formData == Merge(old(wizard.formData), patch) && wizard.currentStep == 4
      ensures old(wizard.Populated()) ==> wizard.Populated()
    {
      error := "";
      var result := VerificationResult(profilePhoto, selfieVerification, idDocument);
      match result
      case Rejected(m) =>
        error := m;
      case Accepted(patch) =>
        wizard.OnNext(patch);
    }
  }
}
