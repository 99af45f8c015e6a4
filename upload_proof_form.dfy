/** The proof-of-payment form: the selected proof goes through the image gate,
    the submit handler requires a proof and a date, builds the form data and
    dispatches `submitPaymentProof`. */
module UploadProofForm {

  import opened Types
  import opened ImageFiles
  import opened Backend
  import opened PaymentActions

  const MSG_NO_PROOF := "Debes subir un comprobante"
  const MSG_NO_DATE := "Debes indicar la fecha del pago"
  const PENDING_VERIFICATION_ROUTE := "/register-artist/pending-verification"

  /** The handler's own guards: the message of the first one that fails, if any. */
  function LocalRejection(proof: Option<File>, paymentDate: string): (e: Option<string>)
    ensures e == Some(MSG_NO_PROOF) <==> proof.None?
    ensures e == Some(MSG_NO_DATE) <==> proof.Some? && paymentDate == ""
    ensures e.None? <==> proof.Some? && paymentDate != ""
  {
    if proof.None? then Some(MSG_NO_PROOF)
    else if paymentDate == "" then Some(MSG_NO_DATE)
    else None
  }

  /** `disabled={loading || !proofImage || !paymentDate}`. */
  predicate SubmitDisabled(loading: bool, proof: Option<File>, paymentDate: string) {
    loading || proof.None? || paymentDate == ""
  }

  /** The button is enabled exactly when nothing is in flight and the handler's
      own guards would pass, so an enabled button never shows a local message. */
  lemma EnabledIffGuardsPass(loading: bool, proof: Option<File>, paymentDate: string)
    ensures !SubmitDisabled(loading, proof, paymentDate) <==> !loading && LocalRejection(proof, paymentDate).None?
  {
  }

  /** Every message `submitPaymentProof` returns is non-empty, so the form's
      truthiness test on `result.error` sees every failure. */
  lemma PaymentErrorsAreShown(fd: FormData, now: nat, rp: PaymentReplies)
    ensures SubmitPaymentProofRun(fd, now, rp).result.PaymentFailed? ==>
      SubmitPaymentProofRun(fd, now, rp).result.error != ""
  {
    assert |MSG_UNEXPECTED| > 0;
  }

  class UploadProofForm {
    const subscriptionId: string
    const artistId: string
    const plan: string
    const billingPeriod: string
    const amount: nat
    const paymentMethod: PaymentMethod
    var proofImage: Option<File>
    var paymentReference: string
    var paymentDate: string
    var loading: bool
    var error: string

    /** The payment comes from the page; the form starts empty. */
    constructor (subscriptionId: string, artistId: string, plan: string, billingPeriod: string,
                 amount: nat, paymentMethod: PaymentMethod)
      ensures this.subscriptionId == subscriptionId && this.artistId == artistId
      ensures this.plan == plan && this.billingPeriod == billingPeriod
      ensures this.amount == amount && this.paymentMethod == paymentMethod
      ensures proofImage == None && paymentReference == "" && paymentDate == ""
      ensures !loading && error == ""
    {
      this.subscriptionId := subscriptionId;
      this.artistId := artistId;
      this.plan := plan;
      this.billingPeriod := billingPeriod;
      this.amount := amount;
      this.paymentMethod := paymentMethod;
      proofImage := None;
      paymentReference := "";
      paymentDate := "";
      loading := false;
      error := "";
    }

    /** The payment the form submits once a proof is selected. */
    function Submission(proof: File): (p: ProofSubmission)
      reads this
      ensures p.proof == proof && p.amount == amount && p.paymentDate == paymentDate
      ensures p.paymentMethod == MethodName(paymentMethod) && p.paymentReference == paymentReference
    {
      ProofSubmission(proof, subscriptionId, artistId, plan, billingPeriod, amount,
                      MethodName(paymentMethod), paymentReference, paymentDate)
    }

    /** `handleFileChange`. No file: nothing changes. A refused file: its message
        is shown and the selected proof is kept. An accepted file becomes the
        proof and the message is cleared. */
    method HandleFileChange(file: Option<File>)
      modifies this`proofImage, this`error
      ensures file.None? ==> proofImage == old(proofImage) && error == old(error)
      ensures file.Some? && ImageFileError(file.value).Some? ==>
        proofImage == old(proofImage) && error == ImageFileError(file.value).value
      ensures file.Some? && ImageFileError(file.value).None? ==> proofImage == file && error == ""
    {
      if file.Some? {
        var refusal := ImageFileError(file.value);
        if refusal.Some? {
          error := refusal.value;
          return;
        }
        proofImage := file;
        error := "";
      }
    }

    /** The "Eliminar" button of a selected proof: the proof is dropped, the
        message is kept, and the submit button is disabled again. */
    method RemoveProof()
      modifies this`proofImage
      ensures proofImage == None
      ensures LocalRejection(proofImage, paymentDate) == Some(MSG_NO_PROOF)
      ensures SubmitDisabled(loading, proofImage, paymentDate)
    {
      proofImage := None;
    }

    /** The reference input. */
    method SetPaymentReference(text: string)
      modifies this`paymentReference
      ensures paymentReference == text
    {
      paymentReference := text;
    }

    /** The date input. */
    method SetPaymentDate(text: string)
      modifies this`paymentDate
      ensures paymentDate == text
    {
      paymentDate := text;
    }

    /** `handleSubmit` at clock reading `now`. A local rejection shows its
        message, ends loading and sends nothing. Otherwise the nine entries go
        to `submitPaymentProof`; an error is shown and ends loading, success
        goes to the pending-verification page with loading still on. */
    method HandleSubmit(client: Client, now: nat, rp: PaymentReplies) returns (nav: Navigation)
      modifies this`loading, this`error, client
      ensures LocalRejection(proofImage, paymentDate).Some? ==>
        error == LocalRejection(proofImage, paymentDate).value && !loading && nav == Stay
        && client.log == old(client.log)
      ensures LocalRejection(proofImage, paymentDate).None? ==>
        var run := SubmitPaymentProofRun(BuildFormData(Submission(proofImage.value)), now, rp);
        client.log == old(client.log) + run.requests
        && (run.result.PaymentFailed? ==> error == run.result.error && !loading && nav == Stay)
        && (run.result.PaymentSubmitted? ==> error == "" && loading && nav == NavigateTo(PENDING_VERIFICATION_ROUTE))
    {
      loading := true;
      error := "";
      if proofImage.None? {
        error := MSG_NO_PROOF;
        loading := false;
        return Stay;
      }
      if paymentDate == "" {
        error := MSG_NO_DATE;
        loading := false;
        return Stay;
      }
      var formData := BuildFormData(Submission(proofImage.value));
      var result := SubmitPaymentProof(client, formData, now, rp);
      PaymentErrorsAreShown(formData, now, rp);
      if result.PaymentFailed? && result.error != "" {
        error := result.error;
        loading := false;
        nav := Stay;
      } else {
        nav := NavigateTo(PENDING_VERIFICATION_ROUTE);
      }
    }
  }
}
