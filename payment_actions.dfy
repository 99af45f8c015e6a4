/** The `submitPaymentProof` server action: read the form data, upload the proof
    of payment, record a payment request awaiting verification, then mark the
    subscription as pending payment without checking the outcome. */
module PaymentActions {

  import opened Types
  import opened EcmaScript
  import opened Backend

  const MSG_UPLOAD_FAILED := "Error al subir comprobante"
  const MSG_PAYMENT_FAILED := "Error al registrar pago"
  const MSG_UNEXPECTED := "Error inesperado al procesar comprobante"
  const CURRENCY := "CLP"
  const PROOF_SLOT := "/payment-proof-"

  /** The names of the form-data entries the action reads. */
  datatype FormKey =
    | ProofKey | SubscriptionIdKey | ArtistIdKey | PlanKey | BillingPeriodKey
    | AmountKey | PaymentMethodKey | PaymentReferenceKey | PaymentDateKey

  function KeyName(k: FormKey): string {
    match k
    case ProofKey => "proof"
    case SubscriptionIdKey => "subscription_id"
    case ArtistIdKey => "artist_id"
    case PlanKey => "plan"
    case BillingPeriodKey => "billing_period"
    case AmountKey => "amount"
    case PaymentMethodKey => "payment_method"
    case PaymentReferenceKey => "payment_reference"
    case PaymentDateKey => "payment_date"
  }

  /** A form-data entry: a file or a text. */
  datatype FormValue = FileEntry(file: File) | TextEntry(text: string)

  /** `FormData`: the appended entries, in order. */
  type FormData = seq<(FormKey, FormValue)>

  /** `formData.get(key)`: the first entry under the key, if any. */
  function FormGet(fd: FormData, key: FormKey): Option<FormValue> {
    if fd == [] then None
    else if fd[0].0 == key then Some(fd[0].1)
    else FormGet(fd[1..], key)
  }

  /** The first entry under a key is the one `get` returns. */
  lemma {:induction false} FormGetFirst(fd: FormData, key: FormKey, k: nat)
    requires k < |fd| && fd[k].0 == key
    requires forall j | 0 <= j < k :: fd[j].0 != key
    ensures FormGet(fd, key) == Some(fd[k].1)
  {
    if k > 0 {
      assert fd[0].0 != key;
      FormGetFirst(fd[1..], key, k - 1);
    }
  }

  /** What the proof form sends: the nine entries of one payment. */
  datatype ProofSubmission = ProofSubmission(
    proof: File, subscriptionId: string, artistId: string, plan: string,
    billingPeriod: string, amount: nat, paymentMethod: string,
    paymentReference: string, paymentDate: string)

  /** The entries the proof form appends, in its order; the amount as `toString` writes it. */
  function BuildFormData(p: ProofSubmission): (fd: FormData)
    ensures |fd| == 9
    ensures forall k | 0 <= k < 9 :: fd[k].0 == [ProofKey, SubscriptionIdKey, ArtistIdKey, PlanKey,
      BillingPeriodKey, AmountKey, PaymentMethodKey, PaymentReferenceKey, PaymentDateKey][k]
  {
    [(ProofKey, FileEntry(p.proof)),
     (SubscriptionIdKey, TextEntry(p.subscriptionId)),
     (ArtistIdKey, TextEntry(p.artistId)),
     (PlanKey, TextEntry(p.plan)),
     (BillingPeriodKey, TextEntry(p.billingPeriod)),
     (AmountKey, TextEntry(NatToDecimal(p.amount))),
     (PaymentMethodKey, TextEntry(p.paymentMethod)),
     (PaymentReferenceKey, TextEntry(p.paymentReference)),
     (PaymentDateKey, TextEntry(p.paymentDate))]
  }

  function TextAt(fd: FormData, key: FormKey): Option<string> {
    match FormGet(fd, key)
    case Some(TextEntry(t)) => Some(t)
    case _ => None
  }

  /** The action's reads of the form data: every entry present with its kind,
      and the amount read by `parseFloat` as a non-negative integer. */
  function ReadFormData(fd: FormData): (read: Option<ProofSubmission>)
    // a missing or mistyped entry leaves nothing to read
    ensures FormGet(fd, ProofKey).None? || FormGet(fd, ProofKey).value.TextEntry? ==> read.None?
    ensures (exists key: FormKey | key != ProofKey :: TextAt(fd, key).None?) ==> read.None?
    // otherwise each field is the entry `get` finds, the amount through `parseFloat`
    ensures read.Some? ==>
      FormGet(fd, ProofKey) == Some(FileEntry(read.value.proof))
      && TextAt(fd, SubscriptionIdKey) == Some(read.value.subscriptionId)
      && TextAt(fd, ArtistIdKey) == Some(read.value.artistId)
      && TextAt(fd, PlanKey) == Some(read.value.plan)
      && TextAt(fd, BillingPeriodKey) == Some(read.value.billingPeriod)
      && TextAt(fd, PaymentMethodKey) == Some(read.value.paymentMethod)
      && TextAt(fd, PaymentReferenceKey) == Some(read.value.paymentReference)
      && TextAt(fd, PaymentDateKey) == Some(read.value.paymentDate)
      && TextAt(fd, AmountKey).Some? && ParseFloatIntegral(TextAt(fd, AmountKey).value) == Some(read.value.amount)
  {
    var proof := FormGet(fd, ProofKey);
    var amount := match TextAt(fd, AmountKey) case Some(t) => ParseFloatIntegral(t) case None => None;
    if proof.Some? && proof.value.FileEntry? && amount.Some? && amount.value >= 0
       && TextAt(fd, SubscriptionIdKey).Some? && TextAt(fd, ArtistIdKey).Some?
       && TextAt(fd, PlanKey).Some? && TextAt(fd, BillingPeriodKey).Some?
       && TextAt(fd, PaymentMethodKey).Some? && TextAt(fd, PaymentReferenceKey).Some?
       && TextAt(fd, PaymentDateKey).Some?
    then
      Some(ProofSubmission(proof.value.file, TextAt(fd, SubscriptionIdKey).value, TextAt(fd, ArtistIdKey).value,
                           TextAt(fd, PlanKey).value, TextAt(fd, BillingPeriodKey).value, amount.value,
                           TextAt(fd, PaymentMethodKey).value, TextAt(fd, PaymentReferenceKey).value,
                           TextAt(fd, PaymentDateKey).value))
    else None
  }

  /** The file and the identifiers of the built form data are what `get` finds. */
  lemma BuiltIdentifiers(p: ProofSubmission)
    ensures FormGet(BuildFormData(p), ProofKey) == Some(FileEntry(p.proof))
    ensures TextAt(BuildFormData(p), SubscriptionIdKey) == Some(p.subscriptionId)
    ensures TextAt(BuildFormData(p), ArtistIdKey) == Some(p.artistId)
  {
    var fd := BuildFormData(p);
    FormGetFirst(fd, ProofKey, 0);
    FormGetFirst(fd, SubscriptionIdKey, 1);
    FormGetFirst(fd, ArtistIdKey, 2);
  }

  /** The plan, period and amount of the built form data are what `get` finds. */
  lemma BuiltPlanEntries(p: ProofSubmission)
    ensures TextAt(BuildFormData(p), PlanKey) == Some(p.plan)
    ensures TextAt(BuildFormData(p), BillingPeriodKey) == Some(p.billingPeriod)
    ensures TextAt(BuildFormData(p), AmountKey) == Some(NatToDecimal(p.amount))
  {
    var fd := BuildFormData(p);
    FormGetFirst(fd, PlanKey, 3);
    FormGetFirst(fd, BillingPeriodKey, 4);
    FormGetFirst(fd, AmountKey, 5);
  }

  /** The payment details of the built form data are what `get` finds. */
  lemma BuiltPaymentEntries(p: ProofSubmission)
    ensures TextAt(BuildFormData(p), PaymentMethodKey) == Some(p.paymentMethod)
    ensures TextAt(BuildFormData(p), PaymentReferenceKey) == Some(p.paymentReference)
    ensures TextAt(BuildFormData(p), PaymentDateKey) == Some(p.paymentDate)
  {
    var fd := BuildFormData(p);
    FormGetFirst(fd, PaymentMethodKey, 6);
    FormGetFirst(fd, PaymentReferenceKey, 7);
    FormGetFirst(fd, PaymentDateKey, 8);
  }

  /** What the form sends, the action reads back: every entry, and the amount
      through its decimal text. */
  lemma FormDataRoundTrip(p: ProofSubmission)
    ensures ReadFormData(BuildFormData(p)) == Some(p)
  {
    BuiltIdentifiers(p);
    BuiltPlanEntries(p);
    BuiltPaymentEntries(p);
    NatToDecimalFloatRoundTrip(p.amount);
  }

  /** What `submitPaymentProof` returns: `{ success: true }` or `{ error }`. */
  datatype PaymentResult = PaymentSubmitted | PaymentFailed(error: string)

  /** The replies the backend gives, in the order the action asks. */
  datatype PaymentReplies = PaymentReplies(
    upload: Call<UploadReply>, paymentInsert: Call<WriteReply>, subscriptionUpdate: Call<WriteReply>)

  /** `${artistId}/payment-proof-${Date.now()}.${ext}`, with the clock reading as a parameter. */
  function ProofPath(artistId: string, now: nat, fileName: string): (path: string)
    ensures path == artistId + PROOF_SLOT + NatToDecimal(now) + "." + FileExtension(fileName)
  {
    UploadPath(artistId + PROOF_SLOT + NatToDecimal(now), fileName)
  }

  /** `paymentReference || null`. */
  function NullIfEmpty(s: string): (r: Option<string>)
    ensures r.None? <==> s == ""
    ensures r.Some? ==> r.value == s
  {
    if s == "" then None else Some(s)
  }

  /** The `payment_requests` row: the submitted texts as they came, the amount in
      CLP, the proof's public URL, the payment date as `paid_at`, and the status
      awaiting verification. */
  function PaymentRow(p: ProofSubmission, publicUrl: string): (row: PaymentRequestRow)
    ensures row.subscriptionId == p.subscriptionId && row.artistId == p.artistId
    ensures row.planType == p.plan && row.billingPeriod == p.billingPeriod && row.paymentMethod == p.paymentMethod
    ensures row.amount == p.amount && row.currency == CURRENCY
    ensures row.proofOfPaymentUrl == publicUrl && row.paidAt == p.paymentDate
    ensures row.paymentReference == NullIfEmpty(p.paymentReference)
    ensures row.status == AwaitingVerification
  {
    PaymentRequestRow(p.subscriptionId, p.artistId, p.plan, p.billingPeriod, p.amount, CURRENCY,
                      p.paymentMethod, publicUrl, NullIfEmpty(p.paymentReference), p.paymentDate,
                      AwaitingVerification)
  }

  /** The stages after the upload, once the proof is stored at `publicUrl`: the
      payment request, then, if it was recorded, the subscription's status. */
  function RecordStages(p: ProofSubmission, publicUrl: string, rp: PaymentReplies): (run: Run<PaymentResult>)
    // the payment request comes first; its failure leaves the subscription untouched
    ensures rp.paymentInsert != Returned(WriteOk) ==>
      run.requests == [InsertPaymentRequest(PaymentRow(p, publicUrl))]
      && run.result == PaymentFailed(if rp.paymentInsert.Threw? then MSG_UNEXPECTED else MSG_PAYMENT_FAILED)
    // the status update of that subscription follows a recorded payment
    ensures rp.paymentInsert == Returned(WriteOk) ==>
      run.requests == [InsertPaymentRequest(PaymentRow(p, publicUrl)),
                       UpdateSubscriptionStatus(p.subscriptionId, PendingPayment)]
    // success whatever the update replied, unless it threw
    ensures run.result == PaymentSubmitted <==> rp.paymentInsert == Returned(WriteOk) && rp.subscriptionUpdate.Returned?
    ensures run.result.PaymentFailed? ==> run.result.error != ""
  {
    var insert := InsertPaymentRequest(PaymentRow(p, publicUrl));
    if rp.paymentInsert.Threw? then Run(PaymentFailed(MSG_UNEXPECTED), [insert])
    else if rp.paymentInsert.reply.WriteFailed? then Run(PaymentFailed(MSG_PAYMENT_FAILED), [insert])
    else
      var all := [insert, UpdateSubscriptionStatus(p.subscriptionId, PendingPayment)];
      if rp.subscriptionUpdate.Threw? then Run(PaymentFailed(MSG_UNEXPECTED), all)
      else Run(PaymentSubmitted, all)
  }

  /** The stages of `submitPaymentProof` once the form data is read: the upload,
      then, if it succeeded, the recording stages. */
  function ProofStages(p: ProofSubmission, now: nat, rp: PaymentReplies): (run: Run<PaymentResult>)
    // the proof is uploaded first, to the documents bucket
    ensures run.requests != []
      && run.requests[0] == UploadObject(DOCUMENTS_BUCKET, ProofPath(p.artistId, now, p.proof.name), p.proof)
    // a failed upload ends the action before any database write
    ensures !(rp.upload.Returned? && rp.upload.reply.Uploaded?) ==>
      |run.requests| == 1 && run.result == PaymentFailed(if rp.upload.Threw? then MSG_UNEXPECTED else MSG_UPLOAD_FAILED)
    // a stored proof is followed by the recording stages, with its public URL
    ensures rp.upload.Returned? && rp.upload.reply.Uploaded? ==>
      var rest := RecordStages(p, rp.upload.reply.publicUrl, rp);
      run == Run(rest.result, run.requests[..1] + rest.requests)
    ensures run.result.PaymentFailed? ==> run.result.error != ""
  {
    var upload := UploadObject(DOCUMENTS_BUCKET, ProofPath(p.artistId, now, p.proof.name), p.proof);
    if rp.upload.Threw? then Run(PaymentFailed(MSG_UNEXPECTED), [upload])
    else if rp.upload.reply.UploadFailed? then Run(PaymentFailed(MSG_UPLOAD_FAILED), [upload])
    else
      var rest := RecordStages(p, rp.upload.reply.publicUrl, rp);
      assert ([upload] + rest.requests)[..1] == [upload];
      Run(rest.result, [upload] + rest.requests)
  }

  /** The whole order once the proof is stored: upload, payment request, and the
      status update only after a recorded payment; success exactly when the
      payment was recorded and the update did not throw. */
  lemma ProofStagesOrder(p: ProofSubmission, now: nat, rp: PaymentReplies)
    requires rp.upload.Returned? && rp.upload.reply.Uploaded?
    ensures var run := ProofStages(p, now, rp);
      |run.requests| >= 2 && run.requests[1] == InsertPaymentRequest(PaymentRow(p, rp.upload.reply.publicUrl))
      && (rp.paymentInsert != Returned(WriteOk) ==> |run.requests| == 2)
      && (rp.paymentInsert == Returned(WriteOk) ==>
            |run.requests| == 3 && run.requests[2] == UpdateSubscriptionStatus(p.subscriptionId, PendingPayment))
      && (run.result == PaymentSubmitted <==> rp.paymentInsert == Returned(WriteOk) && rp.subscriptionUpdate.Returned?)
  {
    var run := ProofStages(p, now, rp);
    var rest := RecordStages(p, rp.upload.reply.publicUrl, rp);
    assert run.requests == run.requests[..1] + rest.requests;
    assert run.requests[1] == rest.requests[0];
    if rp.paymentInsert == Returned(WriteOk) {
      assert run.requests[2] == rest.requests[1];
    }
  }

  /** `submitPaymentProof(formData)` at clock reading `now`: form data the action
      cannot read fails before any request; readable form data runs the stages. */
  function SubmitPaymentProofRun(fd: FormData, now: nat, rp: PaymentReplies): (run: Run<PaymentResult>)
    ensures ReadFormData(fd).None? ==> run == Run(PaymentFailed(MSG_UNEXPECTED), [])
    ensures ReadFormData(fd).Some? ==> run == ProofStages(ReadFormData(fd).value, now, rp)
  {
    match ReadFormData(fd)
    case None => Run(PaymentFailed(MSG_UNEXPECTED), [])
    case Some(p) => ProofStages(p, now, rp)
  }

  /** Nothing `submitPaymentProof` issues undoes anything: a failed payment
      request leaves the uploaded proof in place. */
  lemma PaymentNeverRollsBack(fd: FormData, now: nat, rp: PaymentReplies)
    ensures NoUndo(SubmitPaymentProofRun(fd, now, rp).requests)
  {
    var read := ReadFormData(fd);
    if read.Some? {
      ProofStagesNeverRollBack(read.value, now, rp);
    }
  }

  lemma ProofStagesNeverRollBack(p: ProofSubmission, now: nat, rp: PaymentReplies)
    ensures NoUndo(ProofStages(p, now, rp).requests)
  {
    var run := ProofStages(p, now, rp);
    if rp.upload.Returned? && rp.upload.reply.Uploaded? {
      var rest := RecordStages(p, rp.upload.reply.publicUrl, rp);
      assert run.requests == run.requests[..1] + rest.requests;
      forall k | 0 <= k < |run.requests|
        ensures !IsUndo(run.requests[k])
      {
        if k > 0 {
          assert run.requests[k] == rest.requests[k - 1];
        }
      }
    }
  }

  /** For what the proof form sends, the upload keeps the file's extension and
      the payment request records exactly the submitted payment. */
  lemma SubmittedPaymentIsRecorded(p: ProofSubmission, now: nat, rp: PaymentReplies, stem: string, ext: string)
    requires p.proof.name == stem + "." + ext && '.' !in ext
    requires rp.upload.Returned? && rp.upload.reply.Uploaded?
    ensures var run := SubmitPaymentProofRun(BuildFormData(p), now, rp);
      |run.requests| >= 2
      && run.requests[0] == UploadObject(DOCUMENTS_BUCKET, p.artistId + PROOF_SLOT + NatToDecimal(now) + "." + ext, p.proof)
      && run.requests[1] == InsertPaymentRequest(PaymentRow(p, rp.upload.reply.publicUrl))
  {
    FormDataRoundTrip(p);
    ExtensionAfterLastDot(stem, ext);
    ProofStagesOrder(p, now, rp);
  }

  /** `submitPaymentProof`, one stage at a time against the client. */
  method SubmitPaymentProof(client: Client, fd: FormData, now: nat, rp: PaymentReplies)
    returns (result: PaymentResult)
    modifies client
    ensures result == SubmitPaymentProofRun(fd, now, rp).result
    ensures client.log == old(client.log) + SubmitPaymentProofRun(fd, now, rp).requests
  {
    var read := ReadFormData(fd);
    if read.None? {
      return PaymentFailed(MSG_UNEXPECTED);
    }
    result := UploadProof(client, read.value, now, rp);
  }

  /** The upload of the proof, then the recording stages, against the client. */
  method UploadProof(client: Client, p: ProofSubmission, now: nat, rp: PaymentReplies)
    returns (result: PaymentResult)
    modifies client
    ensures result == ProofStages(p, now, rp).result
    ensures client.log == old(client.log) + ProofStages(p, now, rp).requests
  {
    // 1. the proof, under a path stamped with the clock reading
    var upload := UploadObject(DOCUMENTS_BUCKET, ProofPath(p.artistId, now, p.proof.name), p.proof);
    client.Send(upload);
    if rp.upload.Threw? {
      return PaymentFailed(MSG_UNEXPECTED);
    }
    if rp.upload.reply.UploadFailed? {
      return PaymentFailed(MSG_UPLOAD_FAILED);
    }
    // 2. the public URL of the proof
    var publicUrl := rp.upload.reply.publicUrl;
    ghost var uploaded := client.log;
    result := RecordPayment(client, p, publicUrl, rp);
    ghost var rest := RecordStages(p, publicUrl, rp);
    assert client.log == old(client.log) + [upload] + rest.requests;
    AppendAssociative(old(client.log), [upload], rest.requests);
  }

  /** The payment request and the subscription update, against the client. */
  method RecordPayment(client: Client, p: ProofSubmission, publicUrl: string, rp: PaymentReplies)
    returns (result: PaymentResult)
    modifies client
    ensures result == RecordStages(p, publicUrl, rp).result
    ensures client.log == old(client.log) + RecordStages(p, publicUrl, rp).requests
  {
    // 3. the payment request
    var insert := InsertPaymentRequest(PaymentRow(p, publicUrl));
    client.Send(insert);
    if rp.paymentInsert.Threw? {
      return PaymentFailed(MSG_UNEXPECTED);
    }
    if rp.paymentInsert.reply.WriteFailed? {
      return PaymentFailed(MSG_PAYMENT_FAILED);
    }
    // 4. the subscription status; its reply is not looked at
    client.Send(UpdateSubscriptionStatus(p.subscriptionId, PendingPayment));
    assert client.log == old(client.log) + [insert, UpdateSubscriptionStatus(p.subscriptionId, PendingPayment)];
    if rp.subscriptionUpdate.Threw? {
      return PaymentFailed(MSG_UNEXPECTED);
    }
    return PaymentSubmitted;
  }
}
