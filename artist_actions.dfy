/** The `registerArtist` server action: create the credential, then the `users`
    row, upload the three documents, insert the artist profile and the pending
    subscription. Each database stage runs only when the previous one
    succeeded, and no stage undoes an earlier one. */
module ArtistActions {

  import opened Types
  import opened Registration
  import opened Backend

  const MSG_CREATE_USER := "Error al crear usuario"
  const MSG_CREATE_PROFILE := "Error al crear perfil de artista"
  const MSG_CREATE_SUBSCRIPTION := "Error al crear suscripción"
  const MSG_UNEXPECTED := "Error inesperado durante el registro"

  const PROFILE_PHOTO_SLOT := "/profile-photo"
  const SELFIE_SLOT := "/selfie-verification"
  const ID_DOCUMENT_SLOT := "/id-document"

  /** What `registerArtist` returns: `{ artistId }` or `{ error }`. */
  datatype RegisterResult = Registered(artistId: string) | RegisterFailed(error: string)

  /** The replies the backend gives, in the order the action asks. An upload
      that throws is caught inside the upload helper, so it is a failed upload. */
  datatype RegisterReplies = RegisterReplies(
    signUp: Call<AuthReply>, userInsert: Call<WriteReply>,
    profilePhotoUpload: UploadReply, selfieUpload: UploadReply, idDocumentUpload: UploadReply,
    profileInsert: Call<WriteReply>, subscriptionInsert: Call<WriteReply>)

  /** `value || null` for an optional text: the empty text is stored as null. */
  function OrNull(s: Option<string>): (r: Option<string>)
    ensures r.Some? <==> s.Some? && s.value != ""
    ensures r.Some? ==> r == s
  {
    if s.Some? && s.value != "" then s else None
  }

  /** The upload a present file triggers under `base`; an absent file triggers none. */
  function UploadRequests(file: Option<File>, base: string): (rs: seq<Request>)
    ensures file.None? ==> rs == []
    ensures file.Some? ==> rs == [UploadObject(DOCUMENTS_BUCKET, UploadPath(base, file.value.name), file.value)]
  {
    match file
    case None => []
    case Some(f) => [UploadObject(DOCUMENTS_BUCKET, UploadPath(base, f.name), f)]
  }

  /** The URL stored for a document: the public URL when the file was present and
      its upload succeeded, null otherwise. */
  function StoredUrl(file: Option<File>, reply: UploadReply): (url: Option<string>)
    ensures url.Some? <==> file.Some? && reply.Uploaded?
    ensures url.Some? ==> url.value == reply.publicUrl
  {
    if file.Some? && reply.Uploaded? then Some(reply.publicUrl) else None
  }

  /** The `artist_profiles` row: keyed by the new user, pending review, with the
      location nested and empty contact fields stored as null. */
  function ProfileRow(userId: string, d: ArtistRegistrationData,
                      photoUrl: Option<string>, selfieUrl: Option<string>, idUrl: Option<string>)
    : (p: ArtistProfileRow)
    ensures p.id == userId && p.status == ProfilePending && p.plan == d.selectedPlan
    ensures p.fullName == d.fullName && p.displayName == d.displayName && p.age == d.age
    ensures p.nationality == d.nationality && p.bio == d.bio
    ensures p.location == Location(d.country, d.city)
    ensures p.whatsapp == OrNull(d.whatsapp) && p.websiteUrl == OrNull(d.websiteUrl)
    ensures p.profilePhotoUrl == photoUrl && p.verificationSelfieUrl == selfieUrl && p.idDocumentUrl == idUrl
  {
    ArtistProfileRow(userId, ProfilePending, d.selectedPlan, d.fullName, d.displayName, d.age,
                     d.nationality, Location(d.country, d.city), d.bio,
                     OrNull(d.whatsapp), OrNull(d.websiteUrl), photoUrl, selfieUrl, idUrl)
  }

  /** The profile row for the replies given. */
  function ProfileRowFor(userId: string, d: ArtistRegistrationData, rp: RegisterReplies): ArtistProfileRow {
    ProfileRow(userId, d,
               StoredUrl(d.profilePhoto, rp.profilePhotoUpload),
               StoredUrl(d.selfieVerification, rp.selfieUpload),
               StoredUrl(d.idDocument, rp.idDocumentUpload))
  }

  /** The three uploads, in the order the action issues them. */
  function DocumentUploads(userId: string, d: ArtistRegistrationData): (rs: seq<Request>)
    ensures |rs| <= 3
    ensures forall r | r in rs :: r.UploadObject? && r.bucket == DOCUMENTS_BUCKET
  {
    var photo := UploadRequests(d.profilePhoto, userId + PROFILE_PHOTO_SLOT);
    var selfie := UploadRequests(d.selfieVerification, userId + SELFIE_SLOT);
    var id := UploadRequests(d.idDocument, userId + ID_DOCUMENT_SLOT);
    InDocumentUploads(photo, selfie, id);
    photo + selfie + id
  }

  /** Every request of three upload lists lies in one of them. */
  lemma InDocumentUploads(a: seq<Request>, b: seq<Request>, c: seq<Request>)
    requires forall r | r in a :: r.UploadObject? && r.bucket == DOCUMENTS_BUCKET
    requires forall r | r in b :: r.UploadObject? && r.bucket == DOCUMENTS_BUCKET
    requires forall r | r in c :: r.UploadObject? && r.bucket == DOCUMENTS_BUCKET
    ensures forall r | r in a + b + c :: r.UploadObject? && r.bucket == DOCUMENTS_BUCKET
  {
  }

  /** Every stage the backend accepted. */
  predicate AllStagesSucceed(rp: RegisterReplies) {
    rp.signUp.Returned? && rp.signUp.reply.Created?
    && rp.userInsert == Returned(WriteOk)
    && rp.profileInsert == Returned(WriteOk)
    && rp.subscriptionInsert == Returned(WriteOk)
  }

  /** The pending subscription of a new artist. */
  function PendingSubscription(userId: string, d: ArtistRegistrationData): SubscriptionRow {
    SubscriptionRow(userId, d.selectedPlan, d.billingPeriod, PendingPayment)
  }

  /** Stages 4 and 5, once the documents are handled: the profile insert and,
      if that succeeded, the subscription insert. */
  function SaveStages(userId: string, profile: ArtistProfileRow, subscription: SubscriptionRow,
                      rp: RegisterReplies): (run: Run<RegisterResult>)
    // a failed profile insert stops before the subscription
    ensures rp.profileInsert != Returned(WriteOk) ==>
      run.requests == [InsertArtistProfile(profile)]
      && run.result == RegisterFailed(if rp.profileInsert.Threw? then MSG_UNEXPECTED else MSG_CREATE_PROFILE)
    ensures rp.profileInsert == Returned(WriteOk) ==>
      run.requests == [InsertArtistProfile(profile), InsertSubscription(subscription)]
    ensures rp.profileInsert == Returned(WriteOk) && rp.subscriptionInsert != Returned(WriteOk) ==>
      run.result == RegisterFailed(if rp.subscriptionInsert.Threw? then MSG_UNEXPECTED else MSG_CREATE_SUBSCRIPTION)
    ensures run.result.Registered? <==> rp.profileInsert == Returned(WriteOk) && rp.subscriptionInsert == Returned(WriteOk)
    ensures run.result.Registered? ==> run.result.artistId == userId
  {
    var profileRequests := [InsertArtistProfile(profile)];
    if rp.profileInsert.Threw? then Run(RegisterFailed(MSG_UNEXPECTED), profileRequests)
    else if rp.profileInsert.reply.WriteFailed? then Run(RegisterFailed(MSG_CREATE_PROFILE), profileRequests)
    else
      var all := profileRequests + [InsertSubscription(subscription)];
      if rp.subscriptionInsert.Threw? then Run(RegisterFailed(MSG_UNEXPECTED), all)
      else if rp.subscriptionInsert.reply.WriteFailed? then Run(RegisterFailed(MSG_CREATE_SUBSCRIPTION), all)
      else Run(Registered(userId), all)
  }

  /** Stages 4 and 5 for the new user: the profile row built from the data and
      the upload replies, and the pending subscription. */
  function SaveStagesFor(userId: string, d: ArtistRegistrationData, rp: RegisterReplies): Run<RegisterResult> {
    SaveStages(userId, ProfileRowFor(userId, d, rp), PendingSubscription(userId, d), rp)
  }

  /** Stages 2 to 5, once the credential gave a user: the users row and, if it
      succeeded, the documents, the profile and the subscription. */
  function UserStages(userId: string, d: ArtistRegistrationData, rp: RegisterReplies): (run: Run<RegisterResult>)
    ensures run.requests != [] && run.requests[0] == InsertUser(UserRow(userId, d.email, Artist))
    // a failed users row stops everything
    ensures rp.userInsert != Returned(WriteOk) ==>
      run == Run(RegisterFailed(if rp.userInsert.Threw? then MSG_UNEXPECTED else MSG_CREATE_USER),
                 [InsertUser(UserRow(userId, d.email, Artist))])
    // otherwise the uploads, then the profile and subscription stages
    ensures rp.userInsert == Returned(WriteOk) ==>
      var save := SaveStagesFor(userId, d, rp);
      run == Run(save.result, [InsertUser(UserRow(userId, d.email, Artist))] + DocumentUploads(userId, d) + save.requests)
    ensures run.result.Registered? <==>
      rp.userInsert == Returned(WriteOk) && rp.profileInsert == Returned(WriteOk) && rp.subscriptionInsert == Returned(WriteOk)
    ensures run.result.Registered? ==> run.result.artistId == userId
  {
    var user := InsertUser(UserRow(userId, d.email, Artist));
    if rp.userInsert.Threw? then Run(RegisterFailed(MSG_UNEXPECTED), [user])
    else if rp.userInsert.reply.WriteFailed? then Run(RegisterFailed(MSG_CREATE_USER), [user])
    else
      var save := SaveStagesFor(userId, d, rp);
      Run(save.result, [user] + DocumentUploads(userId, d) + save.requests)
  }

  /** `registerArtist(data)`: the result and the requests issued. */
  function RegisterArtistRun(d: ArtistRegistrationData, rp: RegisterReplies): (run: Run<RegisterResult>)
    // the credential is always requested first, with the artist role
    ensures run.requests != [] && run.requests[0] == CreateCredential(d.email, d.password, Artist)
    // success exactly when every stage succeeded, with the new user's id
    ensures run.result.Registered? <==> AllStagesSucceed(rp)
    ensures run.result.Registered? ==> run.result.artistId == rp.signUp.reply.userId
    // a credential failure stops everything
    ensures rp.signUp == Threw ==>
      run == Run(RegisterFailed(MSG_UNEXPECTED), [CreateCredential(d.email, d.password, Artist)])
    ensures rp.signUp.Returned? && rp.signUp.reply.AuthFailed? ==>
      run == Run(RegisterFailed(rp.signUp.reply.message), [CreateCredential(d.email, d.password, Artist)])
    ensures rp.signUp == Returned(NoUser) ==>
      run == Run(RegisterFailed(MSG_CREATE_USER), [CreateCredential(d.email, d.password, Artist)])
    // with a user, the remaining stages follow the credential
    ensures rp.signUp.Returned? && rp.signUp.reply.Created? ==>
      var rest := UserStages(rp.signUp.reply.userId, d, rp);
      run == Run(rest.result, [CreateCredential(d.email, d.password, Artist)] + rest.requests)
  {
    var credential := CreateCredential(d.email, d.password, Artist);
    if rp.signUp.Threw? then Run(RegisterFailed(MSG_UNEXPECTED), [credential])
    else
      match rp.signUp.reply
      case AuthFailed(message) => Run(RegisterFailed(message), [credential])
      case NoUser => Run(RegisterFailed(MSG_CREATE_USER), [credential])
      case Created(userId) =>
        var rest := UserStages(userId, d, rp);
        Run(rest.result, [credential] + rest.requests)
  }

  /** With a user, the users row comes second; its failure stops everything. */
  lemma UsersRowSecond(d: ArtistRegistrationData, rp: RegisterReplies)
    requires rp.signUp.Returned? && rp.signUp.reply.Created?
    ensures |RegisterArtistRun(d, rp).requests| >= 2
    ensures RegisterArtistRun(d, rp).requests[1] == InsertUser(UserRow(rp.signUp.reply.userId, d.email, Artist))
    ensures rp.userInsert != Returned(WriteOk) ==>
      |RegisterArtistRun(d, rp).requests| == 2
      && RegisterArtistRun(d, rp).result == RegisterFailed(if rp.userInsert.Threw? then MSG_UNEXPECTED else MSG_CREATE_USER)
  {
    var rest := UserStages(rp.signUp.reply.userId, d, rp);
    assert ([CreateCredential(d.email, d.password, Artist)] + rest.requests)[1] == rest.requests[0];
  }

  /** Uploads undo nothing. */
  lemma UploadsUndoNothing(rs: seq<Request>)
    requires forall r | r in rs :: r.UploadObject?
    ensures NoUndo(rs)
  {
    forall k | 0 <= k < |rs|
      ensures !IsUndo(rs[k])
    {
      assert rs[k] in rs;
    }
  }

  /** No stage after the credential undoes anything. */
  lemma UserStagesNeverRollBack(userId: string, d: ArtistRegistrationData, rp: RegisterReplies)
    ensures NoUndo(UserStages(userId, d, rp).requests)
  {
    if rp.userInsert == Returned(WriteOk) {
      var users := [InsertUser(UserRow(userId, d.email, Artist))];
      var uploads := DocumentUploads(userId, d);
      var save := SaveStagesFor(userId, d, rp);
      UploadsUndoNothing(uploads);
      NoUndoConcat(users, uploads);
      assert NoUndo(save.requests) by {
        assert save.requests[0].InsertArtistProfile?;
        assert forall k | 1 <= k < |save.requests| :: save.requests[k].InsertSubscription?;
      }
      NoUndoConcat(users + uploads, save.requests);
    }
  }

  /** Nothing `registerArtist` issues undoes anything: a failure at any stage
      leaves the earlier credential, rows and uploads in place. */
  lemma RegisterNeverRollsBack(d: ArtistRegistrationData, rp: RegisterReplies)
    ensures NoUndo(RegisterArtistRun(d, rp).requests)
  {
    if rp.signUp.Returned? && rp.signUp.reply.Created? {
      var rest := UserStages(rp.signUp.reply.userId, d, rp);
      UserStagesNeverRollBack(rp.signUp.reply.userId, d, rp);
      NoUndoConcat([CreateCredential(d.email, d.password, Artist)], rest.requests);
    }
  }

  /** After the credential, any profile insert follows a users row that
      succeeded and carries the row built from the data and the upload replies;
      any subscription insert follows a profile insert that succeeded and is
      the pending subscription. */
  lemma UserStagesWriteExpectedRows(userId: string, d: ArtistRegistrationData, rp: RegisterReplies)
    ensures forall r | r in UserStages(userId, d, rp).requests && r.InsertArtistProfile? ::
      rp.userInsert == Returned(WriteOk) && r.profile == ProfileRowFor(userId, d, rp)
    ensures forall r | r in UserStages(userId, d, rp).requests && r.InsertSubscription? ::
      rp.userInsert == Returned(WriteOk) && rp.profileInsert == Returned(WriteOk)
      && r.subscription == PendingSubscription(userId, d)
  {
    var run := UserStages(userId, d, rp);
    if rp.userInsert == Returned(WriteOk) {
      var uploads := DocumentUploads(userId, d);
      var save := SaveStagesFor(userId, d, rp);
      forall r | r in run.requests
        ensures r.InsertArtistProfile? ==> r.profile == ProfileRowFor(userId, d, rp)
        ensures r.InsertSubscription? ==>
          rp.profileInsert == Returned(WriteOk) && r.subscription == PendingSubscription(userId, d)
      {
        InOneOfThree(r, [InsertUser(UserRow(userId, d.email, Artist))], uploads, save.requests);
      }
    }
  }

  /** Any profile insert carries the row built from the data and the upload
      replies, and any subscription insert comes after a profile insert that
      succeeded and is the pending subscription of the new user. */
  lemma RegisterWritesExpectedRows(d: ArtistRegistrationData, rp: RegisterReplies)
    ensures forall r | r in RegisterArtistRun(d, rp).requests && r.InsertArtistProfile? ::
      rp.signUp.Returned? && rp.signUp.reply.Created? && rp.userInsert == Returned(WriteOk)
      && r.profile == ProfileRowFor(rp.signUp.reply.userId, d, rp)
    ensures forall r | r in RegisterArtistRun(d, rp).requests && r.InsertSubscription? ::
      rp.signUp.Returned? && rp.signUp.reply.Created? && rp.userInsert == Returned(WriteOk)
      && rp.profileInsert == Returned(WriteOk)
      && r.subscription == PendingSubscription(rp.signUp.reply.userId, d)
  {
    if rp.signUp.Returned? && rp.signUp.reply.Created? {
      UserStagesWriteExpectedRows(rp.signUp.reply.userId, d, rp);
    }
  }

  /** Once the users row exists, each present document is uploaded under
      `<userId>/<slot>.<extension>`, whether or not its upload then succeeds. */
  lemma PresentDocumentsAreUploaded(d: ArtistRegistrationData, rp: RegisterReplies)
    requires rp.signUp.Returned? && rp.signUp.reply.Created? && rp.userInsert == Returned(WriteOk)
    ensures forall f | d.profilePhoto == Some(f) ::
      UploadObject(DOCUMENTS_BUCKET, rp.signUp.reply.userId + PROFILE_PHOTO_SLOT + "." + FileExtension(f.name), f)
        in RegisterArtistRun(d, rp).requests
    ensures forall f | d.selfieVerification == Some(f) ::
      UploadObject(DOCUMENTS_BUCKET, rp.signUp.reply.userId + SELFIE_SLOT + "." + FileExtension(f.name), f)
        in RegisterArtistRun(d, rp).requests
    ensures forall f | d.idDocument == Some(f) ::
      UploadObject(DOCUMENTS_BUCKET, rp.signUp.reply.userId + ID_DOCUMENT_SLOT + "." + FileExtension(f.name), f)
        in RegisterArtistRun(d, rp).requests
  {
    var userId := rp.signUp.reply.userId;
    var rest := UserStages(userId, d, rp);
    var uploads := DocumentUploads(userId, d);
    forall r | r in uploads
      ensures r in RegisterArtistRun(d, rp).requests
    {
      assert r in rest.requests;
    }
  }

  /** A missing document is never uploaded, and the profile then stores three
      null URLs. */
  lemma AbsentDocumentIsNotUploaded(d: ArtistRegistrationData, rp: RegisterReplies)
    requires d.profilePhoto.None? && d.selfieVerification.None? && d.idDocument.None?
    ensures forall r | r in RegisterArtistRun(d, rp).requests :: !r.UploadObject?
    ensures rp.signUp.Returned? && rp.signUp.reply.Created? && rp.userInsert == Returned(WriteOk) ==>
      forall r | r in RegisterArtistRun(d, rp).requests && r.InsertArtistProfile? ::
        r.profile.profilePhotoUrl.None? && r.profile.verificationSelfieUrl.None? && r.profile.idDocumentUrl.None?
  {
    if rp.signUp.Returned? && rp.signUp.reply.Created? {
      var userId := rp.signUp.reply.userId;
      assert DocumentUploads(userId, d) == [];
      UserStagesWriteExpectedRows(userId, d, rp);
    }
  }

  /** The three documents of one user go to three distinct paths, whatever their
      extensions, so none overwrites another. */
  lemma DocumentPathsDistinct(userId: string, e1: string, e2: string, e3: string)
    ensures userId + PROFILE_PHOTO_SLOT + "." + e1 != userId + SELFIE_SLOT + "." + e2
    ensures userId + PROFILE_PHOTO_SLOT + "." + e1 != userId + ID_DOCUMENT_SLOT + "." + e3
    ensures userId + SELFIE_SLOT + "." + e2 != userId + ID_DOCUMENT_SLOT + "." + e3
  {
    var n := |userId|;
    assert (userId + PROFILE_PHOTO_SLOT + "." + e1)[n + 1] == 'p';
    assert (userId + SELFIE_SLOT + "." + e2)[n + 1] == 's';
    assert (userId + ID_DOCUMENT_SLOT + "." + e3)[n + 1] == 'i';
  }

  /** `registerArtist`, one stage at a time against the client. */
  method RegisterArtist(client: Client, d: ArtistRegistrationData, rp: RegisterReplies)
    returns (result: RegisterResult)
    modifies client
    ensures result == RegisterArtistRun(d, rp).result
    ensures client.log == old(client.log) + RegisterArtistRun(d, rp).requests
  {
    // 1. the credential, with the artist role
    client.Send(CreateCredential(d.email, d.password, Artist));
    if rp.signUp.Threw? {
      return RegisterFailed(MSG_UNEXPECTED);
    }
    match rp.signUp.reply {
      case AuthFailed(message) =>
        return RegisterFailed(message);
      case NoUser =>
        return RegisterFailed(MSG_CREATE_USER);
      case Created(userId) =>
        result := CreateUser(client, userId, d, rp);
        AppendAssociative(old(client.log), [CreateCredential(d.email, d.password, Artist)],
                          UserStages(userId, d, rp).requests);
    }
  }

  /** Stages 2 to 5 of `registerArtist`, against the client. */
  method CreateUser(client: Client, userId: string, d: ArtistRegistrationData, rp: RegisterReplies)
    returns (result: RegisterResult)
    modifies client
    ensures result == UserStages(userId, d, rp).result
    ensures client.log == old(client.log) + UserStages(userId, d, rp).requests
  {
    // 2. the users row
    var user := InsertUser(UserRow(userId, d.email, Artist));
    client.Send(user);
    if rp.userInsert.Threw? {
      return RegisterFailed(MSG_UNEXPECTED);
    }
    if rp.userInsert.reply.WriteFailed? {
      return RegisterFailed(MSG_CREATE_USER);
    }
    result := CreateArtistProfile(client, userId, d, rp);
    ghost var save := SaveStagesFor(userId, d, rp);
    AppendAssociative(old(client.log), [user], DocumentUploads(userId, d) + save.requests);
    AppendAssociative([user], DocumentUploads(userId, d), save.requests);
  }

  /** Stages 3 to 5 of `registerArtist`, against the client: the documents,
      then the rows. */
  method CreateArtistProfile(client: Client, userId: string, d: ArtistRegistrationData, rp: RegisterReplies)
    returns (result: RegisterResult)
    modifies client
    ensures result == SaveStagesFor(userId, d, rp).result
    ensures client.log == old(client.log) + (DocumentUploads(userId, d) + SaveStagesFor(userId, d, rp).requests)
  {
    // 3. the documents; a failed upload leaves a null URL
    ghost var start := client.log;
    var photoUrl := UploadFile(client, d.profilePhoto, userId + PROFILE_PHOTO_SLOT, rp.profilePhotoUpload);
    ghost var u1 := UploadRequests(d.profilePhoto, userId + PROFILE_PHOTO_SLOT);
    var selfieUrl := UploadFile(client, d.selfieVerification, userId + SELFIE_SLOT, rp.selfieUpload);
    ghost var u2 := UploadRequests(d.selfieVerification, userId + SELFIE_SLOT);
    AppendAssociative(start, u1, u2);
    var idUrl := UploadFile(client, d.idDocument, userId + ID_DOCUMENT_SLOT, rp.idDocumentUpload);
    ghost var u3 := UploadRequests(d.idDocument, userId + ID_DOCUMENT_SLOT);
    AppendAssociative(start, u1 + u2, u3);
    assert client.log == start + DocumentUploads(userId, d);
    // 4 and 5. the artist profile and the pending subscription
    result := SaveProfile(client, userId, ProfileRow(userId, d, photoUrl, selfieUrl, idUrl),
                          PendingSubscription(userId, d), rp);
    AppendAssociative(start, DocumentUploads(userId, d), SaveStagesFor(userId, d, rp).requests);
  }

  /** Stages 4 and 5 of `registerArtist`, against the client. */
  method SaveProfile(client: Client, userId: string, profile: ArtistProfileRow, subscription: SubscriptionRow,
                     rp: RegisterReplies)
    returns (result: RegisterResult)
    modifies client
    ensures result == SaveStages(userId, profile, subscription, rp).result
    ensures client.log == old(client.log) + SaveStages(userId, profile, subscription, rp).requests
  {
    // 4. the artist profile
    client.Send(InsertArtistProfile(profile));
    if rp.profileInsert.Threw? {
      return RegisterFailed(MSG_UNEXPECTED);
    }
    if rp.profileInsert.reply.WriteFailed? {
      return RegisterFailed(MSG_CREATE_PROFILE);
    }
    // 5. the pending subscription
    client.Send(InsertSubscription(subscription));
    if rp.subscriptionInsert.Threw? {
      return RegisterFailed(MSG_UNEXPECTED);
    }
    if rp.subscriptionInsert.reply.WriteFailed? {
      return RegisterFailed(MSG_CREATE_SUBSCRIPTION);
    }
    return Registered(userId);
  }

  /** The upload helper: a present file is uploaded under `base` and its public
      URL returned, or null when the upload fails; an absent file is skipped. */
  method UploadFile(client: Client, file: Option<File>, base: string, reply: UploadReply)
    returns (url: Option<string>)
    modifies client
    ensures url == StoredUrl(file, reply)
    ensures client.log == old(client.log) + UploadRequests(file, base)
  {
    if file.None? {
      return None;
    }
    var f := file.value;
    client.Send(UploadObject(DOCUMENTS_BUCKET, UploadPath(base, f.name), f));
    if reply.UploadFailed? {
      return None;
    }
    return Some(reply.publicUrl);
  }
}
