/** The hosted backend seen from the server actions: the requests they issue
    (credential creation, row inserts and updates, object uploads) and the
    replies that come back. The service itself is not modelled. Each reply is
    an input, and a Client object keeps the log of requests received. The
    interface also offers deletes, which no action here ever issues. */
module Backend {

  import opened Types

  const DOCUMENTS_BUCKET := "artist-documents"

  /** A row of `users`. */
  datatype UserRow = UserRow(id: string, email: string, role: UserRole)

  datatype Location = Location(country: string, city: string)

  /** A row of `artist_profiles`. */
  datatype ArtistProfileRow = ArtistProfileRow(
    id: string, status: ArtistStatus, plan: PlanType,
    fullName: string, displayName: string, age: int, nationality: string,
    location: Location, bio: string,
    whatsapp: Option<string>, websiteUrl: Option<string>,
    profilePhotoUrl: Option<string>, verificationSelfieUrl: Option<string>, idDocumentUrl: Option<string>)

  /** A row of `plan_subscriptions`. */
  datatype SubscriptionRow = SubscriptionRow(
    artistId: string, planType: PlanType, billingPeriod: BillingPeriod, status: SubscriptionStatus)

  /** A row of `payment_requests`; plan, period and method are the texts the form sent. */
  datatype PaymentRequestRow = PaymentRequestRow(
    subscriptionId: string, artistId: string, planType: string, billingPeriod: string,
    amount: nat, currency: string, paymentMethod: string, proofOfPaymentUrl: string,
    paymentReference: Option<string>, paidAt: string, status: PaymentStatus)

  /** One request received by the backend. */
  datatype Request =
    | CreateCredential(email: string, password: string, role: UserRole)
    | InsertUser(user: UserRow)
    | InsertUserProfile(userId: string, name: string)
    | InsertArtistProfile(profile: ArtistProfileRow)
    | InsertSubscription(subscription: SubscriptionRow)
    | InsertPaymentRequest(payment: PaymentRequestRow)
    | UploadObject(bucket: string, path: string, file: File)
    | UpdateSubscriptionStatus(subscriptionId: string, status: SubscriptionStatus)
    | DeleteRow(table: string, id: string)
    | RemoveObject(bucket: string, path: string)

  /** A request that would undo an earlier one. */
  predicate IsUndo(r: Request) {
    r.DeleteRow? || r.RemoveObject?
  }

  predicate NoUndo(log: seq<Request>) {
    forall k | 0 <= k < |log| :: !IsUndo(log[k])
  }

  /** The reply to a credential creation: an error, no user, or the new user's id. */
  datatype AuthReply = AuthFailed(message: string) | NoUser | Created(userId: string)

  /** The reply to an insert or update: no error, or an error with its message. */
  datatype WriteReply = WriteOk | WriteFailed(message: string)

  /** The reply to an upload: the public URL of the stored path, or an error. */
  datatype UploadReply = Uploaded(publicUrl: string) | UploadFailed

  /** A call that returned its reply, or threw. */
  datatype Call<T> = Returned(reply: T) | Threw

  /** What a server action does: its result and the requests it issued, in order. */
  datatype Run<R> = Run(result: R, requests: seq<Request>)

  /** The client the actions obtain from `createClient`: the requests it has
      passed to the backend so far. */
  class Client {
    ghost var log: seq<Request>

    constructor ()
      ensures log == []
    {
      log := [];
    }

    /** Issue one request. */
    method Send(r: Request)
      modifies this
      ensures log == old(log) + [r]
    {
      log := log + [r];
    }
  }

  /** Proof helper for the action methods: logs grow by appending, and this
      regroups two appends. */
  lemma AppendAssociative(a: seq<Request>, b: seq<Request>, c: seq<Request>)
    ensures a + b + c == a + (b + c)
  {
  }

  /** Proof helper: a log made of two parts that undo nothing undoes nothing. */
  lemma NoUndoConcat(a: seq<Request>, b: seq<Request>)
    requires NoUndo(a) && NoUndo(b)
    ensures NoUndo(a + b)
  {
    forall k | 0 <= k < |a + b|
      ensures !IsUndo((a + b)[k])
    {
      if k < |a| {
        assert (a + b)[k] == a[k];
      } else {
        assert (a + b)[k] == b[k - |a|];
      }
    }
  }

  /** Proof helper: a request of a log made of three parts lies in one of them. */
  lemma InOneOfThree(r: Request, a: seq<Request>, b: seq<Request>, c: seq<Request>)
    requires r in a + b + c
    ensures r in a || r in b || r in c
  {
  }

  /** `name.split('.').pop()`: the text after the last `.`, or the whole name
      when it has none. */
  function FileExtension(name: string): (ext: string)
    ensures |ext| <= |name| && ext == name[|name| - |ext|..]
    ensures '.' !in ext
    ensures |ext| < |name| ==> name[|name| - |ext| - 1] == '.'
    ensures '.' !in name ==> ext == name
  {
    if name == [] then []
    else if name[|name| - 1] == '.' then []
    else
      var prefix := FileExtension(name[..|name| - 1]);
      var ext := prefix + [name[|name| - 1]];
      assert name[..|name| - 1][|name| - 1 - |prefix|..] == name[|name| - 1 - |prefix|..|name| - 1];
      ext
  }

  /** Whatever precedes the last `.`, the extension is the dot-free text after it. */
  lemma {:induction false} ExtensionAfterLastDot(stem: string, ext: string)
    requires '.' !in ext
    ensures FileExtension(stem + "." + ext) == ext
  {
    var name := stem + "." + ext;
    if ext != [] {
      var shorter := ext[..|ext| - 1];
      assert ext[|ext| - 1] in ext;
      assert '.' !in shorter by {
        forall k | 0 <= k < |shorter|
          ensures shorter[k] != '.'
        {
          assert shorter[k] == ext[k];
        }
      }
      ExtensionAfterLastDot(stem, shorter);
      assert name[..|name| - 1] == stem + "." + shorter;
      assert shorter + [ext[|ext| - 1]] == ext;
    }
  }

  /** `${base}.${ext}`: the storage path an upload is stored under. */
  function UploadPath(base: string, fileName: string): (path: string)
    // the stored object keeps the file's extension, after the base and a dot
    ensures FileExtension(path) == FileExtension(fileName)
    ensures |path| > |base| && path[..|base|] == base && path[|base|] == '.'
  {
    ExtensionAfterLastDot(base, FileExtension(fileName));
    base + "." + FileExtension(fileName)
  }
}
