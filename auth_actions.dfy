/** The visitor sign-up and sign-in server actions. `signUp` creates the
    credential, then the `users` row, then a `user_profiles` row when a name is
    given; a profile failure is only logged. `signIn` reports the credential
    check's error or its data. */
module AuthActions {

  import opened Types
  import opened Backend

  const MSG_CREATE_USER := "Error al crear usuario"
  const MSG_PROFILE_PREFIX := "Error al crear perfil: "

  /** What `signUp` returns: `{ data }` with the new user, or `{ error }`. */
  datatype SignUpResult = SignedUp(userId: string) | SignUpFailed(error: string)

  /** The replies the backend gives, in the order the action asks. */
  datatype SignUpReplies = SignUpReplies(signUp: AuthReply, userInsert: WriteReply, profileInsert: WriteReply)

  /** `if (name)`: a name was given and is not empty. */
  predicate HasName(name: Option<string>) {
    name.Some? && name.value != ""
  }

  /** `signUp(email, password, name)`: the result and the requests issued. */
  function SignUpRun(email: string, password: string, name: Option<string>, rp: SignUpReplies)
    : (run: Run<SignUpResult>)
    // the credential is always requested first, with the visitor role
    ensures run.requests != [] && run.requests[0] == CreateCredential(email, password, Visitor)
    // a credential failure stops everything
    ensures rp.signUp.AuthFailed? ==>
      run == Run(SignUpFailed(rp.signUp.message), [CreateCredential(email, password, Visitor)])
    ensures rp.signUp.NoUser? ==> run == Run(SignUpFailed(MSG_CREATE_USER), [CreateCredential(email, password, Visitor)])
    // with a user, the visitor row keyed by it comes second
    ensures rp.signUp.Created? ==>
      |run.requests| >= 2 && run.requests[1] == InsertUser(UserRow(rp.signUp.userId, email, Visitor))
    ensures rp.signUp.Created? && rp.userInsert.WriteFailed? ==>
      |run.requests| == 2 && run.result == SignUpFailed(MSG_PROFILE_PREFIX + rp.userInsert.message)
    // a third request, the profile row, exactly when the users row succeeded and a name was given
    ensures |run.requests| <= 3
    ensures |run.requests| == 3 <==> rp.signUp.Created? && rp.userInsert.WriteOk? && HasName(name)
    ensures |run.requests| == 3 ==> run.requests[2] == InsertUserProfile(rp.signUp.userId, name.value)
    // once the users row exists the action succeeds, whatever the profile insert replied
    ensures run.result.SignedUp? <==> rp.signUp.Created? && rp.userInsert.WriteOk?
    ensures run.result.SignedUp? ==> run.result.userId == rp.signUp.userId
  {
    var credential := CreateCredential(email, password, Visitor);
    match rp.signUp
    case AuthFailed(message) => Run(SignUpFailed(message), [credential])
    case NoUser => Run(SignUpFailed(MSG_CREATE_USER), [credential])
    case Created(userId) =>
      var users := [credential, InsertUser(UserRow(userId, email, Visitor))];
      match rp.userInsert
      case WriteFailed(message) => Run(SignUpFailed(MSG_PROFILE_PREFIX + message), users)
      case WriteOk =>
        if HasName(name) then Run(SignedUp(userId), users + [InsertUserProfile(userId, name.value)])
        else Run(SignedUp(userId), users)
  }

  /** Without a name, or with an empty one, no profile row is ever requested. */
  lemma SignUpWithoutName(email: string, password: string, name: Option<string>, rp: SignUpReplies)
    requires !HasName(name)
    ensures forall r | r in SignUpRun(email, password, name, rp).requests :: !r.InsertUserProfile?
  {
  }

  /** Nothing `signUp` issues undoes anything: a failed users row leaves the
      credential in place. */
  lemma SignUpNeverRollsBack(email: string, password: string, name: Option<string>, rp: SignUpReplies)
    ensures NoUndo(SignUpRun(email, password, name, rp).requests)
  {
  }

  /** `signUp`, one stage at a time against the client. */
  method SignUp(client: Client, email: string, password: string, name: Option<string>, rp: SignUpReplies)
    returns (result: SignUpResult)
    modifies client
    ensures result == SignUpRun(email, password, name, rp).result
    ensures client.log == old(client.log) + SignUpRun(email, password, name, rp).requests
  {
    // 1. the credential, with the visitor role
    client.Send(CreateCredential(email, password, Visitor));
    match rp.signUp {
      case AuthFailed(message) =>
        return SignUpFailed(message);
      case NoUser =>
        return SignUpFailed(MSG_CREATE_USER);
      case Created(userId) =>
        // 2. the users row
        client.Send(InsertUser(UserRow(userId, email, Visitor)));
        if rp.userInsert.WriteFailed? {
          return SignUpFailed(MSG_PROFILE_PREFIX + rp.userInsert.message);
        }
        // 3. the visitor profile, when a name was given; its failure is only logged
        if HasName(name) {
          client.Send(InsertUserProfile(userId, name.value));
        }
        return SignedUp(userId);
    }
  }

  /** The reply to a password check: an error with its message, or the session's user. */
  datatype SignInReply = SignInRejected(message: string) | SignInAccepted(userId: string)

  /** What `signIn` returns: `{ data }` or `{ error }`. */
  datatype SignInResult = SignedIn(userId: string) | SignInFailed(error: string)

  /** `signIn`: the check's error message, or its data. */
  function SignIn(reply: SignInReply): (r: SignInResult)
    ensures r.SignInFailed? <==> reply.SignInRejected?
    ensures r.SignInFailed? ==> r.error == reply.message
    ensures r.SignedIn? ==> r.userId == reply.userId
  {
    match reply
    case SignInRejected(message) => SignInFailed(message)
    case SignInAccepted(userId) => SignedIn(userId)
  }
}
