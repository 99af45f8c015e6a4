/** The string unions of the application's shared types, the browser values the
    forms handle, and the wire names the backend stores for each union member. */
module Types {

  datatype Option<+T> = None | Some(value: T)

  /** How a handler can fail without throwing: the message shown to the user. */
  datatype Outcome = Pass | Fail(message: string)

  datatype UserRole = Visitor | Artist | Admin

  datatype ArtistStatus = ProfilePending | ProfileApproved | ProfileRejected | ProfileSuspended

  datatype PlanType = Silver | Gold | Premium

  datatype BillingPeriod = Monthly | Quarterly

  datatype SubscriptionStatus = Active | PendingPayment | Expired | Cancelled

  datatype PaymentMethod = MercadoPago | BankTransfer

  datatype PaymentStatus = PaymentPending | AwaitingVerification | PaymentVerified | PaymentRejected

  /** A row of the `users` table as the application reads it. */
  datatype User = User(id: string, email: string, role: UserRole, createdAt: string)

  /** A browser File: its name, its size in bytes and its MIME type. */
  datatype File = File(name: string, size: nat, mimeType: string)

  /** Where a handler sends the browser: nowhere, or to a route. */
  datatype Navigation = Stay | NavigateTo(url: string)

  function RoleName(r: UserRole): string {
    match r
    case Visitor => "visitor"
    case Artist => "artist"
    case Admin => "admin"
  }

  function PlanName(p: PlanType): string {
    match p
    case Silver => "silver"
    case Gold => "gold"
    case Premium => "premium"
  }

  function PeriodName(b: BillingPeriod): string {
    match b
    case Monthly => "monthly"
    case Quarterly => "quarterly"
  }

  function MethodName(m: PaymentMethod): string {
    match m
    case MercadoPago => "mercado_pago"
    case BankTransfer => "bank_transfer"
  }

  /** Distinct union members have distinct wire names, so a stored name
      identifies the member it came from. */
  lemma WireNamesInjective(p: PlanType, q: PlanType, b: BillingPeriod, c: BillingPeriod, r: UserRole, s: UserRole)
    ensures PlanName(p) == PlanName(q) ==> p == q
    ensures PeriodName(b) == PeriodName(c) ==> b == c
    ensures RoleName(r) == RoleName(s) ==> r == s
  {
  }

  /** A front-to-back scan for an element equal to `x`, as both
      `Array.prototype.some(y => y === x)` and `Array.prototype.includes(x)`
      perform it on the strings and unions used here. */
  function Contains<T(==)>(xs: seq<T>, x: T): (found: bool)
    ensures found <==> x in xs
  {
    if xs == [] then false else xs[0] == x || Contains(xs[1..], x)
  }
}
