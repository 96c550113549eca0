/**
 * The procedure guards: a protected procedure needs a session; the premium procedure
 * lets a user with fewer than four workflows through and otherwise asks the billing
 * service for an active subscription.
 */
module Access {
  import opened Results
  import opened Schema
  import opened Listing

  datatype Session = Session(userId: string)

  /** The billing service's customer state. */
  datatype Customer = Customer(externalId: string, activeSubscriptions: Option<seq<string>>)

  /** The context handed to the next handler: the session, plus the customer when it was looked up. */
  datatype Admission = Admission(session: Session, customer: Option<Customer>)

  /** Workflows a user may own before a subscription is required. */
  const GraceLimit := 4

  const Unauthorized := Trpc(UNAUTHORIZED, "Unauthorized")
  const LimitReached := Trpc(FORBIDDEN, "LIMIT_REACHED")

  /** The protected procedure: no session, no call. */
  function Protected(session: Option<Session>): (r: Result<Session>)
    ensures r.Err? <==> session.None?
    ensures r.Err? ==> r.error == Unauthorized
    ensures r.Ok? ==> r.value == session.value
  {
    match session
    case None => Err(Unauthorized)
    case Some(s) => Ok(s)
  }

  function WorkflowOwner(w: WorkflowRow): string {
    w.userId
  }

  /** `prisma.workflow.count({ where: { userId } })`: the number of the user's rows. */
  function CountOwned(workflows: seq<WorkflowRow>, userId: string): (n: nat)
    ensures n <= |workflows|
    ensures n == |Select(workflows, WorkflowOwner, userId)|
  {
    if workflows == [] then 0
    else (if workflows[0].userId == userId then 1 else 0) + CountOwned(workflows[1..], userId)
  }

  lemma {:induction false} CountOwnedAppend(workflows: seq<WorkflowRow>, row: WorkflowRow, userId: string)
    ensures CountOwned(workflows + [row], userId)
            == CountOwned(workflows, userId) + (if row.userId == userId then 1 else 0)
  {
    if workflows != [] {
      assert (workflows + [row])[1..] == workflows[1..] + [row];
      CountOwnedAppend(workflows[1..], row, userId);
    } else {
      assert (workflows + [row])[1..] == [];
    }
  }

  /** `activeSubscriptions && activeSubscriptions.length > 0`. */
  predicate Subscribed(c: Customer) {
    c.activeSubscriptions.Some? && |c.activeSubscriptions.value| > 0
  }

  /**
   * The premium decision for an authenticated user owning `owned` workflows. `lookup` is
   * what the billing call returns or throws; it is consulted only at or above the limit.
   */
  function PremiumGate(session: Session, owned: nat, lookup: Result<Customer>): (r: Result<Admission>)
    ensures r.Ok? ==> r.value.session == session
    ensures r.Err? ==> r.error == LimitReached
    ensures owned < GraceLimit ==> r == Ok(Admission(session, None))
    ensures owned >= GraceLimit ==>
              (r.Ok? <==> lookup.Ok? && Subscribed(lookup.value))
              && (r.Ok? ==> r.value.customer == Some(lookup.value))
  {
    if owned < GraceLimit then Ok(Admission(session, None))
    else
      match lookup
      case Err(_) => Err(LimitReached)
      case Ok(customer) =>
        if Subscribed(customer) then Ok(Admission(session, Some(customer))) else Err(LimitReached)
  }

  /** The premium procedure: the protected check, the count of the user's workflows, then the gate. */
  function Premium(session: Option<Session>, workflows: seq<WorkflowRow>, lookup: string -> Result<Customer>): (r: Result<Admission>)
    ensures session.None? ==> r == Err(Unauthorized)
    ensures session.Some? ==>
              r == PremiumGate(session.value, CountOwned(workflows, session.value.userId), lookup(session.value.userId))
  {
    match Protected(session)
    case Err(e) => Err(e)
    case Ok(s) => PremiumGate(s, CountOwned(workflows, s.userId), lookup(s.userId))
  }

  /** Below the limit the billing service is never consulted: any lookup gives the same answer. */
  lemma GraceIgnoresBilling(session: Session, owned: nat, lookup1: Result<Customer>, lookup2: Result<Customer>)
    requires owned < GraceLimit
    ensures PremiumGate(session, owned, lookup1) == PremiumGate(session, owned, lookup2)
  {
  }

  /**
   * The answers to `attempts` successive premium-gated creations by a user who owns
   * `owned` workflows; each admitted creation adds one workflow for that user.
   */
  function SuccessiveCreates(session: Session, owned: nat, attempts: nat, lookup: Result<Customer>): (r: seq<bool>)
    ensures |r| == attempts
    decreases attempts
  {
    if attempts == 0 then []
    else
      var admitted := PremiumGate(session, owned, lookup).Ok?;
      [admitted] + SuccessiveCreates(session, if admitted then owned + 1 else owned, attempts - 1, lookup)
  }

  /** Without a subscription, the i-th attempt is admitted exactly while the count stays below four. */
  lemma {:induction false} SuccessiveCreatesWithoutSubscription(session: Session, owned: nat, attempts: nat,
                                                                 lookup: Result<Customer>)
    requires !(lookup.Ok? && Subscribed(lookup.value))
    ensures forall i :: 0 <= i < attempts ==>
              SuccessiveCreates(session, owned, attempts, lookup)[i] == (owned + i < GraceLimit)
    decreases attempts
  {
    if attempts > 0 {
      var admitted := PremiumGate(session, owned, lookup).Ok?;
      var next := if admitted then owned + 1 else owned;
      SuccessiveCreatesWithoutSubscription(session, next, attempts - 1, lookup);
      var r := SuccessiveCreates(session, owned, attempts, lookup);
      forall i | 0 <= i < attempts ensures r[i] == (owned + i < GraceLimit) {
        if i > 0 {
          assert r[i] == SuccessiveCreates(session, next, attempts - 1, lookup)[i - 1];
        }
      }
    }
  }

  /** From zero workflows and no subscription, exactly the first four creations succeed. */
  lemma FreeTierAdmitsFour(session: Session, attempts: nat, lookup: Result<Customer>)
    requires !(lookup.Ok? && Subscribed(lookup.value))
    ensures forall i :: 0 <= i < attempts ==> SuccessiveCreates(session, 0, attempts, lookup)[i] == (i < 4)
  {
    SuccessiveCreatesWithoutSubscription(session, 0, attempts, lookup);
  }
}
