/** The rows of the marketplace database and its transactions. */
module Market {
  // Ids are positions: rows are only ever appended, so the n-th row inserted has id n. Money is in integer cents.
  // Each function below is the effect of one committed transaction; a transaction that the service rolls back
  // leaves the database as it was.

  datatype Option<+T> = None | Some(value: T)

  /** An instant, with the UTC day and calendar month it falls in. */
  datatype Stamp = Stamp(tick: nat, day: nat, month: nat)

  datatype BuyerStatus = PendingVerification | Active | Paused | Suspended

  datatype Buyer = Buyer(status: BuyerStatus, balance: int, spend: int, dailyCap: nat, monthlyBudget: nat)

  datatype LeadClass = A | B | C | D

  datatype LeadStatus = New | Qualified | Rejected | Sold | Unsold

  datatype Lead = Lead(
    status: LeadStatus, blocked: bool, hold: bool, leadClass: Option<LeadClass>,
    score: Option<real>, qualification: Option<real>,
    campaign: Option<nat>, state: nat, zip: nat)

  datatype Post = Post(lead: nat, buyer: nat, bid: int, delivered: bool, returned: bool, at: Stamp)

  datatype ReturnStatus = PendingReview | Held | Approved | Declined

  datatype ReturnRequest = ReturnRequest(post: nat, lead: nat, buyer: nat, status: ReturnStatus)

  datatype EventKind = DepositAdded | LeadReserved | DeliveryFailedCredit | LeadPosted | LeadReturned(post: nat)

  datatype BillingEvent = BillingEvent(buyer: nat, lead: Option<nat>, kind: EventKind, amount: int, at: Stamp)

  datatype Db = Db(
    buyers: seq<Buyer>, leads: seq<Lead>, posts: seq<Post>,
    requests: seq<ReturnRequest>, billing: seq<BillingEvent>)

  const EMPTY_DB := Db([], [], [], [], [])

  datatype HttpError = NotFound | Conflict

  datatype Result<+T> = Ok(value: T) | Err(error: HttpError)

  // ---------------------------------------------------------------- wallet

  /** Insert a buyer, with a deposit event when the opening balance is positive. */
  function CreateBuyer(db: Db, deposit: nat, cap: nat, budget: nat, at: Stamp): Db {
    var row := Buyer(PendingVerification, deposit, 0, cap, budget);
    var event := BillingEvent(|db.buyers|, None, DepositAdded, deposit, at);
    db.(buyers := db.buyers + [row],
        billing := if deposit > 0 then db.billing + [event] else db.billing)
  }

  function AddDeposit(db: Db, b: nat, amount: nat, at: Stamp): Result<Db> {
    if b >= |db.buyers| then Err(NotFound)
    else
      var row := db.buyers[b];
      Ok(db.(buyers := db.buyers[b := row.(balance := row.balance + amount)],
             billing := db.billing + [BillingEvent(b, None, DepositAdded, amount, at)]))
  }

  /** The guarded UPDATE of a reservation changes exactly one row when this holds. */
  predicate CanReserve(db: Db, b: nat, bid: int) {
    b < |db.buyers| && db.buyers[b].status == Active && db.buyers[b].balance >= bid
  }

  function Reserve(db: Db, b: nat, l: nat, bid: int, at: Stamp): Db
    requires CanReserve(db, b, bid)
  {
    var row := db.buyers[b];
    db.(buyers := db.buyers[b := row.(balance := row.balance - bid, spend := row.spend + bid)],
        billing := db.billing + [BillingEvent(b, Some(l), LeadReserved, -bid, at)])
  }

  function CreditFailedDelivery(db: Db, b: nat, l: nat, bid: int, at: Stamp): Db
    requires b < |db.buyers|
  {
    var row := db.buyers[b];
    db.(buyers := db.buyers[b := row.(balance := row.balance + bid, spend := row.spend - bid)],
        billing := db.billing + [BillingEvent(b, Some(l), DeliveryFailedCredit, bid, at)])
  }

  // ---------------------------------------------------------------- delivery

  /** The delivery idempotency key hashes lead, buyer and bid, so equal keys mean equal triples. */
  predicate HasDeliveryKey(db: Db, l: nat, b: nat, bid: int) {
    exists p :: 0 <= p < |db.posts| && db.posts[p].lead == l && db.posts[p].buyer == b && db.posts[p].bid == bid
  }

  predicate HasSale(db: Db, l: nat) {
    exists p :: 0 <= p < |db.posts| && db.posts[p].lead == l && db.posts[p].delivered
  }

  /** Store the outcome of a delivery: the post, the lead's status and, on success, the posted event. */
  function StoreResult(db: Db, l: nat, b: nat, bid: int, delivered: bool, at: Stamp): Db
    requires l < |db.leads|
  {
    var post := Post(l, b, bid, delivered, false, at);
    db.(posts := db.posts + [post],
        leads := db.leads[l := db.leads[l].(status := if delivered then Sold else Unsold)],
        billing := if delivered then db.billing + [BillingEvent(b, Some(l), LeadPosted, bid, at)] else db.billing)
  }

  // ---------------------------------------------------------------- leads

  datatype GateReason = BlockedForFraud | HeldForReview | ClassRequiresReview | RouteAb | BelowHold | RouteB

  /** The gate at the head of an auction; thresholds are the two routing settings. */
  function GateVerdict(lead: Lead, abMin: real, holdMin: real): (bool, GateReason) {
    if lead.blocked then (false, BlockedForFraud)
    else if lead.hold then (false, HeldForReview)
    else if lead.leadClass == Some(C) || lead.leadClass == Some(D) then (false, ClassRequiresReview)
    else
      var score := if lead.score.Some? then lead.score.value
                   else if lead.qualification.Some? then lead.qualification.value else 0.0;
      if score >= abMin then (true, RouteAb)
      else if score < holdMin then (false, BelowHold)
      else (true, RouteB)
  }

  /** A lead gets in exactly when nobody blocked or held it, its class needs no review, and its score, the
      qualification standing in for a missing one, reaches the lower of the two thresholds. */
  lemma GateAdmits(lead: Lead, abMin: real, holdMin: real, score: real)
    requires lead.score.Some? ==> score == lead.score.value
    requires lead.score.None? && lead.qualification.Some? ==> score == lead.qualification.value
    requires lead.score.None? && lead.qualification.None? ==> score == 0.0
    ensures GateVerdict(lead, abMin, holdMin).0 <==>
              && !lead.blocked && !lead.hold && lead.leadClass in {None, Some(A), Some(B)}
              && (score >= abMin || score >= holdMin)
  {
    if lead.leadClass.Some? {
      match lead.leadClass.value {
        case A =>
        case B =>
        case C =>
        case D =>
      }
    }
  }

  /** Once a refusal is stored the next run refuses the lead as well, whatever its thresholds. */
  lemma BarredStaysBarred(db: Db, l: nat, abMin: real, holdMin: real, abMin': real, holdMin': real)
    requires l < |db.leads| && !GateVerdict(db.leads[l], abMin, holdMin).0
    ensures var reason := GateVerdict(db.leads[l], abMin, holdMin).1;
            !GateVerdict(PersistUnauctionable(db, l, reason, db.leads[l].leadClass).leads[l], abMin', holdMin').0
  {
  }

  /** A lead refused by the gate is rejected or put on hold; row is the lead as the run loaded it. */
  function PersistUnauctionable(db: Db, l: nat, reason: GateReason, leadClass: Option<LeadClass>): Db {
    if l >= |db.leads| then db
    else if reason == BlockedForFraud || leadClass == Some(D) then
      db.(leads := db.leads[l := db.leads[l].(status := Rejected)])
    else if reason in {ClassRequiresReview, BelowHold, HeldForReview} then
      db.(leads := db.leads[l := db.leads[l].(hold := true)])
    else db
  }

  function MarkUnsold(db: Db, l: nat): Db
    requires l < |db.leads|
  {
    db.(leads := db.leads[l := db.leads[l].(status := Unsold)])
  }

  datatype ReviewAction = ApproveLead | HoldLead | ReviewOnly

  function ReviewLead(db: Db, l: nat, action: ReviewAction): Result<Db> {
    if l >= |db.leads| then Err(NotFound)
    else Ok(db.(leads := db.leads[l := db.leads[l].(hold := action != ApproveLead)]))
  }

  // ---------------------------------------------------------------- returns

  predicate IsActive(status: ReturnStatus) {
    status == PendingReview || status == Held
  }

  predicate HasActiveReturn(db: Db, p: nat) {
    exists r :: 0 <= r < |db.requests| && db.requests[r].post == p && IsActive(db.requests[r].status)
  }

  /** The delivered post of lead l with the latest creation time. */
  predicate IsLatestSale(db: Db, l: nat, p: nat) {
    && p < |db.posts| && db.posts[p].lead == l && db.posts[p].delivered
    && forall q :: 0 <= q < |db.posts| && db.posts[q].lead == l && db.posts[q].delivered
         ==> db.posts[q].at.tick <= db.posts[p].at.tick
  }

  /** A buyer asks to return lead l, whose latest sale is post p. */
  function OpenReturn(db: Db, l: nat, p: nat): Result<Db>
    requires IsLatestSale(db, l, p)
  {
    if db.posts[p].buyer >= |db.buyers| then Err(NotFound)
    else if db.posts[p].returned then Err(Conflict)
    else if HasActiveReturn(db, p) then Err(Conflict)
    else Ok(db.(requests := db.requests + [ReturnRequest(p, l, db.posts[p].buyer, PendingReview)]))
  }

  datatype Decision = Approve | Hold | Reject

  function ReviewReturn(db: Db, r: nat, decision: Decision, at: Stamp): Result<Db> {
    if r >= |db.requests| then Err(NotFound)
    else if !IsActive(db.requests[r].status) then Err(Conflict)
    else
      var request := db.requests[r];
      if request.post >= |db.posts| || request.buyer >= |db.buyers| then Err(NotFound)
      else match decision
        case Hold => Ok(db.(requests := db.requests[r := request.(status := Held)]))
        case Reject => Ok(db.(requests := db.requests[r := request.(status := Declined)]))
        case Approve =>
          if db.posts[request.post].returned then Err(Conflict) else Ok(ApproveReturn(db, r, at))
  }

  function ApproveReturn(db: Db, r: nat, at: Stamp): Db
    requires r < |db.requests| && db.requests[r].post < |db.posts| && db.requests[r].buyer < |db.buyers|
  {
    var request := db.requests[r];
    var post := db.posts[request.post];
    var row := db.buyers[request.buyer];
    db.(buyers := db.buyers[request.buyer := row.(balance := row.balance + post.bid, spend := row.spend - post.bid)],
        posts := db.posts[request.post := post.(returned := true)],
        requests := db.requests[r := request.(status := Approved)],
        billing := db.billing + [BillingEvent(request.buyer, Some(request.lead), LeadReturned(request.post),
          post.bid, at)])
  }
}
