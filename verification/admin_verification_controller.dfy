/** `v1/admin/verification`: the admins' queue of verification requests and
    their decisions. A decision rewrites the request, verifies the plant on
    approval, leaves the owner a notification and tells the clients. */
module AdminVerificationController {
  import opened Common
  import opened QueryParams
  import opened Store
  import opened Sync

  const RequestNotFound := Error(NotFound, "Verification request not found")

  // ---------------------------------------------------------------------
  // Listing and lookup

  datatype RequestList = RequestList(requests: seq<VerificationRequest>, meta: Meta)

  predicate HasStatus(r: VerificationRequest, status: Option<RequestStatus>)
  {
    status.None? || r.status == status.value
  }

  /** The requests of the given status, or all of them, newest first. */
  function Queue(requests: seq<VerificationRequest>, status: Option<RequestStatus>): (q: seq<VerificationRequest>)
    ensures forall x :: x in q ==> x in requests && HasStatus(x, status)
    ensures forall i :: 0 <= i < |requests| && HasStatus(requests[i], status) ==> requests[i] in q
    ensures |q| == Count(requests, (x: VerificationRequest) => HasStatus(x, status))
  {
    var kept := Filter(requests, (x: VerificationRequest) => HasStatus(x, status));
    ReverseSameElements(kept);
    Reverse(kept)
  }

  /** GET: page ≥ 1 (default 1), limit in [1, 50] (default 20). */
  function GetVerificationRequests(requests: seq<VerificationRequest>, status: Option<RequestStatus>,
                                   page: string, limit: string): (r: RequestList)
    ensures var p := Paginate(page, limit, 20, 50);
      r.meta == MetaOf(p, |Queue(requests, status)|) &&
      r.requests == TakePage(Queue(requests, status), p.skip, p.limit) &&
      |r.requests| <= p.limit
    ensures forall x :: x in r.requests ==> x in requests && HasStatus(x, status)
  {
    var p := Paginate(page, limit, 20, 50);
    var q := Queue(requests, status);
    var shown := TakePage(q, p.skip, p.limit);
    assert forall x :: x in shown ==> x in q;
    RequestList(shown, MetaOf(p, |q|))
  }

  function RequestIndex(requests: seq<VerificationRequest>, id: Id): (k: Option<nat>)
    ensures k.Some? ==> k.value < |requests| && requests[k.value].id == id
    ensures k.None? <==> forall j :: 0 <= j < |requests| ==> requests[j].id != id
  {
    Find(requests, (r: VerificationRequest) => r.id == id)
  }

  /** GET :id. */
  function GetVerificationRequest(requests: seq<VerificationRequest>, id: Id): (r: Result<VerificationRequest>)
    ensures r.Err? <==> RequestIndex(requests, id).None?
    ensures r.Err? ==> r.error == RequestNotFound
    ensures r.Ok? ==> r.value in requests && r.value.id == id
  {
    match RequestIndex(requests, id)
    case None => Err(RequestNotFound)
    case Some(k) => Ok(requests[k])
  }

  // ---------------------------------------------------------------------
  // Decisions

  /** The request after a decision: the new status, the reviewer and the
      time; the rejection reason is written only when one is given. The
      previous status is not consulted. */
  function Decided(r: VerificationRequest, status: RequestStatus, reason: Option<string>, now: int, reviewerId: Id)
    : (d: VerificationRequest)
    ensures d.id == r.id && d.plantId == r.plantId && d.documents == r.documents && d.createdAt == r.createdAt
    ensures d.status == status && d.reviewedAt == Some(now) && d.reviewerId == Some(reviewerId)
    ensures d.rejectionReason == (if reason.Some? then reason else r.rejectionReason)
  {
    r.(status := status, rejectionReason := if reason.Some? then reason else r.rejectionReason,
       reviewedAt := Some(now), reviewerId := Some(reviewerId))
  }

  /** The owner's notification about a decision: an approval notice for
      APPROVED and a rejection notice, with the reason if any, for any
      other status. */
  function DecisionNotice(id: Id, ownerId: Id, plantName: string, status: RequestStatus, reason: Option<string>, now: int)
    : (n: Notification)
    ensures n.ownerId == ownerId && !n.isRead && n.createdAt == now && n.id == id
    ensures n.kind == VerificationApproved <==> status == Approved
    ensures n.kind == VerificationRejected <==> status != Approved
  {
    if status == Approved then
      Notification(id, ownerId, VerificationApproved, "Verification Approved",
        "Your plant \"" + plantName + "\" has been verified!", false, now)
    else
      Notification(id, ownerId, VerificationRejected, "Verification Rejected",
        "Your verification request for \"" + plantName + "\" has been rejected. "
        + (if reason.Some? then reason.value else ""), false, now)
  }

  /** The events of a decision: `verification:updated` to the admins and
      the owner always, and `plant:updated` to everyone after an approval
      only. */
  function DecisionEvents(ownerId: Id, status: RequestStatus): (es: seq<Emission>)
    ensures Emission(Room(TypeRoom(Admin)), "verification:updated") in es
    ensures Emission(Room(UserRoom(Owner, ownerId)), "verification:updated") in es
    ensures Emission(Everyone, "plant:updated") in es <==> status == Approved
  {
    var updated := VerificationUpdatedRoute(ownerId, status);
    updated + (if status == Approved then PlantUpdatedRoute() else [])
  }

  /** The plant table after a decision on a request for `plantId`: the
      plant is marked verified on approval; nothing changes otherwise. */
  function DecidedPlants(plants: seq<Plant>, plantId: Id, status: RequestStatus): (r: seq<Plant>)
    requires PlantIndex(plants, plantId).Some?
    ensures |r| == |plants|
    ensures forall i :: 0 <= i < |plants| && i != PlantIndex(plants, plantId).value ==> r[i] == plants[i]
    ensures var pk := PlantIndex(plants, plantId).value;
      r[pk] == plants[pk].(isVerified := plants[pk].isVerified || status == Approved)
  {
    var pk := PlantIndex(plants, plantId).value;
    if status == Approved then plants[pk := plants[pk].(isVerified := true)] else plants
  }

  /** A decision rewrites a request under its own id and plant, and maybe a
      plant under its own id: every request still names a plant. */
  lemma DecisionKeepsPlantsExist(requests: seq<VerificationRequest>, plants: seq<Plant>, k: nat,
                                 d: VerificationRequest, plantId: Id, status: RequestStatus)
    requires RequestPlantsExist(requests, plants) && k < |requests| && d.plantId == requests[k].plantId
    requires PlantIndex(plants, plantId).Some?
    ensures RequestPlantsExist(requests[k := d], DecidedPlants(plants, plantId, status))
  {
    var t := requests[k := d];
    var after := DecidedPlants(plants, plantId, status);
    forall i | 0 <= i < |t| ensures PlantIndex(after, t[i].plantId).Some? {
      assert t[i].plantId == requests[i].plantId;
      var j := PlantIndex(plants, requests[i].plantId).value;
      assert after[j].id == plants[j].id;
    }
  }

  /** PATCH :id, by the admin `reviewerId`. */
  method UpdateVerificationRequest(db: Db, sync: SyncGateway, reviewerId: Id, id: Id,
                                   status: RequestStatus, reason: Option<string>, notificationId: Id)
    returns (r: Result<VerificationRequest>)
    requires db.Valid() && RequestPlantsExist(db.requests, db.plants)
    requires forall i :: 0 <= i < |db.notifications| ==> db.notifications[i].id != notificationId
    modifies db`requests, db`plants, db`notifications, sync`log
    ensures db.Valid() && RequestPlantsExist(db.requests, db.plants)
    ensures RequestIndex(old(db.requests), id).None? ==>
      r == Err(RequestNotFound) && db.requests == old(db.requests) && db.plants == old(db.plants) &&
      db.notifications == old(db.notifications) && sync.log == old(sync.log)
    ensures RequestIndex(old(db.requests), id).Some? ==>
      var k := RequestIndex(old(db.requests), id).value;
      var decided := Decided(old(db.requests)[k], status, reason, db.clock, reviewerId);
      r == Ok(decided) && db.requests == old(db.requests)[k := decided]
    ensures RequestIndex(old(db.requests), id).Some? ==>
      var plantId := old(db.requests)[RequestIndex(old(db.requests), id).value].plantId;
      db.plants == DecidedPlants(old(db.plants), plantId, status)
    ensures RequestIndex(old(db.requests), id).Some? ==>
      var plantId := old(db.requests)[RequestIndex(old(db.requests), id).value].plantId;
      var plant := old(db.plants)[PlantIndex(old(db.plants), plantId).value];
      db.notifications == old(db.notifications) + [DecisionNotice(notificationId, plant.ownerId, plant.name, status, reason, db.clock)]
    ensures RequestIndex(old(db.requests), id).Some? ==>
      var plantId := old(db.requests)[RequestIndex(old(db.requests), id).value].plantId;
      sync.log == old(sync.log) + DecisionEvents(old(db.plants)[PlantIndex(old(db.plants), plantId).value].ownerId, status)
  {
    var found := RequestIndex(db.requests, id);
    if found.None? {
      return Err(RequestNotFound);
    }
    var k := found.value;
    var existing := db.requests[k];
    var plant := db.plants[PlantIndex(db.plants, existing.plantId).value];
    var decided := Decided(existing, status, reason, db.clock, reviewerId);
    WriteDecision(db, k, decided, status);
    var notice := DecisionNotice(notificationId, plant.ownerId, plant.name, status, reason, db.clock);
    WriteNotice(db, notice);
    AnnounceDecision(sync, plant.ownerId, status);
    r := Ok(decided);
  }

  /** `notifyVerificationUpdated`, then `notifyPlantUpdated` on approval. */
  method AnnounceDecision(sync: SyncGateway, ownerId: Id, status: RequestStatus)
    modifies sync`log
    ensures sync.log == old(sync.log) + DecisionEvents(ownerId, status)
  {
    sync.NotifyVerificationUpdated(ownerId, status);
    if status == Approved {
      sync.NotifyPlantUpdated();
    }
    assert sync.log == old(sync.log) + DecisionEvents(ownerId, status);
  }

  /** The owner's notice goes to the end of the notification table. */
  method WriteNotice(db: Db, notice: Notification)
    requires db.Valid() && notice.createdAt == db.clock
    requires forall i :: 0 <= i < |db.notifications| ==> db.notifications[i].id != notice.id
    modifies db`notifications
    ensures db.Valid() && db.notifications == old(db.notifications) + [notice]
  {
    AppendNotificationKeepsValid(db.notifications, notice, db.clock);
    db.notifications := db.notifications + [notice];
  }

  /** The two table writes of a decision: the request row, then the plant
      on approval. */
  method WriteDecision(db: Db, k: nat, decided: VerificationRequest, status: RequestStatus)
    requires db.Valid() && k < |db.requests| && decided.id == db.requests[k].id
    requires RequestPlantsExist(db.requests, db.plants) && decided.plantId == db.requests[k].plantId
    modifies db`requests, db`plants
    ensures db.Valid() && RequestPlantsExist(db.requests, db.plants)
    ensures db.requests == old(db.requests)[k := decided]
    ensures db.plants == DecidedPlants(old(db.plants), decided.plantId, status)
  {
    DecisionKeepsPlantsExist(db.requests, db.plants, k, decided, decided.plantId, status);
    UniqueUpdate(db.requests, k, decided, (x: VerificationRequest) => x.id);
    db.requests := db.requests[k := decided];
    var plants := DecidedPlants(db.plants, decided.plantId, status);
    if status == Approved {
      var pk := PlantIndex(db.plants, decided.plantId).value;
      UniqueUpdate(db.plants, pk, plants[pk], (p: Plant) => p.id);
      assert plants == db.plants[pk := plants[pk]];
    }
    db.plants := plants;
  }

  /** A decision to APPROVED or REJECTED keeps at most one pending request
      per plant. */
  lemma DecisionKeepsSinglePending(requests: seq<VerificationRequest>, k: nat, status: RequestStatus,
                                   reason: Option<string>, now: int, reviewerId: Id)
    requires SinglePending(requests) && k < |requests| && status != Pending
    ensures SinglePending(requests[k := Decided(requests[k], status, reason, now, reviewerId)])
  {
  }

  /** Because the previous status is not consulted, setting a decided
      request back to PENDING can give a plant two pending requests. */
  lemma ReopeningCanBreakSinglePending()
    ensures var a := VerificationRequest("a", "p", [], None, Pending, None, None, None, 0);
      var b := VerificationRequest("b", "p", [], None, Rejected, None, Some(1), Some("x"), 0);
      SinglePending([a, b]) &&
      !SinglePending([a, b][1 := Decided(b, Pending, None, 2, "y")])
  {
    var a := VerificationRequest("a", "p", [], None, Pending, None, None, None, 0);
    var b := VerificationRequest("b", "p", [], None, Rejected, None, Some(1), Some("x"), 0);
    var t := [a, b][1 := Decided(b, Pending, None, 2, "y")];
    assert t[0].status == Pending && t[1].status == Pending && t[0].plantId == t[1].plantId;
  }
}
