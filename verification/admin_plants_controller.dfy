/** `v1/admin/plants`: the admins' plant listing with its filters, a
    per-plant detail with view statistics, and the open/verified switches.
    Query parameters are read with `Number(...)`, not `parseInt`. */
module AdminPlantsController {
  import opened Common
  import opened Text
  import opened QueryParams
  import opened Store


  // ---------------------------------------------------------------------
  // Row mapping

  /** `isVerified ? 'verified' : 'unverified'`: no plant is reported pending. */
  function VerificationStatus(isVerified: bool): (status: string)
    ensures status == "verified" <==> isVerified
    ensures status != "pending"
  {
    if isVerified then "verified" else "unverified"
  }

  /** `pricePerLiter ? Number(pricePerLiter) : null`: a price of 0 is falsy
      and is reported as no price. */
  function PriceShown(price: Option<real>): (shown: Option<real>)
    ensures shown.Some? <==> price.Some? && price.value != 0.0
    ensures shown.Some? ==> shown == price
  {
    if price.Some? && price.value != 0.0 then price else None
  }

  datatype OwnerSummary = OwnerSummary(id: Id, name: string, phone: Option<string>, email: string)

  datatype AdminPlantRow = AdminPlantRow(
    id: Id, name: string, address: string, operatingHours: Option<string>, tdsReading: Option<real>,
    pricePerLiter: Option<real>, description: Option<string>, photos: seq<string>,
    verificationStatus: string, isOpen: bool, viewCount: nat, owner: Option<OwnerSummary>)

  function OwnerOf(owners: seq<OwnerRow>, ownerId: Id): (o: Option<OwnerSummary>)
    ensures o.Some? ==> o.value.id == ownerId
  {
    match Find(owners, (x: OwnerRow) => x.id == ownerId)
    case None => None
    case Some(k) => Some(OwnerSummary(owners[k].id, owners[k].name, owners[k].phone, owners[k].email))
  }

  predicate ViewOfPlant(v: ViewLog, plantId: Id) { v.plantId == plantId }

  /** The number of logged views of one plant (`plant.viewLogs.length`). */
  function ViewCount(viewLogs: seq<ViewLog>, plantId: Id): nat
  {
    Count(viewLogs, (v: ViewLog) => ViewOfPlant(v, plantId))
  }

  /** A plant as the admin routes show it: the stored columns under their
      public names, the price and photos decoded, the view count and the
      owner's selected columns. */
  function RowOf(owners: seq<OwnerRow>, viewLogs: seq<ViewLog>, p: Plant): (row: AdminPlantRow)
    ensures row.id == p.id && row.name == p.name && row.address == p.address
    ensures row.operatingHours == p.operatingHours && row.tdsReading == p.tdsLevel && row.description == p.description
    ensures row.isOpen == p.isActive && row.verificationStatus == VerificationStatus(p.isVerified)
    ensures row.pricePerLiter == PriceShown(p.pricePerLiter) && row.photos == ParsePhotos(p.photos)
    ensures row.viewCount == ViewCount(viewLogs, p.id) && row.viewCount <= |viewLogs|
    ensures row.owner == OwnerOf(owners, p.ownerId)
  {
    AdminPlantRow(p.id, p.name, p.address, p.operatingHours, p.tdsLevel, PriceShown(p.pricePerLiter),
      p.description, ParsePhotos(p.photos), VerificationStatus(p.isVerified), p.isActive,
      ViewCount(viewLogs, p.id), OwnerOf(owners, p.ownerId))
  }

  // ---------------------------------------------------------------------
  // listPlants

  /** The `where` object of the listing. */
  datatype PlantWhere = PlantWhere(search: Option<string>, isActive: Option<bool>, isVerified: Option<bool>)

  /** `{name: {contains}}` or `{address: {contains}}`, case-sensitive. */
  predicate PlantSearchHit(p: Plant, search: string)
  {
    Includes(p.name, search) || Includes(p.address, search)
  }

  predicate PlantSatisfies(p: Plant, w: PlantWhere)
  {
    (w.search.Some? ==> PlantSearchHit(p, w.search.value)) &&
    (w.isActive.Some? ==> p.isActive == w.isActive.value) &&
    (w.isVerified.Some? ==> p.isVerified == w.isVerified.value)
  }

  /** The plants the listing's parameters select: 'open'/'closed' fix
      `isActive`, 'verified'/'unverified' fix `isVerified`, and any other
      value of either fixes nothing. */
  predicate PlantListed(p: Plant, search: Option<string>, status: Option<string>, verified: Option<string>)
  {
    (Given(search) ==> PlantSearchHit(p, search.value)) &&
    (status == Some("open") ==> p.isActive) &&
    (status == Some("closed") ==> !p.isActive) &&
    (verified == Some("verified") ==> p.isVerified) &&
    (verified == Some("unverified") ==> !p.isVerified)
  }

  /** The `where` object, filled in one conditional assignment at a time. */
  method BuildPlantWhere(search: Option<string>, status: Option<string>, verified: Option<string>)
    returns (w: PlantWhere)
    ensures w.search.Some? <==> Given(search)
    ensures w.isActive.Some? <==> status == Some("open") || status == Some("closed")
    ensures w.isVerified.Some? <==> verified == Some("verified") || verified == Some("unverified")
    ensures forall p :: PlantSatisfies(p, w) <==> PlantListed(p, search, status, verified)
  {
    w := PlantWhere(None, None, None);
    if Given(search) {
      w := w.(search := search);
    }
    if status == Some("open") {
      w := w.(isActive := Some(true));
    } else if status == Some("closed") {
      w := w.(isActive := Some(false));
    }
    if verified == Some("verified") {
      w := w.(isVerified := Some(true));
    } else if verified == Some("unverified") {
      w := w.(isVerified := Some(false));
    }
  }

  /** A status other than 'open' and 'closed', such as 'pending' for the
      verification filter, selects every plant it is asked about. */
  lemma UnknownFiltersSelectAll(p: Plant)
    ensures PlantListed(p, None, Some("all"), Some("pending"))
  {
  }

  /** The selected plants, newest first (the table keeps creation order). */
  function SelectedPlants(plants: seq<Plant>, search: Option<string>, status: Option<string>, verified: Option<string>)
    : (selected: seq<Plant>)
    ensures forall p :: p in selected ==> p in plants && PlantListed(p, search, status, verified)
    ensures forall i :: 0 <= i < |plants| && PlantListed(plants[i], search, status, verified) ==> plants[i] in selected
  {
    var kept := Filter(plants, (p: Plant) => PlantListed(p, search, status, verified));
    assert forall p :: p in Reverse(kept) <==> p in kept by {
      forall p | p in kept ensures p in Reverse(kept) {
        var i :| 0 <= i < |kept| && kept[i] == p;
        assert Reverse(kept)[|kept| - 1 - i] == p;
      }
    }
    Reverse(kept)
  }

  datatype PlantList = PlantList(data: seq<AdminPlantRow>, meta: Meta)

  /** GET /: page ≥ 1 (default 1), limit in [1, 100] (default 20). */
  method ListPlants(db: Db, page: Option<string>, limit: Option<string>,
                    search: Option<string>, status: Option<string>, verified: Option<string>)
    returns (r: PlantList)
    ensures var p := NumberPaginate(page, limit, 20, 100);
      var selected := SelectedPlants(db.plants, search, status, verified);
      var shown := TakePage(selected, p.skip, p.limit);
      r.meta == MetaOf(p, |selected|) && |r.data| == |shown| <= 100 &&
      forall i :: 0 <= i < |shown| ==> r.data[i] == RowOf(db.owners, db.viewLogs, shown[i])
  {
    var plants, owners, viewLogs := db.plants, db.owners, db.viewLogs;
    var p := NumberPaginate(page, limit, 20, 100);
    var w := BuildPlantWhere(search, status, verified);
    var kept := Filter(plants, (x: Plant) => PlantSatisfies(x, w));
    FilterSame(plants, (x: Plant) => PlantSatisfies(x, w), (x: Plant) => PlantListed(x, search, status, verified));
    var selected := Reverse(kept);
    assert selected == SelectedPlants(plants, search, status, verified);
    var shown := TakePage(selected, p.skip, p.limit);
    var rows := seq(|shown|, i requires 0 <= i < |shown| => RowOf(owners, viewLogs, shown[i]));
    r := PlantList(rows, MetaOf(p, |selected|));
  }


  // ---------------------------------------------------------------------
  // getPlantDetails

  datatype RequestSummary = RequestSummary(
    id: Id, status: RequestStatus, submittedAt: int, decidedAt: Option<int>, rejectionReason: Option<string>)

  datatype PlantDetail = PlantDetail(
    row: AdminPlantRow, verificationRequest: Option<RequestSummary>,
    conversationCount: nat, recentConversations: seq<Conversation>,
    totalViews: nat, weeklyViews: nat)

  predicate OfPlant(c: Conversation, plantId: Id) { c.plantId == plantId }

  predicate ViewedSince(v: ViewLog, plantId: Id, since: int) { v.plantId == plantId && v.viewedAt >= since }

  /** The plant's views logged at or after `since`; never more than all of
      its views. */
  function ViewsSince(viewLogs: seq<ViewLog>, plantId: Id, since: int): (n: nat)
    ensures n <= ViewCount(viewLogs, plantId)
  {
    CountMonotone(viewLogs, (v: ViewLog) => ViewedSince(v, plantId, since), (v: ViewLog) => ViewOfPlant(v, plantId));
    Count(viewLogs, (v: ViewLog) => ViewedSince(v, plantId, since))
  }

  function SummaryOf(r: VerificationRequest): RequestSummary
  {
    RequestSummary(r.id, r.status, r.createdAt, r.reviewedAt, r.rejectionReason)
  }

  /** GET :id: the plant's row, its latest request, at most five of its
      conversations, and its views overall and over the last seven days
      before `now`. */
  function GetPlantDetails(db: Db, id: Id): (r: Result<PlantDetail>)
    reads db
    ensures r.Err? <==> forall j :: 0 <= j < |db.plants| ==> db.plants[j].id != id
    ensures r.Err? ==> r.error == PlantNotFound
    ensures r.Ok? ==>
      r.value.row == RowOf(db.owners, db.viewLogs, db.plants[PlantIndex(db.plants, id).value]) &&
      r.value.row.id == id &&
      r.value.conversationCount == |r.value.recentConversations| &&
      r.value.conversationCount == Min(5, Count(db.conversations, (c: Conversation) => OfPlant(c, id))) &&
      r.value.conversationCount <= 5 &&
      (forall c :: c in r.value.recentConversations ==> c in db.conversations && c.plantId == id) &&
      r.value.verificationRequest ==
        (if LatestRequest(db.requests, id).Some? then Some(SummaryOf(LatestRequest(db.requests, id).value)) else None) &&
      r.value.totalViews == r.value.row.viewCount == ViewCount(db.viewLogs, id) &&
      r.value.weeklyViews == ViewsSince(db.viewLogs, id, db.clock - 7 * DAY_MS) &&
      r.value.weeklyViews <= r.value.totalViews
  {
    match PlantIndex(db.plants, id)
    case None => Err(PlantNotFound)
    case Some(k) =>
      var p := db.plants[k];
      var ofPlant := Filter(db.conversations, (c: Conversation) => OfPlant(c, id));
      var recent := TakePage(ofPlant, 0, 5);
      assert forall c :: c in recent ==> c in ofPlant by {
        forall c | c in recent ensures c in ofPlant {
          var i :| 0 <= i < |recent| && recent[i] == c;
          assert ofPlant[i] == c;
        }
      }
      var request := LatestRequest(db.requests, id);
      var total := ViewCount(db.viewLogs, id);
      var weekly := ViewsSince(db.viewLogs, id, db.clock - 7 * DAY_MS);
      Ok(PlantDetail(RowOf(db.owners, db.viewLogs, p),
        if request.Some? then Some(SummaryOf(request.value)) else None,
        |recent|, recent, total, weekly))
  }

  /** With unique plant ids, the detail of a stored plant shows exactly the
      row the listing shows for it, and totals agree with its view count. */
  lemma DetailRowIsListingRow(db: Db, k: nat)
    requires UniqueBy(db.plants, (p: Plant) => p.id) && k < |db.plants|
    ensures var r := GetPlantDetails(db, db.plants[k].id);
      r.Ok? && r.value.row == RowOf(db.owners, db.viewLogs, db.plants[k]) &&
      r.value.totalViews == ViewCount(db.viewLogs, db.plants[k].id)
  {
  }

  // ---------------------------------------------------------------------
  // updatePlant

  datatype PlantStatusRow = PlantStatusRow(id: Id, name: string, verificationStatus: string, isOpen: bool)

  /** PATCH :id: `isActive` and `isVerified` are written only when given. */
  method UpdatePlant(db: Db, id: Id, isActive: Option<bool>, isVerified: Option<bool>) returns (r: Result<PlantStatusRow>)
    requires db.Valid()
    modifies db`plants
    ensures db.Valid()
    ensures Find(old(db.plants), (p: Plant) => p.id == id).None? ==> r == Err(PlantNotFound) && db.plants == old(db.plants)
    ensures Find(old(db.plants), (p: Plant) => p.id == id).Some? ==>
      var k := Find(old(db.plants), (p: Plant) => p.id == id).value;
      var before := old(db.plants)[k];
      |db.plants| == |old(db.plants)| &&
      (forall j :: 0 <= j < |db.plants| && j != k ==> db.plants[j] == old(db.plants)[j]) &&
      db.plants[k] == before.(isActive := if isActive.Some? then isActive.value else before.isActive,
                              isVerified := if isVerified.Some? then isVerified.value else before.isVerified) &&
      r == Ok(PlantStatusRow(id, before.name, VerificationStatus(db.plants[k].isVerified), db.plants[k].isActive))
  {
    var found := Find(db.plants, (p: Plant) => p.id == id);
    if found.None? {
      return Err(PlantNotFound);
    }
    var k := found.value;
    var updated := db.plants[k];
    if isActive.Some? {
      updated := updated.(isActive := isActive.value);
    }
    if isVerified.Some? {
      updated := updated.(isVerified := isVerified.value);
    }
    UniqueUpdate(db.plants, k, updated, (p: Plant) => p.id);
    db.plants := db.plants[k := updated];
    r := Ok(PlantStatusRow(updated.id, updated.name, VerificationStatus(updated.isVerified), updated.isActive));
  }
}
