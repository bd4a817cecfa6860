/** `v1/admin` dashboard: the headline counts and the plant, owner and
    consumer listings, each searchable case-insensitively. */
module AdminDashboardController {
  import opened Common
  import opened Text
  import opened QueryParams
  import opened Store

  // ---------------------------------------------------------------------
  // dashboard/stats

  datatype DashboardStats = DashboardStats(
    totalPlants: nat, verifiedPlants: nat, unverifiedPlants: int,
    totalOwners: nat, totalConsumers: nat, pendingVerifications: nat)

  predicate IsVerified(p: Plant) { p.isVerified }
  predicate IsUnverified(p: Plant) { !p.isVerified }
  predicate IsPending(r: VerificationRequest) { r.status == Pending }

  /** The unverified count is the difference of two counts, and it is
      exactly the number of unverified plants. */
  function GetDashboardStats(plants: seq<Plant>, owners: seq<OwnerRow>, consumers: seq<ConsumerRow>,
                             requests: seq<VerificationRequest>): (s: DashboardStats)
    ensures s.totalPlants == |plants| && s.totalOwners == |owners| && s.totalConsumers == |consumers|
    ensures s.verifiedPlants == Count(plants, IsVerified)
    ensures s.unverifiedPlants == Count(plants, IsUnverified)
    ensures s.verifiedPlants + s.unverifiedPlants == s.totalPlants
    ensures s.pendingVerifications == Count(requests, IsPending)
  {
    CountSplit(plants, IsVerified, IsUnverified);
    var verified := Count(plants, IsVerified);
    DashboardStats(|plants|, verified, |plants| - verified, |owners|, |consumers|, Count(requests, IsPending))
  }

  /** The plants that have a pending request. */
  function PendingPlantIds(requests: seq<VerificationRequest>): set<Id>
  {
    set i | 0 <= i < |requests| && requests[i].status == Pending :: requests[i].plantId
  }

  function PlantIds(plants: seq<Plant>): set<Id>
  {
    set i | 0 <= i < |plants| :: plants[i].id
  }

  lemma SinglePendingTail(requests: seq<VerificationRequest>)
    requires requests != [] && SinglePending(requests)
    ensures SinglePending(requests[1..])
  {
    var rest := requests[1..];
    forall i, j | 0 <= i < j < |rest| && rest[i].status == Pending && rest[j].status == Pending
      ensures rest[i].plantId != rest[j].plantId
    {
      assert rest[i] == requests[i + 1] && rest[j] == requests[j + 1];
    }
  }

  /** The pending plants of a table are its head's, if pending, and its
      tail's. */
  lemma PendingPlantIdsCons(requests: seq<VerificationRequest>)
    requires requests != []
    ensures PendingPlantIds(requests)
      == (if requests[0].status == Pending then {requests[0].plantId} else {}) + PendingPlantIds(requests[1..])
  {
    var rest := requests[1..];
    var head := if requests[0].status == Pending then {requests[0].plantId} else {};
    forall id | id in PendingPlantIds(requests) ensures id in head + PendingPlantIds(rest) {
      var i :| 0 <= i < |requests| && requests[i].status == Pending && requests[i].plantId == id;
      if i > 0 {
        assert rest[i - 1] == requests[i];
      }
    }
    forall id | id in PendingPlantIds(rest) ensures id in PendingPlantIds(requests) {
      var i :| 0 <= i < |rest| && rest[i].status == Pending && rest[i].plantId == id;
      assert requests[i + 1] == rest[i];
    }
  }

  /** A pending head's plant has no other pending request. */
  lemma PendingHeadIsNew(requests: seq<VerificationRequest>)
    requires requests != [] && SinglePending(requests) && requests[0].status == Pending
    ensures requests[0].plantId !in PendingPlantIds(requests[1..])
  {
    var rest := requests[1..];
    forall i | 0 <= i < |rest| && rest[i].status == Pending ensures rest[i].plantId != requests[0].plantId {
      assert rest[i] == requests[i + 1];
    }
  }

  lemma {:induction false} PendingCountIsPlantCount(requests: seq<VerificationRequest>)
    requires SinglePending(requests)
    ensures Count(requests, IsPending) == |PendingPlantIds(requests)|
  {
    if requests != [] {
      SinglePendingTail(requests);
      PendingCountIsPlantCount(requests[1..]);
      PendingPlantIdsCons(requests);
      if requests[0].status == Pending {
        PendingHeadIsNew(requests);
      }
    }
  }

  lemma {:induction false} PlantIdsBound(plants: seq<Plant>)
    ensures |PlantIds(plants)| <= |plants|
  {
    if plants != [] {
      var rest := plants[1..];
      PlantIdsBound(rest);
      assert PlantIds(plants) <= {plants[0].id} + PlantIds(rest) by {
        forall id | id in PlantIds(plants) ensures id in {plants[0].id} + PlantIds(rest) {
          var i :| 0 <= i < |plants| && plants[i].id == id;
          if i > 0 {
            assert rest[i - 1] == plants[i];
          }
        }
      }
      SubsetCard(PlantIds(plants), {plants[0].id} + PlantIds(rest));
    }
  }

  /** Because a plant never has two pending requests, and every request
      names a plant, the pending count never exceeds the plant count. */
  lemma PendingAtMostPlants(plants: seq<Plant>, owners: seq<OwnerRow>, consumers: seq<ConsumerRow>,
                            requests: seq<VerificationRequest>)
    requires SinglePending(requests) && RequestPlantsExist(requests, plants)
    ensures GetDashboardStats(plants, owners, consumers, requests).pendingVerifications
         <= GetDashboardStats(plants, owners, consumers, requests).totalPlants
  {
    PendingCountIsPlantCount(requests);
    PlantIdsBound(plants);
    assert PendingPlantIds(requests) <= PlantIds(plants) by {
      forall id | id in PendingPlantIds(requests) ensures id in PlantIds(plants) {
        var i :| 0 <= i < |requests| && requests[i].status == Pending && requests[i].plantId == id;
        var k := PlantIndex(plants, id).value;
        assert plants[k].id == id;
      }
    }
    SubsetCard(PendingPlantIds(requests), PlantIds(plants));
  }

  // ---------------------------------------------------------------------
  // plants

  /** The `where` of the plant listing. */
  datatype PlantWhere = PlantWhere(search: Option<string>, isVerified: Option<bool>)

  /** `OR: [{name: {contains}}, {address: {contains}}]`, insensitive. */
  predicate PlantSearchHit(p: Plant, search: string)
  {
    ContainsIgnoringCase(p.name, search) || ContainsIgnoringCase(p.address, search)
  }

  predicate PlantSatisfies(p: Plant, w: PlantWhere)
  {
    (w.search.Some? ==> PlantSearchHit(p, w.search.value)) &&
    (w.isVerified.Some? ==> p.isVerified == w.isVerified.value)
  }

  /** The plants the parameters select: a non-empty search must hit the
      name or the address; 'true' and 'false' fix `isVerified`, and any
      other value fixes nothing. */
  predicate PlantListed(p: Plant, search: Option<string>, verified: Option<string>)
  {
    (Given(search) ==> PlantSearchHit(p, search.value)) &&
    (verified == Some("true") ==> p.isVerified) &&
    (verified == Some("false") ==> !p.isVerified)
  }

  method BuildPlantWhere(search: Option<string>, verified: Option<string>) returns (w: PlantWhere)
    ensures w.search.Some? <==> Given(search)
    ensures w.isVerified == (if verified == Some("true") then Some(true)
                             else if verified == Some("false") then Some(false) else None)
    ensures forall p :: PlantSatisfies(p, w) <==> PlantListed(p, search, verified)
  {
    w := PlantWhere(None, None);
    if Given(search) {
      w := w.(search := search);
    }
    if verified == Some("true") {
      w := w.(isVerified := Some(true));
    } else if verified == Some("false") {
      w := w.(isVerified := Some(false));
    }
  }

  /** The plant's owner, as `include: {owner: {select: {id, name, email}}}`. */
  datatype OwnerBrief = OwnerBrief(id: Id, name: string, email: string)

  datatype PlantRow = PlantRow(plant: Plant, owner: Option<OwnerBrief>)

  function BriefOf(owners: seq<OwnerRow>, ownerId: Id): (o: Option<OwnerBrief>)
    ensures o.Some? <==> exists i :: 0 <= i < |owners| && owners[i].id == ownerId
    ensures o.Some? ==> o.value.id == ownerId
  {
    match Find(owners, (x: OwnerRow) => x.id == ownerId)
    case None => None
    case Some(k) => Some(OwnerBrief(owners[k].id, owners[k].name, owners[k].email))
  }

  /** The selected plants, newest first (the table keeps creation order). */
  function SelectedPlants(plants: seq<Plant>, search: Option<string>, verified: Option<string>): (q: seq<Plant>)
    ensures forall p :: p in q ==> p in plants && PlantListed(p, search, verified)
    ensures forall i :: 0 <= i < |plants| && PlantListed(plants[i], search, verified) ==> plants[i] in q
    ensures |q| == Count(plants, (p: Plant) => PlantListed(p, search, verified))
  {
    var kept := Filter(plants, (p: Plant) => PlantListed(p, search, verified));
    ReverseSameElements(kept);
    Reverse(kept)
  }

  datatype PlantList = PlantList(plants: seq<PlantRow>, meta: Meta)

  /** GET plants: page ≥ 1 (default 1), limit in [1, 50] (default 20). */
  method GetPlants(db: Db, page: string, limit: string, search: Option<string>, verified: Option<string>)
    returns (r: PlantList)
    ensures var p := Paginate(page, limit, 20, 50);
      var selected := SelectedPlants(db.plants, search, verified);
      var shown := TakePage(selected, p.skip, p.limit);
      r.meta == MetaOf(p, |selected|) && |r.plants| == |shown| <= 50 &&
      forall i :: 0 <= i < |shown| ==> r.plants[i] == PlantRow(shown[i], BriefOf(db.owners, shown[i].ownerId))
  {
    var plants, owners := db.plants, db.owners;
    var p := Paginate(page, limit, 20, 50);
    var w := BuildPlantWhere(search, verified);
    var kept := Filter(plants, (x: Plant) => PlantSatisfies(x, w));
    FilterSame(plants, (x: Plant) => PlantSatisfies(x, w), (x: Plant) => PlantListed(x, search, verified));
    var selected := Reverse(kept);
    assert selected == SelectedPlants(plants, search, verified);
    var shown := TakePage(selected, p.skip, p.limit);
    var rows := seq(|shown|, i requires 0 <= i < |shown| => PlantRow(shown[i], BriefOf(owners, shown[i].ownerId)));
    r := PlantList(rows, MetaOf(p, |selected|));
  }

  /** Filtering on 'true' and on 'false' splits the plants between them,
      while any other value lists them all. */
  lemma VerifiedFilterSplits(plants: seq<Plant>, other: string)
    requires other != "true" && other != "false"
    ensures |SelectedPlants(plants, None, Some("true"))| + |SelectedPlants(plants, None, Some("false"))| == |plants|
    ensures |SelectedPlants(plants, None, Some(other))| == |plants|
  {
    CountSplit(plants, (p: Plant) => PlantListed(p, None, Some("true")), (p: Plant) => PlantListed(p, None, Some("false")));
    CountPartition(plants, (p: Plant) => PlantListed(p, None, Some(other)), (p: Plant) => false);
    CountZero(plants, (p: Plant) => false);
  }

  // ---------------------------------------------------------------------
  // owners and consumers

  /** `OR: [{name: {contains}}, {email: {contains}}]`, insensitive; a
      consumer without a name can only match on the email. */
  predicate PersonSearchHit(name: Option<string>, email: string, search: string)
  {
    (name.Some? && ContainsIgnoringCase(name.value, search)) || ContainsIgnoringCase(email, search)
  }

  /** The `where` of the owner and consumer listings: a search or nothing. */
  method BuildPersonWhere(search: Option<string>) returns (w: Option<string>)
    ensures w.Some? <==> Given(search)
    ensures w.Some? ==> w == search
  {
    w := None;
    if Given(search) {
      w := search;
    }
  }

  predicate OwnerListed(o: OwnerRow, search: Option<string>)
  {
    Given(search) ==> PersonSearchHit(Some(o.name), o.email, search.value)
  }

  predicate ConsumerListed(c: ConsumerRow, search: Option<string>)
  {
    Given(search) ==> PersonSearchHit(c.name, c.email, search.value)
  }

  /** An owner as listed: no password, and the number of plants. */
  datatype OwnerListRow = OwnerListRow(id: Id, name: string, email: string, phone: Option<string>, plantCount: nat)

  /** A consumer as listed: no password. */
  datatype ConsumerListRow = ConsumerListRow(id: Id, name: Option<string>, email: string, phone: Option<string>)

  function OwnerListRowOf(plants: seq<Plant>, o: OwnerRow): (row: OwnerListRow)
    ensures row.id == o.id && row.email == o.email
    ensures row.plantCount == Count(plants, (p: Plant) => p.ownerId == o.id)
  {
    OwnerListRow(o.id, o.name, o.email, o.phone, Count(plants, (p: Plant) => p.ownerId == o.id))
  }

  function SelectedOwners(owners: seq<OwnerRow>, search: Option<string>): (q: seq<OwnerRow>)
    ensures forall o :: o in q ==> o in owners && OwnerListed(o, search)
    ensures forall i :: 0 <= i < |owners| && OwnerListed(owners[i], search) ==> owners[i] in q
    ensures |q| == Count(owners, (o: OwnerRow) => OwnerListed(o, search))
  {
    var kept := Filter(owners, (o: OwnerRow) => OwnerListed(o, search));
    ReverseSameElements(kept);
    Reverse(kept)
  }

  function SelectedConsumers(consumers: seq<ConsumerRow>, search: Option<string>): (q: seq<ConsumerRow>)
    ensures forall c :: c in q ==> c in consumers && ConsumerListed(c, search)
    ensures forall i :: 0 <= i < |consumers| && ConsumerListed(consumers[i], search) ==> consumers[i] in q
    ensures |q| == Count(consumers, (c: ConsumerRow) => ConsumerListed(c, search))
  {
    var kept := Filter(consumers, (c: ConsumerRow) => ConsumerListed(c, search));
    ReverseSameElements(kept);
    Reverse(kept)
  }

  datatype OwnerList = OwnerList(owners: seq<OwnerListRow>, meta: Meta)
  datatype ConsumerList = ConsumerList(consumers: seq<ConsumerListRow>, meta: Meta)

  /** GET owners: page ≥ 1 (default 1), limit in [1, 50] (default 20). */
  method GetOwners(db: Db, page: string, limit: string, search: Option<string>) returns (r: OwnerList)
    ensures var p := Paginate(page, limit, 20, 50);
      var selected := SelectedOwners(db.owners, search);
      var shown := TakePage(selected, p.skip, p.limit);
      r.meta == MetaOf(p, |selected|) && |r.owners| == |shown| <= 50 &&
      forall i :: 0 <= i < |shown| ==> r.owners[i] == OwnerListRowOf(db.plants, shown[i])
  {
    var owners, plants := db.owners, db.plants;
    var p := Paginate(page, limit, 20, 50);
    var w := BuildPersonWhere(search);
    var kept := Filter(owners, (o: OwnerRow) => w.Some? ==> PersonSearchHit(Some(o.name), o.email, w.value));
    FilterSame(owners, (o: OwnerRow) => w.Some? ==> PersonSearchHit(Some(o.name), o.email, w.value),
               (o: OwnerRow) => OwnerListed(o, search));
    var selected := Reverse(kept);
    assert selected == SelectedOwners(owners, search);
    var shown := TakePage(selected, p.skip, p.limit);
    var rows := seq(|shown|, i requires 0 <= i < |shown| => OwnerListRowOf(plants, shown[i]));
    r := OwnerList(rows, MetaOf(p, |selected|));
  }

  /** GET consumers: page ≥ 1 (default 1), limit in [1, 50] (default 20). */
  method GetConsumers(db: Db, page: string, limit: string, search: Option<string>) returns (r: ConsumerList)
    ensures var p := Paginate(page, limit, 20, 50);
      var selected := SelectedConsumers(db.consumers, search);
      var shown := TakePage(selected, p.skip, p.limit);
      r.meta == MetaOf(p, |selected|) && |r.consumers| == |shown| <= 50 &&
      forall i :: 0 <= i < |shown| ==>
        r.consumers[i] == ConsumerListRow(shown[i].id, shown[i].name, shown[i].email, shown[i].phone)
  {
    var consumers := db.consumers;
    var p := Paginate(page, limit, 20, 50);
    var w := BuildPersonWhere(search);
    var kept := Filter(consumers, (c: ConsumerRow) => w.Some? ==> PersonSearchHit(c.name, c.email, w.value));
    FilterSame(consumers, (c: ConsumerRow) => w.Some? ==> PersonSearchHit(c.name, c.email, w.value),
               (c: ConsumerRow) => ConsumerListed(c, search));
    var selected := Reverse(kept);
    assert selected == SelectedConsumers(consumers, search);
    var shown := TakePage(selected, p.skip, p.limit);
    var rows := seq(|shown|, i requires 0 <= i < |shown| =>
      ConsumerListRow(shown[i].id, shown[i].name, shown[i].email, shown[i].phone));
    r := ConsumerList(rows, MetaOf(p, |selected|));
  }

  /** An empty search is no search: every row is listed. */
  lemma EmptySearchListsAll(owners: seq<OwnerRow>, consumers: seq<ConsumerRow>)
    ensures |SelectedOwners(owners, Some(""))| == |owners|
    ensures |SelectedConsumers(consumers, Some(""))| == |consumers|
  {
    CountPartition(owners, (o: OwnerRow) => OwnerListed(o, Some("")), (o: OwnerRow) => false);
    CountZero(owners, (o: OwnerRow) => false);
    CountPartition(consumers, (c: ConsumerRow) => ConsumerListed(c, Some("")), (c: ConsumerRow) => false);
    CountZero(consumers, (c: ConsumerRow) => false);
  }
}
