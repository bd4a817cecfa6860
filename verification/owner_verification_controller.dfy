/** `v1/owner/verification`: an owner asks for one of their plants to be
    verified, with or without uploaded documents, and reads their requests
    back. A plant never gets a second pending request from this side. */
module OwnerVerificationController {
  import opened Common
  import opened Store
  import opened Storage
  import opened Sync

  const PendingExists := Error(BadRequest, "A pending verification request already exists for this plant")
  const RequestNotFound := Error(NotFound, "Verification request not found")

  /** The row `verificationRequest.create` writes: pending, undecided. */
  function NewRequest(id: Id, plantId: Id, documents: seq<string>, notes: Option<string>, now: int)
    : (r: VerificationRequest)
    ensures r.status == Pending && r.reviewedAt.None? && r.reviewerId.None? && r.rejectionReason.None?
    ensures r.id == id && r.plantId == plantId && r.documents == documents && r.notes == notes && r.createdAt == now
  {
    VerificationRequest(id, plantId, documents, notes, Pending, None, None, None, now)
  }

  /** A pending request for a plant without one keeps at most one pending
      request per plant. */
  lemma AppendPendingKeepsSingle(requests: seq<VerificationRequest>, r: VerificationRequest)
    requires SinglePending(requests)
    requires PendingFor(requests, r.plantId).None?
    ensures SinglePending(requests + [r])
  {
    var t := requests + [r];
    forall i, j | 0 <= i < j < |t| && t[i].status == Pending && t[j].status == Pending
      ensures t[i].plantId != t[j].plantId
    {
      if j == |requests| {
        assert t[i] == requests[i];
      } else {
        assert t[i] == requests[i] && t[j] == requests[j];
      }
    }
  }

  /** The checks both submit routes make, in order: the plant is the
      caller's, and it has no pending request. */
  function SubmitCheck(plants: seq<Plant>, requests: seq<VerificationRequest>, ownerId: Id, plantId: Id)
    : (r: Result<bool>)
    ensures r.Ok? <==> OwnedPlant(plants, ownerId, plantId).Some? && PendingFor(requests, plantId).None?
    ensures OwnedPlant(plants, ownerId, plantId).None? ==> r == Err(PlantNotFound)
    ensures OwnedPlant(plants, ownerId, plantId).Some? && PendingFor(requests, plantId).Some? ==> r == Err(PendingExists)
  {
    if OwnedPlant(plants, ownerId, plantId).None? then Err(PlantNotFound)
    else if PendingFor(requests, plantId).Some? then Err(PendingExists)
    else Ok(true)
  }

  /** POST simple: a pending request with no documents; the admins and the
      owner hear `verification:created`. */
  method SubmitVerificationSimple(db: Db, sync: SyncGateway, ownerId: Id, plantId: Id, notes: Option<string>, newId: Id)
    returns (r: Result<VerificationRequest>)
    requires db.Valid()
    requires forall i :: 0 <= i < |db.requests| ==> db.requests[i].id != newId
    modifies db`requests, sync`log
    ensures db.Valid()
    ensures old(SinglePending(db.requests)) ==> SinglePending(db.requests)
    ensures SubmitCheck(db.plants, old(db.requests), ownerId, plantId).Err? ==>
      r == Err(SubmitCheck(db.plants, old(db.requests), ownerId, plantId).error) &&
      db.requests == old(db.requests) && sync.log == old(sync.log)
    ensures SubmitCheck(db.plants, old(db.requests), ownerId, plantId).Ok? ==>
      r == Ok(NewRequest(newId, plantId, [], notes, db.clock)) &&
      db.requests == old(db.requests) + [r.value] &&
      sync.log == old(sync.log) + VerificationCreatedRoute(ownerId)
  {
    var check := SubmitCheck(db.plants, db.requests, ownerId, plantId);
    if check.Err? {
      return Err(check.error);
    }
    var request := NewRequest(newId, plantId, [], notes, db.clock);
    if SinglePending(db.requests) {
      AppendPendingKeepsSingle(db.requests, request);
    }
    UniqueAppend(db.requests, request, (x: VerificationRequest) => x.id);
    db.requests := db.requests + [request];
    sync.NotifyVerificationCreated(ownerId);
    r := Ok(request);
  }

  /** The URL of a document stored from a file of that name. */
  function DocumentUrl(prefix: string, bucket: string, uuid: string, fileName: string): string
  {
    GetPublicUrl(prefix, bucket, ObjectKey(uuid, fileName))
  }

  /** The objects the first `n` uploads store. */
  function DocumentObjects(bucket: string, uuids: seq<string>, files: seq<string>, n: nat)
    : set<(string, string)>
    requires n <= |uuids| == |files|
  {
    if n == 0 then {}
    else DocumentObjects(bucket, uuids, files, n - 1) + {(bucket, ObjectKey(uuids[n - 1], files[n - 1]))}
  }

  /** The URLs of the first `n` uploads, in upload order. */
  function DocumentUrls(prefix: string, bucket: string, uuids: seq<string>, files: seq<string>, n: nat): seq<string>
    requires n <= |uuids| == |files|
  {
    if n == 0 then [] else DocumentUrls(prefix, bucket, uuids, files, n - 1) + [DocumentUrl(prefix, bucket, uuids[n - 1], files[n - 1])]
  }

  /** The list holds one URL per upload, each for its own file. */
  lemma {:induction false} DocumentUrlsAt(prefix: string, bucket: string, uuids: seq<string>, files: seq<string>, n: nat)
    requires n <= |uuids| == |files|
    ensures |DocumentUrls(prefix, bucket, uuids, files, n)| == n
    ensures forall j :: 0 <= j < n ==> DocumentUrls(prefix, bucket, uuids, files, n)[j] == DocumentUrl(prefix, bucket, uuids[j], files[j])
  {
    if n > 0 {
      DocumentUrlsAt(prefix, bucket, uuids, files, n - 1);
      var earlier := DocumentUrls(prefix, bucket, uuids, files, n - 1);
      var last := DocumentUrl(prefix, bucket, uuids[n - 1], files[n - 1]);
      assert DocumentUrls(prefix, bucket, uuids, files, n) == earlier + [last];
      forall j | 0 <= j < n
        ensures DocumentUrls(prefix, bucket, uuids, files, n)[j] == DocumentUrl(prefix, bucket, uuids[j], files[j])
      {
        if j < n - 1 {
          assert (earlier + [last])[j] == earlier[j];
        }
      }
    }
  }

  /** The stored objects are exactly the uploads' keys in the documents
      bucket. */
  lemma {:induction false} DocumentObjectsAt(bucket: string, uuids: seq<string>, files: seq<string>, n: nat)
    requires n <= |uuids| == |files|
    ensures forall o :: o in DocumentObjects(bucket, uuids, files, n) <==>
      exists j :: 0 <= j < n && o == (bucket, ObjectKey(uuids[j], files[j]))
  {
    if n > 0 {
      DocumentObjectsAt(bucket, uuids, files, n - 1);
    }
  }

  /** One turn of the upload loop: file `i` is stored and its URL appended. */
  method UploadNext(storage: ObjectStore, files: seq<string>, uuids: seq<string>, i: nat, urls: seq<string>)
    returns (next: seq<string>)
    requires i < |files| == |uuids|
    requires urls == DocumentUrls(storage.urlPrefix, storage.documentsBucket, uuids, files, i)
    modifies storage`objects
    ensures next == DocumentUrls(storage.urlPrefix, storage.documentsBucket, uuids, files, i + 1)
    ensures storage.objects == old(storage.objects) + {(storage.documentsBucket, ObjectKey(uuids[i], files[i]))}
  {
    var uploaded := storage.UploadDocument(uuids[i], files[i]);
    next := urls + [uploaded.url];
  }

  /** The upload loop: each file in turn goes to the documents bucket and
      its URL to the end of the list. */
  method UploadDocuments(storage: ObjectStore, files: seq<string>, uuids: seq<string>) returns (documentUrls: seq<string>)
    requires |uuids| == |files|
    modifies storage`objects
    ensures documentUrls == DocumentUrls(storage.urlPrefix, storage.documentsBucket, uuids, files, |files|)
    ensures storage.objects == old(storage.objects) + DocumentObjects(storage.documentsBucket, uuids, files, |files|)
  {
    documentUrls := [];
    var i := 0;
    while i < |files|
      invariant 0 <= i <= |files|
      invariant documentUrls == DocumentUrls(storage.urlPrefix, storage.documentsBucket, uuids, files, i)
      invariant storage.objects == old(storage.objects) + DocumentObjects(storage.documentsBucket, uuids, files, i)
    {
      documentUrls := UploadNext(storage, files, uuids, i, documentUrls);
      i := i + 1;
    }
  }

  /** POST: as the simple route, after uploading the files, in order, to the
      documents bucket; nothing is uploaded when a check fails. Each file is
      given by its original name, with the random part of its key beside it. */
  method SubmitVerification(db: Db, sync: SyncGateway, storage: ObjectStore, ownerId: Id, plantId: Id,
                            notes: Option<string>, files: seq<string>, uuids: seq<string>, newId: Id)
    returns (r: Result<VerificationRequest>)
    requires db.Valid()
    requires forall i :: 0 <= i < |db.requests| ==> db.requests[i].id != newId
    requires |uuids| == |files|
    modifies db`requests, sync`log, storage`objects
    ensures db.Valid()
    ensures old(SinglePending(db.requests)) ==> SinglePending(db.requests)
    ensures SubmitCheck(db.plants, old(db.requests), ownerId, plantId).Err? ==>
      r == Err(SubmitCheck(db.plants, old(db.requests), ownerId, plantId).error) &&
      db.requests == old(db.requests) && sync.log == old(sync.log) && storage.objects == old(storage.objects)
    ensures SubmitCheck(db.plants, old(db.requests), ownerId, plantId).Ok? ==>
      r.Ok? && r.value.id == newId && r.value.plantId == plantId && r.value.status == Pending &&
      db.requests == old(db.requests) + [r.value] &&
      sync.log == old(sync.log) + VerificationCreatedRoute(ownerId)
    ensures SubmitCheck(db.plants, old(db.requests), ownerId, plantId).Ok? ==>
      r.Ok? && r.value.documents == DocumentUrls(storage.urlPrefix, storage.documentsBucket, uuids, files, |files|) &&
      storage.objects == old(storage.objects) + DocumentObjects(storage.documentsBucket, uuids, files, |files|)
    ensures SubmitCheck(db.plants, old(db.requests), ownerId, plantId).Ok? ==>
      r == Ok(NewRequest(newId, plantId, DocumentUrls(storage.urlPrefix, storage.documentsBucket, uuids, files, |files|), notes, db.clock))
  {
    var check := SubmitCheck(db.plants, db.requests, ownerId, plantId);
    if check.Err? {
      return Err(check.error);
    }
    var documentUrls := UploadDocuments(storage, files, uuids);
    var request := NewRequest(newId, plantId, documentUrls, notes, db.clock);
    if SinglePending(db.requests) {
      AppendPendingKeepsSingle(db.requests, request);
    }
    UniqueAppend(db.requests, request, (x: VerificationRequest) => x.id);
    db.requests := db.requests + [request];
    sync.NotifyVerificationCreated(ownerId);
    r := Ok(request);
  }

  /** A request is the caller's when its plant is one of theirs. */
  predicate OwnsRequest(plants: seq<Plant>, ownerId: Id, r: VerificationRequest)
  {
    OwnedPlant(plants, ownerId, r.plantId).Some?
  }

  /** GET: the caller's requests, newest first. */
  function GetVerificationRequests(plants: seq<Plant>, requests: seq<VerificationRequest>, ownerId: Id)
    : (r: seq<VerificationRequest>)
    ensures forall x :: x in r ==> x in requests && OwnsRequest(plants, ownerId, x)
    ensures forall i :: 0 <= i < |requests| && OwnsRequest(plants, ownerId, requests[i]) ==> requests[i] in r
    ensures |r| == Count(requests, (x: VerificationRequest) => OwnsRequest(plants, ownerId, x))
  {
    var mine := Filter(requests, (x: VerificationRequest) => OwnsRequest(plants, ownerId, x));
    ReverseSameElements(mine);
    Reverse(mine)
  }

  /** GET :id: found only when the request's plant is the caller's. */
  function GetVerificationRequest(plants: seq<Plant>, requests: seq<VerificationRequest>, ownerId: Id, id: Id)
    : (r: Result<VerificationRequest>)
    ensures r.Err? <==> forall i :: 0 <= i < |requests| ==> !(requests[i].id == id && OwnsRequest(plants, ownerId, requests[i]))
    ensures r.Err? ==> r.error == RequestNotFound
    ensures r.Ok? ==> r.value in requests && r.value.id == id && OwnsRequest(plants, ownerId, r.value)
  {
    match Find(requests, (x: VerificationRequest) => x.id == id && OwnsRequest(plants, ownerId, x))
    case None => Err(RequestNotFound)
    case Some(k) => Ok(requests[k])
  }

  /** Two submissions in a row for one plant never both succeed: the second
      finds the first one pending. */
  lemma SecondSubmissionRefused(plants: seq<Plant>, requests: seq<VerificationRequest>, ownerId: Id,
                                plantId: Id, first: VerificationRequest)
    requires first.plantId == plantId && first.status == Pending
    ensures SubmitCheck(plants, requests + [first], ownerId, plantId).Err?
  {
    var t := requests + [first];
    assert t[|requests|] == first;
  }
}
