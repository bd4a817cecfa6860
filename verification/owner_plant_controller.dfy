/** `v1/owner/plant`: an owner's own plants — listing, creation, updates,
    the photo list kept as a JSON text in the plant row, and share links.
    Every route is reached behind the owner guard, with the caller's id. */
module OwnerPlantController {
  import opened Common
  import opened Text
  import opened QueryParams
  import opened Store
  import opened Storage
  import opened Sync

  const NoFile := Error(BadRequest, "No file uploaded")
  const InvalidIndex := Error(BadRequest, "Invalid photo index")

  /** Column defaults of a created plant row. */
  const DefaultActive := true
  const DefaultVerified := false

  // ---------------------------------------------------------------------
  // The photo list

  /** `photos.filter((_, i) => i !== index)`: the list without the element at
      `index`, the others in their order. */
  function RemoveAt<T>(s: seq<T>, index: nat): (r: seq<T>)
    requires index < |s|
    ensures |r| == |s| - 1
    ensures forall j :: 0 <= j < index ==> r[j] == s[j]
    ensures forall j :: index <= j < |r| ==> r[j] == s[j + 1]
  {
    s[..index] + s[index + 1..]
  }

  /** Deleting the photo just appended gives back the list as it was. */
  lemma RemoveLastUndoesAppend<T>(s: seq<T>, x: T)
    ensures RemoveAt(s + [x], |s|) == s
  {
  }

  /** Every element but the removed one survives, and nothing else appears. */
  lemma RemoveAtMultiset<T>(s: seq<T>, index: nat)
    requires index < |s|
    ensures multiset(RemoveAt(s, index)) + multiset{s[index]} == multiset(s)
  {
    assert s == s[..index] + [s[index]] + s[index + 1..];
  }

  /** The bucket and key a photo URL names: its last two '/'-separated
      pieces, when it has two. */
  function PhotoObject(url: string): (o: Option<(string, string)>)
    ensures o.Some? <==> |Split(url, '/')| >= 2
  {
    var parts := Split(url, '/');
    if |parts| >= 2 then Some((parts[|parts| - 2], parts[|parts| - 1])) else None
  }

  /** A photo URL the storage service built names the object it stored. */
  lemma PhotoObjectOfPublicUrl(prefix: string, bucket: string, key: string)
    requires '/' !in bucket && '/' !in key
    ensures PhotoObject(GetPublicUrl(prefix, bucket, key)) == Some((bucket, key))
  {
    UrlRoundTrip(prefix, bucket, key);
  }

  // ---------------------------------------------------------------------
  // Lookups and views


  /** A plant as the reading routes return it: the row with its photo list
      decoded, and the included most recent verification request. */
  datatype PlantView = PlantView(plant: Plant, photos: seq<string>, latestRequest: Option<VerificationRequest>)

  /** A plant as the writing routes return it: the row with its photo list
      decoded, and no included request. */
  datatype PlantReply = PlantReply(plant: Plant, photos: seq<string>)

  function Decoded(p: Plant): PlantReply
  {
    PlantReply(p, ParsePhotos(p.photos))
  }

  /** The included request is the plant's newest one (the last in creation
      order), and there is none exactly when the plant has no request. */
  function ViewOf(requests: seq<VerificationRequest>, p: Plant): (v: PlantView)
    ensures v.plant == p && v.photos == ParsePhotos(p.photos)
    ensures v.latestRequest == LatestRequest(requests, p.id)
    ensures v.latestRequest.None? <==> forall i :: 0 <= i < |requests| ==> requests[i].plantId != p.id
    ensures v.latestRequest.Some? ==>
      v.latestRequest.value.plantId == p.id &&
      exists i :: 0 <= i < |requests| && requests[i] == v.latestRequest.value &&
        forall j :: i < j < |requests| ==> requests[j].plantId != p.id
  {
    PlantView(p, ParsePhotos(p.photos), LatestRequest(requests, p.id))
  }

  /** GET /: the caller's plants, in table order. */
  function GetPlants(plants: seq<Plant>, requests: seq<VerificationRequest>, ownerId: Id): (r: seq<PlantView>)
    ensures |r| == Count(plants, (p: Plant) => p.ownerId == ownerId)
    ensures forall i :: 0 <= i < |r| ==> r[i].plant in plants && r[i].plant.ownerId == ownerId
    ensures forall i :: 0 <= i < |plants| && plants[i].ownerId == ownerId ==> ViewOf(requests, plants[i]) in r
  {
    if plants == [] then []
    else if plants[0].ownerId == ownerId then [ViewOf(requests, plants[0])] + GetPlants(plants[1..], requests, ownerId)
    else GetPlants(plants[1..], requests, ownerId)
  }

  /** GET :id: found only among the caller's plants. */
  function GetPlant(plants: seq<Plant>, requests: seq<VerificationRequest>, ownerId: Id, id: Id): (r: Result<PlantView>)
    ensures r.Err? <==> OwnedPlant(plants, ownerId, id).None?
    ensures r.Err? ==> r.error == PlantNotFound
    ensures r.Ok? ==> r.value.plant in plants && r.value.plant.id == id && r.value.plant.ownerId == ownerId
  {
    match OwnedPlant(plants, ownerId, id)
    case None => Err(PlantNotFound)
    case Some(k) => Ok(ViewOf(requests, plants[k]))
  }

  // ---------------------------------------------------------------------
  // Creation and updates

  /** The fields of `CreatePlantDto`. */
  datatype NewPlant = NewPlant(
    name: string, address: string, latitude: real, longitude: real,
    phone: Option<string>, description: Option<string>, tdsLevel: Option<real>,
    pricePerLiter: Option<real>, operatingHours: Option<string>, photos: Option<seq<string>>)

  /** The optional fields of `UpdatePlantDto`; an absent field is left as is. */
  datatype PlantPatch = PlantPatch(
    name: Option<string>, address: Option<string>, latitude: Option<real>, longitude: Option<real>,
    phone: Option<string>, description: Option<string>, tdsLevel: Option<real>,
    pricePerLiter: Option<real>, operatingHours: Option<string>)

  function Or<T>(v: Option<T>, current: T): T
  {
    if v.Some? then v.value else current
  }

  /** The same for a nullable column. */
  function OrKeep<T>(v: Option<T>, current: Option<T>): Option<T>
  {
    if v.Some? then v else current
  }

  /** `plant.update({data: dto})`: each given field replaces the stored one. */
  function Patched(p: Plant, patch: PlantPatch): (q: Plant)
    ensures q.id == p.id && q.ownerId == p.ownerId && q.photos == p.photos
    ensures q.isActive == p.isActive && q.isVerified == p.isVerified && q.createdAt == p.createdAt
    ensures patch.name.None? ==> q.name == p.name
    ensures patch.name.Some? ==> q.name == patch.name.value
    ensures patch.phone.None? ==> q.phone == p.phone
    ensures patch.pricePerLiter.None? ==> q.pricePerLiter == p.pricePerLiter
  {
    Plant(p.id, p.ownerId, Or(patch.name, p.name), Or(patch.address, p.address),
          Or(patch.latitude, p.latitude), Or(patch.longitude, p.longitude),
          OrKeep(patch.phone, p.phone), OrKeep(patch.description, p.description),
          OrKeep(patch.tdsLevel, p.tdsLevel), OrKeep(patch.pricePerLiter, p.pricePerLiter),
          OrKeep(patch.operatingHours, p.operatingHours),
          p.photos, p.isActive, p.isVerified, p.createdAt)
  }

  /** An empty patch changes nothing, and a patch applied twice is applied once. */
  lemma PatchedIdempotent(p: Plant, patch: PlantPatch)
    ensures Patched(p, PlantPatch(None, None, None, None, None, None, None, None, None)) == p
    ensures Patched(Patched(p, patch), patch) == Patched(p, patch)
  {
  }

  /** POST /: the new row belongs to the caller, holds the given photos or
      `[]`, and every client hears `plant:created`. */
  method CreatePlant(db: Db, sync: SyncGateway, ownerId: Id, dto: NewPlant, newId: Id) returns (r: PlantReply)
    requires db.Valid()
    requires forall i :: 0 <= i < |db.plants| ==> db.plants[i].id != newId
    modifies db`plants, sync`log
    ensures db.Valid()
    ensures db.plants == old(db.plants) + [r.plant]
    ensures r.plant == Plant(newId, ownerId, dto.name, dto.address, dto.latitude, dto.longitude,
                             dto.phone, dto.description, dto.tdsLevel, dto.pricePerLiter, dto.operatingHours,
                             Stringify(if dto.photos.Some? then dto.photos.value else []),
                             DefaultActive, DefaultVerified, db.clock)
    ensures r.photos == (if dto.photos.Some? then dto.photos.value else [])
    ensures sync.log == old(sync.log) + PlantCreatedRoute()
  {
    var photos := if dto.photos.Some? then dto.photos.value else [];
    var p := Plant(newId, ownerId, dto.name, dto.address, dto.latitude, dto.longitude,
                   dto.phone, dto.description, dto.tdsLevel, dto.pricePerLiter, dto.operatingHours,
                   Stringify(photos), DefaultActive, DefaultVerified, db.clock);
    UniqueAppend(db.plants, p, (q: Plant) => q.id);
    db.plants := db.plants + [p];
    r := Decoded(p);
    sync.NotifyPlantCreated();
  }

  /** PATCH :id: only the caller's plant, with `plant:updated` to every client. */
  method UpdatePlant(db: Db, sync: SyncGateway, ownerId: Id, id: Id, patch: PlantPatch) returns (r: Result<PlantReply>)
    requires db.Valid()
    modifies db`plants, sync`log
    ensures db.Valid()
    ensures OwnedPlant(old(db.plants), ownerId, id).None? ==>
      r == Err(PlantNotFound) && db.plants == old(db.plants) && sync.log == old(sync.log)
    ensures OwnedPlant(old(db.plants), ownerId, id).Some? ==>
      var k := OwnedPlant(old(db.plants), ownerId, id).value;
      db.plants == old(db.plants)[k := Patched(old(db.plants)[k], patch)] &&
      r == Ok(Decoded(db.plants[k])) &&
      sync.log == old(sync.log) + PlantUpdatedRoute()
  {
    var found := OwnedPlant(db.plants, ownerId, id);
    if found.None? {
      return Err(PlantNotFound);
    }
    var k := found.value;
    var p := Patched(db.plants[k], patch);
    UniqueUpdate(db.plants, k, p, (q: Plant) => q.id);
    db.plants := db.plants[k := p];
    r := Ok(Decoded(p));
    sync.NotifyPlantUpdated();
  }

  /** PATCH :id/status: only `isActive` changes, and no event goes out. */
  method UpdatePlantStatus(db: Db, ownerId: Id, id: Id, isActive: bool) returns (r: Result<PlantReply>)
    requires db.Valid()
    modifies db`plants
    ensures db.Valid()
    ensures OwnedPlant(old(db.plants), ownerId, id).None? ==> r == Err(PlantNotFound) && db.plants == old(db.plants)
    ensures OwnedPlant(old(db.plants), ownerId, id).Some? ==>
      var k := OwnedPlant(old(db.plants), ownerId, id).value;
      db.plants == old(db.plants)[k := old(db.plants)[k].(isActive := isActive)] &&
      r == Ok(Decoded(db.plants[k]))
  {
    var found := OwnedPlant(db.plants, ownerId, id);
    if found.None? {
      return Err(PlantNotFound);
    }
    var k := found.value;
    var p := db.plants[k].(isActive := isActive);
    UniqueUpdate(db.plants, k, p, (q: Plant) => q.id);
    db.plants := db.plants[k := p];
    r := Ok(Decoded(p));
  }

  // ---------------------------------------------------------------------
  // Photos

  datatype UploadReply = UploadReply(url: string, photos: seq<string>)

  /** The URL of the photo stored from a file of that name. */
  function PhotoUrl(prefix: string, bucket: string, uuid: string, fileName: string): string
  {
    GetPublicUrl(prefix, bucket, ObjectKey(uuid, fileName))
  }

  /** The plant with one more photo at the end of its list. */
  function WithPhoto(p: Plant, url: string): (q: Plant)
    ensures q.id == p.id && q.ownerId == p.ownerId && q.isActive == p.isActive && q.isVerified == p.isVerified
    ensures ParsePhotos(q.photos) == ParsePhotos(p.photos) + [url]
  {
    p.(photos := Stringify(ParsePhotos(p.photos) + [url]))
  }

  /** POST :id/photos: a missing file is refused before any lookup; the
      stored object's URL goes to the end of the caller's plant's list. The
      uploaded file is given by its original name; `uuid` is the random part
      of its key. */
  method UploadPhoto(db: Db, storage: ObjectStore, ownerId: Id, id: Id, file: Option<string>, uuid: string)
    returns (r: Result<UploadReply>)
    requires db.Valid()
    modifies db`plants, storage`objects
    ensures db.Valid()
    ensures file.None? ==>
      r == Err(NoFile) && db.plants == old(db.plants) && storage.objects == old(storage.objects)
    ensures file.Some? && OwnedPlant(old(db.plants), ownerId, id).None? ==>
      r == Err(PlantNotFound) && db.plants == old(db.plants) && storage.objects == old(storage.objects)
    ensures file.Some? && OwnedPlant(old(db.plants), ownerId, id).Some? ==>
      storage.objects == old(storage.objects) + {(storage.photosBucket, ObjectKey(uuid, file.value))}
    ensures file.Some? && OwnedPlant(old(db.plants), ownerId, id).Some? ==>
      var k := OwnedPlant(old(db.plants), ownerId, id).value;
      db.plants == old(db.plants)[k := WithPhoto(old(db.plants)[k], PhotoUrl(storage.urlPrefix, storage.photosBucket, uuid, file.value))]
    ensures file.Some? && OwnedPlant(old(db.plants), ownerId, id).Some? ==>
      var k := OwnedPlant(old(db.plants), ownerId, id).value;
      var url := PhotoUrl(storage.urlPrefix, storage.photosBucket, uuid, file.value);
      r == Ok(UploadReply(url, ParsePhotos(old(db.plants)[k].photos) + [url]))
  {
    if file.None? {
      return Err(NoFile);
    }
    var found := OwnedPlant(db.plants, ownerId, id);
    if found.None? {
      return Err(PlantNotFound);
    }
    var k := found.value;
    var uploaded := storage.UploadPhoto(uuid, file.value);
    var current := ParsePhotos(db.plants[k].photos);
    current := current + [uploaded.url];
    var p := db.plants[k].(photos := Stringify(current));
    assert p == WithPhoto(db.plants[k], uploaded.url);
    UniqueUpdate(db.plants, k, p, (q: Plant) => q.id);
    db.plants := db.plants[k := p];
    r := Ok(UploadReply(uploaded.url, ParsePhotos(p.photos)));
  }

  /** The index `parseInt(photoIndex, 10)` reads, when it is a position of
      the list. */
  function PhotoIndex(photoIndex: string, count: nat): (index: Option<nat>)
    ensures index.Some? <==> ParseInt(photoIndex).Some? && 0 <= ParseInt(photoIndex).value < count
    ensures index.Some? ==> index.value == ParseInt(photoIndex).value
  {
    match ParseInt(photoIndex)
    case None => None
    case Some(i) => if i < 0 || i >= count then None else Some(i)
  }

  /** DELETE :id/photos/:photoIndex: the list loses exactly that element.
      The object the URL names is removed from storage when it can be; a
      failure there (`storageFails`) is swallowed and the list is updated
      all the same. */
  method DeletePhoto(db: Db, storage: ObjectStore, ownerId: Id, id: Id, photoIndex: string, storageFails: bool)
    returns (r: Result<seq<string>>)
    requires db.Valid()
    modifies db`plants, storage`objects
    ensures db.Valid()
    ensures OwnedPlant(old(db.plants), ownerId, id).None? ==>
      r == Err(PlantNotFound) && db.plants == old(db.plants) && storage.objects == old(storage.objects)
    ensures OwnedPlant(old(db.plants), ownerId, id).Some? ==>
      var k := OwnedPlant(old(db.plants), ownerId, id).value;
      var photos := ParsePhotos(old(db.plants)[k].photos);
      var index := PhotoIndex(photoIndex, |photos|);
      (index.None? ==>
        r == Err(InvalidIndex) && db.plants == old(db.plants) && storage.objects == old(storage.objects)) &&
      (index.Some? ==>
        r == Ok(RemoveAt(photos, index.value)) &&
        db.plants == old(db.plants)[k := old(db.plants)[k].(photos := Stringify(RemoveAt(photos, index.value)))] &&
        var o := PhotoObject(photos[index.value]);
        storage.objects == (if o.Some? && !storageFails then old(storage.objects) - {o.value} else old(storage.objects)))
  {
    var found := OwnedPlant(db.plants, ownerId, id);
    if found.None? {
      return Err(PlantNotFound);
    }
    var k := found.value;
    var photos := ParsePhotos(db.plants[k].photos);
    var index := PhotoIndex(photoIndex, |photos|);
    if index.None? {
      return Err(InvalidIndex);
    }
    var photoUrl := photos[index.value];
    var newPhotos := RemoveAt(photos, index.value);
    var o := PhotoObject(photoUrl);
    if o.Some? && !storageFails {
      storage.DeleteFile(o.value.0, o.value.1);
    }
    var p := db.plants[k].(photos := Stringify(newPhotos));
    UniqueUpdate(db.plants, k, p, (q: Plant) => q.id);
    db.plants := db.plants[k := p];
    r := Ok(ParsePhotos(p.photos));
  }

  /** Uploading a photo and then deleting the last one restores the list and
      removes the uploaded object (storage permitting), provided the bucket
      and the file name hold no '/'. */
  lemma UploadThenDeleteLast(prefix: string, bucket: string, photos: seq<string>, uuid: string, fileName: string)
    requires '/' !in uuid && '/' !in fileName && '/' !in bucket
    ensures var url := PhotoUrl(prefix, bucket, uuid, fileName);
      RemoveAt(photos + [url], |photos|) == photos &&
      PhotoObject((photos + [url])[|photos|]) == Some((bucket, ObjectKey(uuid, fileName)))
  {
    var key := ObjectKey(uuid, fileName);
    var ext := Extension(fileName);
    ExtensionIsAfterLastDot(fileName);
    assert key == uuid + "." + ext;
    assert '/' !in key by {
      forall i | 0 <= i < |ext| ensures ext[i] != '/' {
        assert ext[i] == fileName[|fileName| - |ext| + i];
      }
    }
    PhotoObjectOfPublicUrl(prefix, bucket, key);
    RemoveLastUndoesAppend(photos, GetPublicUrl(prefix, bucket, key));
  }

  // ---------------------------------------------------------------------
  // Share links

  datatype ShareInfo = ShareInfo(
    plantId: Id, plantName: string, shareUrl: string, qrData: string, deepLink: string, message: string)

  /** `process.env.PUBLIC_URL || 'https://flowgrid.app'`. */
  function PublicBase(env: map<string, string>): (base: string)
    ensures base != ""
    ensures "PUBLIC_URL" in env && env["PUBLIC_URL"] != "" ==> base == env["PUBLIC_URL"]
  {
    if "PUBLIC_URL" in env && env["PUBLIC_URL"] != "" then env["PUBLIC_URL"] else "https://flowgrid.app"
  }

  function ShareUrl(base: string, id: Id): string { base + "/p/" + id }
  function DeepLink(id: Id): string { "flowgrid://plant/" + id }

  /** Distinct plants get distinct share links and deep links. */
  lemma ShareLinksIdentifyPlant(base: string, a: Id, b: Id)
    ensures ShareUrl(base, a) == ShareUrl(base, b) <==> a == b
    ensures DeepLink(a) == DeepLink(b) <==> a == b
  {
    if ShareUrl(base, a) == ShareUrl(base, b) {
      assert a == ShareUrl(base, a)[|base| + 3..];
    }
    if DeepLink(a) == DeepLink(b) {
      assert a == DeepLink(a)[17..];
    }
  }

  /** GET :id/share: the public page and the app deep link of the caller's
      plant; the QR payload is the share URL itself. */
  function GetShareInfo(plants: seq<Plant>, env: map<string, string>, ownerId: Id, id: Id): (r: Result<ShareInfo>)
    ensures r.Err? <==> OwnedPlant(plants, ownerId, id).None?
    ensures r.Err? ==> r.error == PlantNotFound
    ensures r.Ok? ==>
      r.value.plantId == id &&
      r.value.shareUrl == ShareUrl(PublicBase(env), id) && r.value.qrData == r.value.shareUrl &&
      r.value.deepLink == DeepLink(id)
  {
    match OwnedPlant(plants, ownerId, id)
    case None => Err(PlantNotFound)
    case Some(k) =>
      var p := plants[k];
      var shareUrl := ShareUrl(PublicBase(env), p.id);
      Ok(ShareInfo(p.id, p.name, shareUrl, shareUrl, DeepLink(p.id),
        "Check out " + p.name + " on FlowGrid: " + shareUrl))
  }
}
