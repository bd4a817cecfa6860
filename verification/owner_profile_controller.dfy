/** `v1/owner/profile`: an owner reads their profile with the number of
    their plants, and edits their name and phone. */
module OwnerProfileController {
  import opened Common
  import opened QueryParams
  import opened Store
  import opened OwnerAuthController

  datatype OwnerProfile = OwnerProfile(id: Id, email: string, name: string, phone: Option<string>, plantCount: nat)

  /** GET: no row for the caller gives an empty answer (`null`). */
  function GetProfile(owners: seq<OwnerRow>, plants: seq<Plant>, userId: Id): (r: Option<OwnerProfile>)
    ensures r.None? <==> OwnerIndex(owners, userId).None?
    ensures r.Some? ==>
      var o := owners[OwnerIndex(owners, userId).value];
      r.value == OwnerProfile(o.id, o.email, o.name, o.phone, Count(plants, (p: Plant) => p.ownerId == userId))
  {
    match OwnerIndex(owners, userId)
    case None => None
    case Some(k) =>
      var o := owners[k];
      Some(OwnerProfile(o.id, o.email, o.name, o.phone, Count(plants, (p: Plant) => p.ownerId == o.id)))
  }

  datatype OwnerProfileForm = OwnerProfileForm(name: Option<string>, phone: Option<string>)

  /** The row after the update: a name or phone given non-empty replaces the
      stored one; nothing else changes. */
  function EditedOwner(o: OwnerRow, form: OwnerProfileForm): (e: OwnerRow)
    ensures e.id == o.id && e.email == o.email && e.password == o.password
    ensures e.readReceiptsEnabled == o.readReceiptsEnabled
    ensures e.name == (if Given(form.name) then form.name.value else o.name)
    ensures e.phone == (if Given(form.phone) then form.phone else o.phone)
  {
    o.(name := if Given(form.name) then form.name.value else o.name,
       phone := if Given(form.phone) then form.phone else o.phone)
  }

  /** An update with nothing given leaves the row as it was. */
  lemma EmptyFormChangesNothing(o: OwnerRow, form: OwnerProfileForm)
    requires !Given(form.name) && !Given(form.phone)
    ensures EditedOwner(o, form) == o
  {
  }

  /** PATCH: updating an owner that no longer exists fails in the database. */
  method UpdateProfile(db: Db, userId: Id, form: OwnerProfileForm) returns (r: Result<OwnerView>)
    requires db.Valid()
    modifies db`owners
    ensures db.Valid()
    ensures OwnerIndex(old(db.owners), userId).None? ==> r == Err(InternalError) && db.owners == old(db.owners)
    ensures OwnerIndex(old(db.owners), userId).Some? ==>
      var k := OwnerIndex(old(db.owners), userId).value;
      db.owners == old(db.owners)[k := EditedOwner(old(db.owners)[k], form)] &&
      r == Ok(OwnerViewOf(EditedOwner(old(db.owners)[k], form)))
  {
    var found := OwnerIndex(db.owners, userId);
    if found.None? {
      return Err(InternalError);
    }
    var k := found.value;
    var e := EditedOwner(db.owners[k], form);
    UniqueUpdate(db.owners, k, e, (x: OwnerRow) => x.id);
    UniqueUpdate(db.owners, k, e, (x: OwnerRow) => x.email);
    db.owners := db.owners[k := e];
    r := Ok(OwnerViewOf(e));
  }
}
