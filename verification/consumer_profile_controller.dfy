/** `v1/consumer/profile`: a consumer reads and edits their own profile. A
    new display name is stored lower-cased and must not belong to another
    consumer; only the fields given non-empty are written. */
module ConsumerProfileController {
  import opened Common
  import opened Text
  import opened QueryParams
  import opened Store
  import opened ConsumerAuthController

  /** The profile selection: every column but the password. */
  function GetProfile(consumers: seq<ConsumerRow>, userId: Id): (r: Option<ConsumerView>)
    ensures r.None? <==> ById(consumers, userId).None?
    ensures r.Some? ==> r.value == ViewOf(consumers[ById(consumers, userId).value]) && r.value.id == userId
  {
    match ById(consumers, userId)
    case None => None
    case Some(k) => Some(ViewOf(consumers[k]))
  }

  datatype ProfileForm = ProfileForm(name: Option<string>, displayName: Option<string>, phone: Option<string>)

  /** The uniqueness check, made only for a non-empty display name: the
      lower-cased name may be free or the caller's own. */
  function NameCheck(consumers: seq<ConsumerRow>, userId: Id, displayName: Option<string>): (r: Result<bool>)
    ensures r.Err? ==> r.error == DisplayNameTaken
    ensures !Given(displayName) ==> r.Ok?
    ensures r.Err? ==>
      Given(displayName) &&
      exists j :: 0 <= j < |consumers| && consumers[j].displayName == Lower(displayName.value) && consumers[j].id != userId
    ensures ConsumersOk(consumers) && Given(displayName) &&
      (exists j :: 0 <= j < |consumers| && consumers[j].displayName == Lower(displayName.value) && consumers[j].id != userId)
      ==> r.Err?
  {
    if !Given(displayName) then Ok(true)
    else match ByDisplayName(consumers, Lower(displayName.value))
      case None => Ok(true)
      case Some(k) => if consumers[k].id != userId then Err(DisplayNameTaken) else Ok(true)
  }

  /** The row after the update: each field given non-empty replaces the
      stored one, the display name lower-cased; the rest is kept. */
  function Edited(c: ConsumerRow, form: ProfileForm): (e: ConsumerRow)
    ensures e.id == c.id && e.email == c.email && e.password == c.password
    ensures e.readReceiptsEnabled == c.readReceiptsEnabled
    ensures e.name == (if Given(form.name) then form.name else c.name)
    ensures e.displayName == (if Given(form.displayName) then Lower(form.displayName.value) else c.displayName)
    ensures e.phone == (if Given(form.phone) then form.phone else c.phone)
  {
    c.(name := if Given(form.name) then form.name else c.name,
       displayName := if Given(form.displayName) then Lower(form.displayName.value) else c.displayName,
       phone := if Given(form.phone) then form.phone else c.phone)
  }

  /** PATCH: a name held by a different consumer is refused; updating a
      consumer that no longer exists fails in the database. */
  method UpdateProfile(db: Db, userId: Id, form: ProfileForm) returns (r: Result<ConsumerView>)
    requires db.Valid()
    modifies db`consumers
    ensures db.Valid()
    ensures LowerNames(old(db.consumers)) ==> LowerNames(db.consumers)
    ensures NameCheck(old(db.consumers), userId, form.displayName).Err? ==>
      r == Err(DisplayNameTaken) && db.consumers == old(db.consumers)
    ensures NameCheck(old(db.consumers), userId, form.displayName).Ok? && ById(old(db.consumers), userId).None? ==>
      r == Err(InternalError) && db.consumers == old(db.consumers)
    ensures NameCheck(old(db.consumers), userId, form.displayName).Ok? && ById(old(db.consumers), userId).Some? ==>
      var k := ById(old(db.consumers), userId).value;
      db.consumers == old(db.consumers)[k := Edited(old(db.consumers)[k], form)] &&
      r == Ok(ViewOf(Edited(old(db.consumers)[k], form)))
  {
    var check := NameCheck(db.consumers, userId, form.displayName);
    if check.Err? {
      return Err(DisplayNameTaken);
    }
    var found := ById(db.consumers, userId);
    if found.None? {
      return Err(InternalError);
    }
    var k := found.value;
    var e := Edited(db.consumers[k], form);
    UniqueUpdate(db.consumers, k, e, (x: ConsumerRow) => x.id);
    UniqueUpdate(db.consumers, k, e, (x: ConsumerRow) => x.email);
    if Given(form.displayName) {
      var holder := ByDisplayName(db.consumers, e.displayName);
      if holder.Some? {
        assert holder.value == k;
      }
      UniqueUpdateFresh(db.consumers, k, e, (x: ConsumerRow) => x.displayName);
      LowerIdempotent(form.displayName.value);
    } else {
      UniqueUpdate(db.consumers, k, e, (x: ConsumerRow) => x.displayName);
    }
    db.consumers := db.consumers[k := e];
    r := Ok(ViewOf(e));
  }

  /** Keeping one's own display name, in any case, is never a conflict. */
  lemma OwnNameAllowed(consumers: seq<ConsumerRow>, k: nat, name: string)
    requires ConsumersOk(consumers) && k < |consumers| && consumers[k].displayName == Lower(name)
    ensures NameCheck(consumers, consumers[k].id, Some(name)).Ok?
  {
    var first := ByDisplayName(consumers, Lower(name));
    assert first.Some?;
    assert consumers[first.value].displayName == consumers[k].displayName;
  }
}
