/**
 * The pet-record controller as pure functions over an abstract store.
 *
 * The document database is a map from identifier to Pet record; blob storage
 * is the log of file names that were moved into the public pets folder. Every
 * handler is a function from the store before the request to an Outcome:
 * the store after it and the reply sent (a status code with a document, a
 * listing, or an error message).
 */
module Pets {
  import opened Wrappers

  type Id = string

  /** An uploaded file: its original file name and its declared content type. */
  datatype Upload = Upload(name: string, mimetype: string)

  /** The text fields of a create or update form; a field not sent is None. */
  datatype Form = Form(
    petname: Option<string>,
    pettype: Option<string>,
    petbreed: Option<string>,
    petage: Option<string>,
    description: Option<string>,
    location: Option<string>)

  /** A stored pet document. */
  datatype Pet = Pet(
    id: Id,
    petname: string,
    pettype: string,
    petbreed: string,
    petage: string,
    description: Option<string>,
    location: string,
    image: string,
    status: string)

  /** What a handler sends: a document (or null), a listing of documents, or an HTTP error. */
  datatype Reply =
    | Ok(code: int, doc: Option<Pet>)
    | Listing(code: int, docs: map<Id, Pet>)
    | Err(code: int, msg: string)

  /** The document store and the blob-storage log of moved file names. */
  datatype Db = Db(pets: map<Id, Pet>, files: seq<string>)

  datatype Outcome = Outcome(db: Db, reply: Reply)

  const ImageDir := "/public/pets/"
  const Available := "available"

  const MsgImageRequired := "Image is required and must be sent as form-data"
  const MsgOnlyImages := "Only image files are allowed"
  const MsgRequiredFields := "Please provide all the required fields"
  const MsgNoId := "Please provide pet ID"
  const MsgInvalidId := "Invalid pet ID"
  const MsgNotFound := "Pet not found"

  /** JavaScript truthiness of a form field: sent and not the empty string. */
  predicate Truthy(o: Option<string>) {
    o.Some? && o.value != ""
  }

  /** `given || current` on a required field. */
  function Or(given: Option<string>, current: string): string {
    if Truthy(given) then given.value else current
  }

  /** `given || current` on a field that may itself be absent. */
  function OrOpt(given: Option<string>, current: Option<string>): Option<string> {
    if Truthy(given) then given else current
  }

  /** The content-type check `mimetype.startsWith('image')`. */
  predicate IsImageType(mimetype: string) {
    "image" <= mimetype
  }

  /** The public path under which a moved upload is served. */
  function ImagePath(name: string): (r: string)
    ensures r != ""
    ensures ImageDir <= r && r[|ImageDir|..] == name
  {
    ImageDir + name
  }

  /** The five fields create insists on. */
  predicate RequiredPresent(f: Form) {
    Truthy(f.petname) && Truthy(f.pettype) && Truthy(f.petbreed) &&
    Truthy(f.petage) && Truthy(f.location)
  }

  /** The document create builds from a validated form and a moved upload. */
  function NewPet(id: Id, f: Form, image: Upload): Pet
    requires RequiredPresent(f)
  {
    Pet(id, f.petname.value, f.pettype.value, f.petbreed.value, f.petage.value,
        f.description, f.location.value, ImagePath(image.name), Available)
  }

  /**
   * The per-field truthy merge of update: each field takes the submitted value
   * when it is truthy and keeps the stored one otherwise; `pth` is the new image
   * path when a file was attached.
   */
  function Merge(p: Pet, f: Form, pth: Option<string>): (r: Pet)
    ensures r.id == p.id && r.status == p.status
    ensures Truthy(f.petname) ==> r.petname == f.petname.value
    ensures !Truthy(f.petname) ==> r.petname == p.petname
    ensures Truthy(f.pettype) ==> r.pettype == f.pettype.value
    ensures !Truthy(f.pettype) ==> r.pettype == p.pettype
    ensures Truthy(f.petbreed) ==> r.petbreed == f.petbreed.value
    ensures !Truthy(f.petbreed) ==> r.petbreed == p.petbreed
    ensures Truthy(f.petage) ==> r.petage == f.petage.value
    ensures !Truthy(f.petage) ==> r.petage == p.petage
    ensures Truthy(f.description) ==> r.description == f.description
    ensures !Truthy(f.description) ==> r.description == p.description
    ensures Truthy(f.location) ==> r.location == f.location.value
    ensures !Truthy(f.location) ==> r.location == p.location
    ensures Truthy(pth) ==> r.image == pth.value
    ensures !Truthy(pth) ==> r.image == p.image
  {
    p.(petname := Or(f.petname, p.petname),
       pettype := Or(f.pettype, p.pettype),
       petbreed := Or(f.petbreed, p.petbreed),
       petage := Or(f.petage, p.petage),
       image := Or(pth, p.image),
       description := OrOpt(f.description, p.description),
       location := Or(f.location, p.location))
  }

  /** Merging the same request twice changes nothing more than merging it once. */
  lemma MergeIdempotent(p: Pet, f: Form, pth: Option<string>)
    ensures Merge(Merge(p, f, pth), f, pth) == Merge(p, f, pth)
  {
  }

  /** A request whose fields are all absent or empty, with no file, leaves the record as it was. */
  lemma MergeEmptyIsIdentity(p: Pet, f: Form)
    requires !Truthy(f.petname) && !Truthy(f.pettype) && !Truthy(f.petbreed)
    requires !Truthy(f.petage) && !Truthy(f.description) && !Truthy(f.location)
    ensures Merge(p, f, None) == p
  {
  }

  /** The image path update computes: present exactly when a file was attached. */
  function AttachedPath(file: Option<Upload>): (pth: Option<string>)
    ensures pth.Some? <==> file.Some?
    ensures file.Some? ==> pth.value == ImagePath(file.value.name) && Truthy(pth)
  {
    if file.Some? then Some(ImagePath(file.value.name)) else None
  }

  /** The log after an upload has been moved: the upload's name appended. */
  function Moved(files: seq<string>, file: Option<Upload>): (r: seq<string>)
    ensures files <= r
    ensures |r| == |files| + (if file.Some? then 1 else 0)
    ensures file.Some? ==> r[|files|] == file.value.name
  {
    if file.Some? then files + [file.value.name] else files
  }

  /**
   * Create. Checks, in this order: an image file is attached, its content type
   * starts with "image"; then moves the file; then checks the required fields;
   * then stores a new available record under the identifier the store generated.
   */
  function Create(db: Db, f: Form, file: Option<Upload>, newId: Id): (o: Outcome)
    requires newId !in db.pets
    // no file: 400, nothing stored, nothing moved
    ensures file.None? ==> o == Outcome(db, Err(400, MsgImageRequired))
    // not an image: 400 before any file move
    ensures file.Some? && !IsImageType(file.value.mimetype) ==>
              o == Outcome(db, Err(400, MsgOnlyImages))
    // an image type: the file has been moved, whatever happens next
    ensures file.Some? && IsImageType(file.value.mimetype) ==>
              o.db.files == db.files + [file.value.name]
    // missing required field: 400 after the move, store unchanged
    ensures file.Some? && IsImageType(file.value.mimetype) && !RequiredPresent(f) ==>
              o.db.pets == db.pets && o.reply == Err(400, MsgRequiredFields)
    ensures o.reply.Ok? <==>
              file.Some? && IsImageType(file.value.mimetype) && RequiredPresent(f)
    ensures o.reply.Err? ==> o.reply.code == 400 && o.db.pets == db.pets
    // success: exactly one new record, the submitted values, available, with the image path
    ensures o.reply.Ok? ==>
              && o.reply.code == 201
              && o.db.pets.Keys == db.pets.Keys + {newId}
              && (forall k :: k in db.pets ==> o.db.pets[k] == db.pets[k])
              && o.reply.doc == Some(o.db.pets[newId])
              && o.db.pets[newId].id == newId
              && o.db.pets[newId].status == Available
              && o.db.pets[newId].image == ImageDir + file.value.name
              && Some(o.db.pets[newId].petname) == f.petname
              && Some(o.db.pets[newId].pettype) == f.pettype
              && Some(o.db.pets[newId].petbreed) == f.petbreed
              && Some(o.db.pets[newId].petage) == f.petage
              && o.db.pets[newId].description == f.description
              && Some(o.db.pets[newId].location) == f.location
  {
    if file.None? then
      Outcome(db, Err(400, MsgImageRequired))
    else if !IsImageType(file.value.mimetype) then
      Outcome(db, Err(400, MsgOnlyImages))
    else
      var files := Moved(db.files, file);
      if !RequiredPresent(f) then
        Outcome(db.(files := files), Err(400, MsgRequiredFields))
      else
        var pet := NewPet(newId, f, file.value);
        Outcome(Db(db.pets[newId := pet], files), Ok(201, Some(pet)))
  }

  /** The checks update makes before touching blob storage or the store. */
  predicate UpdateAdmitted(validId: Id -> bool, id: Option<Id>, file: Option<Upload>) {
    Truthy(id) && validId(id.value) && (file.Some? ==> IsImageType(file.value.mimetype))
  }

  /**
   * Update. Checks the identifier is present and well formed; if a file is
   * attached, checks its type and moves it; then looks the record up (404 when
   * absent) and applies the truthy merge.
   */
  function Update(db: Db, validId: Id -> bool, id: Option<Id>, f: Form, file: Option<Upload>): (o: Outcome)
    // identifier checks come first: 400, no move, no lookup
    ensures !Truthy(id) ==> o == Outcome(db, Err(400, MsgNoId))
    ensures Truthy(id) && !validId(id.value) ==> o == Outcome(db, Err(400, MsgInvalidId))
    ensures Truthy(id) && validId(id.value) && file.Some? && !IsImageType(file.value.mimetype) ==>
              o == Outcome(db, Err(400, MsgOnlyImages))
    // past those checks an attached file has been moved, found or not
    ensures UpdateAdmitted(validId, id, file) ==> o.db.files == Moved(db.files, file)
    ensures UpdateAdmitted(validId, id, file) && id.value !in db.pets ==>
              o.db.pets == db.pets && o.reply == Err(404, MsgNotFound)
    ensures o.reply.Ok? <==> UpdateAdmitted(validId, id, file) && id.value in db.pets
    ensures o.reply.Err? ==> o.db.pets == db.pets
    // success: only the addressed record changes, and it becomes the merge
    ensures o.reply.Ok? ==>
              && o.reply.code == 200
              && o.db.pets.Keys == db.pets.Keys
              && (forall k :: k in db.pets && k != id.value ==> o.db.pets[k] == db.pets[k])
              && o.db.pets[id.value] == Merge(db.pets[id.value], f, AttachedPath(file))
              && o.reply.doc == Some(o.db.pets[id.value])
  {
    if !Truthy(id) then
      Outcome(db, Err(400, MsgNoId))
    else if !validId(id.value) then
      Outcome(db, Err(400, MsgInvalidId))
    else if file.Some? && !IsImageType(file.value.mimetype) then
      Outcome(db, Err(400, MsgOnlyImages))
    else
      var files := Moved(db.files, file);
      if id.value !in db.pets then
        Outcome(db.(files := files), Err(404, MsgNotFound))
      else
        var pet := Merge(db.pets[id.value], f, AttachedPath(file));
        Outcome(Db(db.pets[id.value := pet], files), Ok(200, Some(pet)))
  }

  /** getById: always 200, with the stored document or null; nothing changes. */
  function GetById(db: Db, id: Id): (o: Outcome)
    ensures o.db == db && o.reply.Ok? && o.reply.code == 200
    ensures o.reply.doc.Some? <==> id in db.pets
    ensures id in db.pets ==> o.reply.doc.value == db.pets[id]
  {
    Outcome(db, Ok(200, if id in db.pets then Some(db.pets[id]) else None))
  }

  /** delete: always 200 with the removed document or null; only that identifier goes. */
  function Delete(db: Db, id: Id): (o: Outcome)
    ensures o.reply.Ok? && o.reply.code == 200
    ensures o.reply.doc.Some? <==> id in db.pets
    ensures id in db.pets ==> o.reply.doc.value == db.pets[id]
    ensures o.db.files == db.files
    ensures id !in o.db.pets && o.db.pets.Keys == db.pets.Keys - {id}
    ensures forall k :: k in o.db.pets ==> o.db.pets[k] == db.pets[k]
  {
    Outcome(Db(db.pets - {id}, db.files), Ok(200, if id in db.pets then Some(db.pets[id]) else None))
  }

  /** Deleting an identifier that is not stored leaves the store as it was. */
  lemma DeleteAbsentIsNoOp(db: Db, id: Id)
    requires id !in db.pets
    ensures Delete(db, id).db == db
  {
  }

  /** After a delete, looking the identifier up yields null. */
  lemma GetAfterDelete(db: Db, id: Id)
    ensures GetById(Delete(db, id).db, id).reply == Ok(200, None)
  {
  }

  /** After a successful create, looking the new identifier up yields the stored document. */
  lemma GetAfterCreate(db: Db, f: Form, file: Option<Upload>, newId: Id)
    requires newId !in db.pets
    requires Create(db, f, file, newId).reply.Ok?
    ensures GetById(Create(db, f, file, newId).db, newId).reply.doc == Create(db, f, file, newId).reply.doc
  {
  }

  /** A record matches a search term when its name, type or breed matches it. */
  predicate MatchesAny(matches: (string, string) -> bool, term: string, p: Pet) {
    matches(term, p.petname) || matches(term, p.pettype) || matches(term, p.petbreed)
  }

  /**
   * search: always 200 with exactly the stored records whose name, type or
   * breed matches the term; `matches` stands for the database's
   * case-insensitive pattern match.
   */
  function Search(db: Db, matches: (string, string) -> bool, term: string): (o: Outcome)
    ensures o.db == db && o.reply.Listing? && o.reply.code == 200
    ensures forall k :: k in o.reply.docs <==> k in db.pets && MatchesAny(matches, term, db.pets[k])
    ensures forall k :: k in o.reply.docs ==> o.reply.docs[k] == db.pets[k]
  {
    Outcome(db, Listing(200, map k | k in db.pets && MatchesAny(matches, term, db.pets[k]) :: db.pets[k]))
  }
}
