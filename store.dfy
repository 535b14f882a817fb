/**
 * The request handlers as methods on a store object. The document collection
 * is the `pets` map, updated in place; blob storage is the ghost log `files`
 * of moved file names. The database's identifier check and its search match
 * are collaborators handed to the store when it is made; the identifier a new
 * document gets comes from the database on save and is passed to Create.
 * Each handler is proved to do exactly what the function of the same name in
 * Pets says, and to keep the store consistent.
 */
module PetStore {
  import opened Wrappers
  import opened Pets
  import opened PetInvariant

  class Store {
    var pets: map<Id, Pet>
    ghost var files: seq<string>
    const validId: Id -> bool
    const matches: (string, string) -> bool

    ghost function State(): Db
      reads this
    {
      Db(pets, files)
    }

    ghost predicate Valid()
      reads this
    {
      Consistent(State())
    }

    constructor (validId: Id -> bool, matches: (string, string) -> bool)
      ensures Valid()
      ensures pets == map[] && files == []
      ensures this.validId == validId && this.matches == matches
    {
      pets := map[];
      files := [];
      this.validId := validId;
      this.matches := matches;
    }

    /** POST /pets, with `newId` the identifier the database assigns on save. */
    method Create(f: Form, file: Option<Upload>, newId: Id) returns (reply: Reply)
      requires Valid()
      requires newId !in pets
      modifies this
      ensures Valid()
      ensures Outcome(State(), reply) == Pets.Create(old(State()), f, file, newId)
    {
      CreatePreserves(State(), f, file, newId);
      if file.None? {
        return Err(400, MsgImageRequired);
      }
      var image := file.value;
      if !IsImageType(image.mimetype) {
        return Err(400, MsgOnlyImages);
      }
      files := files + [image.name];
      var path := ImagePath(image.name);
      if !RequiredPresent(f) {
        return Err(400, MsgRequiredFields);
      }
      var pet := Pet(newId, f.petname.value, f.pettype.value, f.petbreed.value, f.petage.value,
                     f.description, f.location.value, path, Available);
      pets := pets[newId := pet];
      reply := Ok(201, Some(pet));
    }

    /** PUT /pets/:id: identifier checks, optional image move, lookup, field-by-field merge, save. */
    method Update(id: Option<Id>, f: Form, file: Option<Upload>) returns (reply: Reply)
      requires Valid()
      modifies this
      ensures Valid()
      ensures Outcome(State(), reply) == Pets.Update(old(State()), validId, id, f, file)
    {
      UpdatePreserves(State(), validId, id, f, file);
      if !Truthy(id) {
        return Err(400, MsgNoId);
      }
      var petid := id.value;
      if !validId(petid) {
        return Err(400, MsgInvalidId);
      }
      var pth: Option<string> := None;
      if file.Some? {
        var image := file.value;
        if !IsImageType(image.mimetype) {
          return Err(400, MsgOnlyImages);
        }
        files := files + [image.name];
        pth := Some(ImagePath(image.name));
      }
      if petid !in pets {
        return Err(404, MsgNotFound);
      }
      var pet := pets[petid];
      pet := pet.(petname := Or(f.petname, pet.petname));
      pet := pet.(pettype := Or(f.pettype, pet.pettype));
      pet := pet.(petbreed := Or(f.petbreed, pet.petbreed));
      pet := pet.(petage := Or(f.petage, pet.petage));
      pet := pet.(image := Or(pth, pet.image));
      pet := pet.(description := OrOpt(f.description, pet.description));
      pet := pet.(location := Or(f.location, pet.location));
      pets := pets[petid := pet];
      reply := Ok(200, Some(pet));
    }

    /** GET /pets/:id: the stored document or null, always 200. */
    method GetById(id: Id) returns (reply: Reply)
      ensures Outcome(State(), reply) == Pets.GetById(State(), id)
    {
      var found: Option<Pet> := None;
      if id in pets {
        found := Some(pets[id]);
      }
      reply := Ok(200, found);
    }

    /** DELETE /pets/:id: removes that identifier only, replying with what was there. */
    method Delete(id: Id) returns (reply: Reply)
      requires Valid()
      modifies this
      ensures Valid()
      ensures Outcome(State(), reply) == Pets.Delete(old(State()), id)
    {
      DeletePreserves(State(), id);
      var found: Option<Pet> := None;
      if id in pets {
        found := Some(pets[id]);
      }
      pets := pets - {id};
      reply := Ok(200, found);
    }

    /** GET /pets/search/:search: the records whose name, type or breed matches. */
    method Search(term: string) returns (reply: Reply)
      ensures Outcome(State(), reply) == Pets.Search(State(), matches, term)
    {
      var found := map k | k in pets && MatchesAny(matches, term, pets[k]) :: pets[k];
      reply := Listing(200, found);
    }
  }
}
