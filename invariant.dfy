/**
 * What the handlers keep true of the store, over any sequence of requests
 * starting from a consistent store (for instance the empty one): every record
 * sits under its own identifier, is still "available", has all five required
 * fields non-empty, and its image path names a file that was moved into blob
 * storage. The blob-storage log only ever grows.
 */
module PetInvariant {
  import opened Wrappers
  import opened Pets

  /** One stored record, as the handlers leave it. */
  predicate RecordConsistent(k: Id, p: Pet, files: seq<string>) {
    && p.id == k
    && p.status == Available
    && p.petname != "" && p.pettype != "" && p.petbreed != ""
    && p.petage != "" && p.location != ""
    && ImageDir <= p.image
    && p.image[|ImageDir|..] in files
  }

  /** A consistent record's image is the public path of a file that was moved. */
  lemma RecordImageMoved(k: Id, p: Pet, files: seq<string>)
    requires RecordConsistent(k, p, files)
    ensures exists name :: name in files && p.image == ImagePath(name)
  {
    var name := p.image[|ImageDir|..];
    assert p.image == ImagePath(name);
  }

  /** Every stored record is consistent; the empty collection, where the store starts, is. */
  predicate Consistent(db: Db)
    ensures db.pets == map[] ==> Consistent(db)
  {
    forall k :: k in db.pets ==> RecordConsistent(k, db.pets[k], db.files)
  }

  /** Create keeps the store consistent and only appends to the file log. */
  lemma CreatePreserves(db: Db, f: Form, file: Option<Upload>, newId: Id)
    requires Consistent(db) && newId !in db.pets
    ensures Consistent(Create(db, f, file, newId).db)
    ensures db.files <= Create(db, f, file, newId).db.files
  {
  }

  /** Update keeps the store consistent and only appends to the file log. */
  lemma UpdatePreserves(db: Db, validId: Id -> bool, id: Option<Id>, f: Form, file: Option<Upload>)
    requires Consistent(db)
    ensures Consistent(Update(db, validId, id, f, file).db)
    ensures db.files <= Update(db, validId, id, f, file).db.files
  {
  }

  /** Delete keeps the store consistent. */
  lemma DeletePreserves(db: Db, id: Id)
    requires Consistent(db)
    ensures Consistent(Delete(db, id).db)
  {
  }

  /** The longest identifier in a set of identifiers. */
  ghost function MaxLen(ks: set<Id>): (m: nat)
    ensures forall k :: k in ks ==> |k| <= m
    decreases ks
  {
    if ks == {} then 0
    else
      var k :| k in ks;
      var rest := MaxLen(ks - {k});
      if |k| <= rest then rest else |k|
  }

  /** An identifier the store does not yet use: one generator of unused identifiers. */
  ghost function FreshId(ks: set<Id>): (id: Id)
    ensures id !in ks
  {
    var id := seq(MaxLen(ks) + 1, _ => 'x');
    assert |id| > MaxLen(ks);
    id
  }

  /** The database's identifier generator: given the identifiers in use, it returns an unused one. */
  ghost predicate IsGenerator(gen: set<Id> -> Id) {
    forall ks :: gen(ks) !in ks
  }

  /** Generators exist, so the traces below are not vacuous. */
  lemma FreshIdIsGenerator()
    ensures IsGenerator(ks => FreshId(ks))
  {
  }

  /** A request to one of the handlers. */
  datatype Request =
    | CreateReq(f: Form, file: Option<Upload>)
    | UpdateReq(id: Option<Id>, f: Form, file: Option<Upload>)
    | GetByIdReq(key: Id)
    | DeleteReq(key: Id)
    | SearchReq(term: string)

  /** The outcome of one request; create receives the identifier the generator picks. */
  ghost function Step(db: Db, gen: set<Id> -> Id, validId: Id -> bool, matches: (string, string) -> bool, r: Request): Outcome
    requires IsGenerator(gen)
  {
    match r
    case CreateReq(f, file) => Create(db, f, file, gen(db.pets.Keys))
    case UpdateReq(id, f, file) => Update(db, validId, id, f, file)
    case GetByIdReq(id) => GetById(db, id)
    case DeleteReq(id) => Delete(db, id)
    case SearchReq(term) => Search(db, matches, term)
  }

  /** The store after handling the requests one after another. */
  ghost function Run(db: Db, gen: set<Id> -> Id, validId: Id -> bool, matches: (string, string) -> bool, rs: seq<Request>): Db
    requires IsGenerator(gen)
    decreases |rs|
  {
    if rs == [] then db
    else Run(Step(db, gen, validId, matches, rs[0]).db, gen, validId, matches, rs[1..])
  }

  /** Any single request keeps the store consistent and only appends to the file log. */
  lemma StepPreserves(db: Db, gen: set<Id> -> Id, validId: Id -> bool, matches: (string, string) -> bool, r: Request)
    requires IsGenerator(gen) && Consistent(db)
    ensures Consistent(Step(db, gen, validId, matches, r).db)
    ensures db.files <= Step(db, gen, validId, matches, r).db.files
  {
    match r
    case CreateReq(f, file) => CreatePreserves(db, f, file, gen(db.pets.Keys));
    case UpdateReq(id, f, file) => UpdatePreserves(db, validId, id, f, file);
    case GetByIdReq(id) =>
    case DeleteReq(id) => DeletePreserves(db, id);
    case SearchReq(term) =>
  }

  /** For every generator, every sequence of requests keeps the store consistent and only appends to the file log. */
  lemma {:induction false} RunPreserves(db: Db, gen: set<Id> -> Id, validId: Id -> bool, matches: (string, string) -> bool, rs: seq<Request>)
    requires IsGenerator(gen) && Consistent(db)
    ensures Consistent(Run(db, gen, validId, matches, rs))
    ensures db.files <= Run(db, gen, validId, matches, rs).files
    decreases |rs|
  {
    if rs != [] {
      var next := Step(db, gen, validId, matches, rs[0]).db;
      StepPreserves(db, gen, validId, matches, rs[0]);
      RunPreserves(next, gen, validId, matches, rs[1..]);
    }
  }
}
