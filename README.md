# Pet record controller, modelled in Dafny

This project models the request handlers of a pet-listing backend. The source is
`backend/src/controllers/pets.js`, and the handlers are create, update, getById,
delete and search. The model works on an abstract store:

- The document collection is a map from identifier to `Pet` record.
- Blob storage is a log of the file names moved into the public pets folder.
  On the `Store` object this log is a ghost field.
- An HTTP reply is a `Reply`. It is a status code with a document (or null),
  a listing of documents, or an error message.

The project is split into four files:

- `wrappers.dfy`: the `Option` type.
- `pets.dfy` (module `Pets`): the data model and the pure logic. This covers
  truthiness, the content-type check, the image path and the per-field merge.
  It also gives each handler as a function from the store before a request to
  an `Outcome`, which holds the store after the request and the reply.
- `invariant.dfy` (module `PetInvariant`): the consistency invariant of the
  store, and proofs that every handler preserves it. This includes any
  sequence of requests.
- `store.dfy` (module `PetStore`): class `Store`, holding the map and the log,
  with one imperative method per handler. Each method follows the source's
  order of checks and side effects. Update changes the loaded document field
  by field before saving it. Each method is proved equal to the matching
  function in `Pets`, and to keep the store consistent.

These collaborators are parameters:

- The database's identifier check (`mongoose.isValidObjectId`) is the function
  `validId`, given to the store when it is made.
- The identifier a new document gets on save is the `newId` argument of
  `Store.Create`. It must not be in use yet. In request traces it comes
  from any generator that never returns an identifier in use
  (`PetInvariant.IsGenerator`).
- The database's case-insensitive pattern match in search is the function
  `matches`. The model does not say what matching means.

## Model

| member | source | states |
|---|---|---|
| Pets.Create | backend/src/controllers/pets.js:16-51 | Without an image file the reply is 400 and nothing changes. If the content type does not start with "image", the reply is 400 and no file is moved. Otherwise the file is moved, and a missing or empty required field then gives 400 with the store unchanged. Success (201) happens exactly when all three checks pass. It adds exactly one record under the new identifier, leaves every other record alone, and the record holds the submitted values, status "available" and image "/public/pets/" + file name. The tests are `IsImageType` (the `startsWith('image')` of line 24) and `RequiredPresent` (all five fields of line 35 truthy in the sense of `Truthy`). The record is built by `NewPet` (lines 39-48). |
| Pets.Update | backend/src/controllers/pets.js:70-108 | A missing or empty identifier gives 400, then an identifier that fails the validity check gives 400, then an attached non-image gives 400. All three come before any move or lookup and change nothing. Past those checks an attached file is moved, found or not. An absent record gives 404 with the store unchanged. Success (200) happens exactly when the checks pass and the record exists. Only that record changes, to the merge of old and submitted values. The three checks of lines 71-85 together are `UpdateAdmitted`, which uses `Truthy` for `!petid` and `IsImageType` for line 83. |
| Pets.Merge | backend/src/controllers/pets.js:98-105 | Each of petname, pettype, petbreed, petage, description and location takes the submitted value when it is truthy and keeps the stored value otherwise, so an empty string keeps the old value. The image takes the new path when one is given. The id and status never change. Truthiness is `Truthy`: a field is truthy when it was sent and is not the empty string. The JavaScript "submitted or stored" choices of lines 99-105 are `Or`. Description uses `OrOpt`, because the field may itself be absent: an empty submitted description over an absent stored one stays absent. |
| Pets.AttachedPath | backend/src/controllers/pets.js:79-91 | A new image path exists exactly when a file was attached. It is "/public/pets/" + the file name and is always truthy, so a merge replaces the image only when a file was attached. |
| Pets.ImagePath | backend/src/controllers/pets.js:32 | A public image path is non-empty, starts with "/public/pets/", and the rest of it is the uploaded file name. Line 90 builds the same path. |
| Pets.Moved | backend/src/controllers/pets.js:30 | Moving an upload appends exactly its file name to the blob-storage log and keeps everything already there. Without a file the log is unchanged. The same move happens at line 88. |
| Pets.MergeIdempotent | backend/src/controllers/pets.js:98-105 | Applying the same update a second time changes nothing more. |
| Pets.MergeEmptyIsIdentity | backend/src/controllers/pets.js:98-105 | An update whose fields are all absent or empty and that has no file leaves the record unchanged. |
| Pets.GetById | backend/src/controllers/pets.js:124-132 | The reply is always 200. It holds a document exactly when the identifier is stored, and then it is that record. Nothing changes. |
| Pets.Delete | backend/src/controllers/pets.js:134-142 | The reply is always 200, with the removed record or null. Only that identifier leaves the store, every other record is unchanged, and the file log is untouched. |
| Pets.DeleteAbsentIsNoOp | backend/src/controllers/pets.js:137 | Deleting an identifier that is not stored leaves the store as it was. |
| Pets.GetAfterDelete | backend/src/controllers/pets.js:127-137 | After a delete, getById on that identifier replies 200 with null. |
| Pets.GetAfterCreate | backend/src/controllers/pets.js:39-51 | After a successful create, getById on the new identifier returns the document that create returned. |
| Pets.Search | backend/src/controllers/pets.js:144-160 | The reply is always 200. It lists exactly the stored records whose petname, pettype or petbreed matches the term, each as stored. Nothing changes. The `$or` over the three fields at lines 148-153 is `MatchesAny`. |
| PetInvariant.CreatePreserves | backend/src/controllers/pets.js:28-50 | Create keeps the store consistent and only appends to the file log. In a consistent store every record sits under its own id, is "available", has all five required fields non-empty, and has an image path naming a file in the log. |
| PetInvariant.UpdatePreserves | backend/src/controllers/pets.js:79-107 | Update keeps the store consistent and only appends to the file log. |
| PetInvariant.DeletePreserves | backend/src/controllers/pets.js:137 | Delete keeps the store consistent. |
| PetInvariant.RecordImageMoved | backend/src/controllers/pets.js:28-32 | In a record that satisfies `RecordConsistent`, the image is the public path of some file name in the blob-storage log. |
| PetInvariant.Consistent | backend/src/controllers/pets.js:39-50 | The empty collection, where the store starts, is consistent. Consistency means every record sits under its own id, is "available", has all five required fields non-empty, and has an image naming a moved file. That per-record condition is `RecordConsistent`. |
| PetInvariant.FreshId | backend/src/controllers/pets.js:50 | One generator of identifiers for new documents: the identifier it returns is never already in use. Its helper `MaxLen` bounds the length of every identifier in use. |
| PetInvariant.FreshIdIsGenerator | backend/src/controllers/pets.js:50 | FreshId meets the generator requirement, so the trace theorems below apply to at least one generator and are not vacuous. |
| PetInvariant.StepPreserves | backend/src/controllers/pets.js:6-160 | For any generator of unused identifiers, any single request keeps the store consistent and only appends to the file log. |
| PetInvariant.RunPreserves | backend/src/controllers/pets.js:6-160 | For any generator of unused identifiers, any sequence of requests from a consistent store keeps it consistent and only appends to the file log. |
| PetStore.Store.Create | backend/src/controllers/pets.js:16-51 | The imperative handler leaves the store, the file log and the reply exactly as `Pets.Create` says, and keeps the store consistent. |
| PetStore.Store.Update | backend/src/controllers/pets.js:70-108 | The handler updates the loaded document field by field, then saves it. The new store, the file log and the reply are exactly as `Pets.Update` says, and the store stays consistent. |
| PetStore.Store.GetById | backend/src/controllers/pets.js:124-132 | The reply is exactly the one `Pets.GetById` gives on the current store: always 200, with the stored record or null. |
| PetStore.Store.Delete | backend/src/controllers/pets.js:134-142 | Leaves the store and the reply exactly as `Pets.Delete` says, and keeps the store consistent. |
| PetStore.Store.Search | backend/src/controllers/pets.js:144-160 | The reply is exactly the one `Pets.Search` gives on the current store: always 200, listing exactly the stored records whose name, type or breed matches, each as stored. |

## Left out

- getAll (lines 115-122) returns the whole collection. It is a pass-through with nothing to state beyond "every stored record", so it is not modelled.
- Pets.Search: the meaning of the match is not modelled. The source gives the user's term to MongoDB as a case-insensitive regular expression, which is not literal substring matching. The model only states the OR over petname, pettype and petbreed against an abstract `matches`. The result is a map of the matching records, so the database's result order is not modelled.
- The database (Mongoose/MongoDB) is not modelled beyond a map. This covers `find`, `findById`, `save`, `findByIdAndDelete`, the ObjectId format and the schema in `../model/pets`. The schema is not part of this model. Because it is not visible, `petage` is modelled as the string a multipart form delivers, and no type casting by the schema is modelled.
- Pets.GetById, Pets.Delete: a malformed identifier makes the database throw a cast error, which the error responder turns into 500. This is not modelled, so both always reply 200, as for any collaborator failure.
- Collaborator failures are not modelled: a failing file move, a failing save, or a failing query. Each would be forwarded to the error responder as a 500.
- Several uploads under the `image` field arrive as an array, and the content-type check then throws. This is not modelled: an attached image is always one file.
- File-system I/O (`image.mv`, `path.join`) is only recorded as the file name appended to the blob-storage log. Overwriting an existing file of the same name is not modelled.
- Express plumbing (`req`, `res.status().send`, `next(error)`) is not modelled. The reply is a value.
- The construction of `http-errors` objects is not modelled. An error is its status code and message.
- async/await scheduling and concurrency between requests are not modelled. Requests are handled one after another.
- Identifier generation is not modelled beyond "unused". `Store.Create` takes the generated identifier as an argument. Request traces take any generator that returns an identifier not in use. The ObjectId format is not modelled, and neither is the guarantee that a deleted identifier is never issued again.
- The consistency invariant is proved for stores built only through these handlers. A collection seeded by other means need not satisfy it.
