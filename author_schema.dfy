/** `AuthorSchema` of `src/model/Author.js` with the `mongoose-unique-validator` plugin:
    `name` is a required string of at least four characters, unique among the stored
    authors; `born`, `bookCount` and `books` are optional and unconstrained. */
module AuthorSchema {
  import opened Wrappers
  import opened Mongoose

  const MinNameLength: nat := 4

  /** An author document; exactly the paths the schema declares. `books` is a single
      reference, not a list. */
  datatype AuthorDoc = AuthorDoc(name: Option<string>, born: Option<int>, bookCount: Option<int>,
                                 books: Option<ObjectId>)

  /** Some stored author already has this name. */
  predicate NameInUse(stored: seq<AuthorDoc>, name: Option<string>) {
    exists i :: 0 <= i < |stored| && stored[i].name == name
  }

  /** The one validated path, `name`: `required`, then `minlength`, then the plugin's
      uniqueness check against the stored authors. */
  function NameError(stored: seq<AuthorDoc>, name: Option<string>): Option<ValidatorError> {
    var own := RequiredMinLength("name", name, MinNameLength);
    if own.Some? then own
    else if NameInUse(stored, name) then Some(ValidatorError("name", Unique))
    else None
  }

  /** Validation of a new author document against the stored ones. */
  function Validate(stored: seq<AuthorDoc>, doc: AuthorDoc): (errs: seq<ValidatorError>)
    ensures errs == [] <==>
      doc.name.Some? && |doc.name.value| >= MinNameLength && !NameInUse(stored, doc.name)
    ensures |errs| <= 1 && forall e :: e in errs ==> e.path == "name"
    ensures !RequiredString(doc.name) ==> errs == [ValidatorError("name", Required)]
    ensures RequiredString(doc.name) && |doc.name.value| < MinNameLength ==>
      errs == [ValidatorError("name", MinLength(MinNameLength))]
    ensures doc.name.Some? && |doc.name.value| >= MinNameLength && NameInUse(stored, doc.name) ==>
      errs == [ValidatorError("name", Unique)]
  {
    Errors([NameError(stored, doc.name)])
  }

  /** Every stored author passes its own validators and no two share a name. */
  predicate CollectionValid(stored: seq<AuthorDoc>) {
    && (forall i :: 0 <= i < |stored| ==> RequiredMinLength("name", stored[i].name, MinNameLength).None?)
    && (forall i, j :: 0 <= i < j < |stored| ==> stored[i].name != stored[j].name)
  }

  /** `save` of a new document: stored at the end when it validates, refused otherwise. */
  function Save(stored: seq<AuthorDoc>, doc: AuthorDoc): (r: Result<seq<AuthorDoc>, seq<ValidatorError>>)
    ensures r.Ok? <==> Validate(stored, doc) == []
    ensures r.Ok? ==> r.value == stored + [doc]
    ensures r.Err? ==> r.error == Validate(stored, doc) && r.error != []
  {
    var errs := Validate(stored, doc);
    if errs == [] then Ok(stored + [doc]) else Err(errs)
  }

  /** Saving keeps the collection valid: the unique validator is what keeps names distinct. */
  lemma SaveKeepsCollectionValid(stored: seq<AuthorDoc>, doc: AuthorDoc)
    requires CollectionValid(stored)
    ensures Save(stored, doc).Ok? ==> CollectionValid(Save(stored, doc).value)
  {
  }

  /** `born`, `bookCount` and `books` carry no validator: they never affect validation. */
  lemma OptionalPathsUnconstrained(stored: seq<AuthorDoc>, doc: AuthorDoc,
                                   born: Option<int>, bookCount: Option<int>, books: Option<ObjectId>)
    ensures Validate(stored, doc.(born := born, bookCount := bookCount, books := books)) ==
            Validate(stored, doc)
  {
  }
}
