/** `Bookschema` of `src/model/book.js`: `title` is a required string of at least five
    characters, `author` a required reference, `published` a required number, and `genres`
    a single optional string. */
module BookSchema {
  import opened Wrappers
  import opened Mongoose

  const MinTitleLength: nat := 5

  /** A book document; exactly the paths the schema declares. */
  datatype BookDoc = BookDoc(title: Option<string>, genres: Option<string>,
                             author: Option<ObjectId>, published: Option<int>)

  /** `required` on a non-string path: the value is present. */
  function RequiredValue<T>(path: string, v: Option<T>): (r: Option<ValidatorError>)
    ensures r.None? <==> v.Some?
    ensures r.Some? ==> r.value == ValidatorError(path, Required)
  {
    if v.Some? then None else Some(ValidatorError(path, Required))
  }

  /** Validation of a book document: one report per validated path, in schema order. */
  function Validate(doc: BookDoc): (errs: seq<ValidatorError>)
    ensures errs == [] <==>
      doc.title.Some? && |doc.title.value| >= MinTitleLength && doc.author.Some? && doc.published.Some?
    ensures ValidatorError("author", Required) in errs <==> doc.author.None?
    ensures ValidatorError("published", Required) in errs <==> doc.published.None?
    ensures ValidatorError("title", Required) in errs <==> !RequiredString(doc.title)
    ensures ValidatorError("title", MinLength(MinTitleLength)) in errs <==>
      RequiredString(doc.title) && |doc.title.value| < MinTitleLength
    ensures |errs| <= 3
    ensures forall e :: e in errs ==>
      e == ValidatorError("title", Required) || e == ValidatorError("title", MinLength(MinTitleLength)) ||
      e == ValidatorError("author", Required) || e == ValidatorError("published", Required)
  {
    Errors([RequiredMinLength("title", doc.title, MinTitleLength),
            RequiredValue("author", doc.author),
            RequiredValue("published", doc.published)])
  }

  /** `genres` carries no validator: it never affects validation. */
  lemma GenresUnconstrained(doc: BookDoc, genres: Option<string>)
    ensures Validate(doc.(genres := genres)) == Validate(doc)
  {
  }
}
