# Library GraphQL core, modelled in Dafny

This project models the three pieces of the book/author GraphQL API that carry decisions:

- **The in-memory library of `code.js`.** Two module-level arrays, `authors` and `books`, are
  seeded with five authors and seven books. The query resolvers read them: `bookCount`,
  `authorCount`, `allBooks(author, genre)`, `allAuthors` (each entry gets a derived
  `bookCount`), `findBook(id)` and `findAuthor(id)`. The mutation resolvers reassign them:
  `addBook` (the title must be unique), `addAuthor` (the name must be unique) and
  `editAuthor(id, born)`. In module `Library`, the queries are functions of the two sequences.
  The arrays are the fields of class `Store`, and the mutations are its methods. Each method
  states the whole new state in terms of the old, and the uniqueness invariants it keeps.
  Further lemmas show how each mutation appears through the queries.
- **The request-context builder of `src/context/context.js`.** It treats a missing
  `Authorization` header as `""` and removes the first `"Bearer "`. An empty token gives `{}`.
  Otherwise the token verifier gives `{ authorId }`, or the context throws `"Invalid token"`.
  In module `Context`, the verifier (`jwt.verify` with the server's secret) is a function
  parameter `string -> Verification`, so every outcome can be stated for every verifier.
- **The Mongoose schemas of `src/model/Author.js` and `src/model/book.js`.** Modules
  `AuthorSchema` and `BookSchema` hold one datatype per document. Each has a `Validate`
  function that follows Mongoose's validator order (`required`, then `minlength`, then the
  `mongoose-unique-validator` check on `name`). `AuthorSchema` also has a collection-level
  invariant that `Save` preserves. Module `Mongoose` holds the validator semantics the two
  schemas share.

JavaScript idioms are modelled explicitly:

- `undefined` (an argument or field that is absent) is `Option.None`.
- A thrown error is `Result.Err`.
- `Array.prototype.filter`, `find`, `findIndex` and `map` are the functions of module `Seqs`.
- `String.prototype.indexOf` and `replace` (string pattern, replacement without `$`) are
  functions of `Context`.

Modelling choices that follow the code:

- Every `addBook`/`addAuthor` argument is optional in the schema. So stored books and authors
  can lack fields, and `===` on two absent fields is true. A second title-less book, for
  example, is rejected as a duplicate title.
- `addAuthor` declares `born` as a `String`, while `editAuthor` stores an `Int`. So `born` is
  `Born.Text` or `Born.Year`.
- `allBooks` with a genre calls `book.genres.includes`. If any stored book has no `genres`
  (one added by `addBook` without them), this throws a `TypeError`, so the result is an
  `Err` in that case.
- `editAuthor` builds the updated copy of the FIRST author with the id. It then puts that copy
  in place of EVERY author with that id. The lemmas that say "only `born` changes" assume
  distinct ids. The seed's ids are distinct, and `addAuthor` keeps them distinct when the
  supplied id is unused.
- Where this code departs from the API's wider design, the model follows the code:
  - `book.js` declares `genres` as an optional single string, not a required field.
  - `Author.js` declares no `username` or `password` and no list of books. `books` is one
    `ObjectId`.
  - The in-memory `addBook` rejects a title that is already used anywhere, not only by the
    same author.

## Model

| member | source | states |
|---|---|---|
| `Seqs.Filter` | code.js:144-147 | the result keeps exactly the elements satisfying the predicate, each as often as in the input, never longer, as an order-preserving subsequence |
| `Seqs.FilterConcat` | code.js:153-155 | filtering a concatenation is the concatenation of the filtered parts |
| `Seqs.Find` | code.js:159-160 | `None` iff no element matches; otherwise the element at the first matching position |
| `Seqs.Map` | code.js:152-157 | one result per element, in order, each the function applied to that element |
| `Library.BookCount` | code.js:140 | `bookCount` is the number of stored books |
| `Library.AuthorCount` | code.js:141 | `authorCount` is the number of stored authors |
| `Library.CountsMatchListings` | code.js:140-141 | `bookCount` is the number of books and equals the length of the unfiltered `allBooks`; `authorCount` is the number of authors and equals the length of `allAuthors` |
| `Library.AllBooks` | code.js:142-150 | a non-empty author wins and keeps exactly the books by that author (genre ignored); else a non-empty genre keeps exactly the books listing it, and fails with the TypeError iff some book has no genres; else all books; every success is an order-preserving subsequence of the books |
| `Library.AllAuthors` | code.js:151-158 | one entry per author in the same order with name, id and born unchanged; each `bookCount` is the number of times the author's name occurs among the books' authors |
| `Library.BooksByCount` | code.js:153-155 | the length of the author filter equals the multiplicity of the name among the books' `author` fields |
| `Library.FindBook` | code.js:159 | `None` iff no book has the id; otherwise the first book with that id |
| `Library.FindAuthor` | code.js:160 | `None` iff no author has the id; otherwise the first author with that id |
| `Library.SeedIsDistinct` | code.js:14-90 | the seeded books have pairwise distinct titles and the seeded authors pairwise distinct names and ids |
| `Library.Store.constructor` | code.js:14-90 | the arrays start as the seed data, which satisfies all three uniqueness invariants |
| `Library.Store.AddBook` | code.js:163-175 | a title already present fails with "Title must be unique" (carrying the title) and leaves the books unchanged; otherwise exactly the arguments plus the fresh id are appended and returned; authors are never touched; distinct titles stay distinct |
| `Library.Store.AddAuthor` | code.js:176-188 | a name already present fails with "Name must be unique" and leaves the authors unchanged; otherwise exactly the new author is appended and returned; books are never touched; distinct names stay distinct, and distinct ids too when the fresh id is unused |
| `Library.Store.EditAuthor` | code.js:190-199 | `None` iff no author has the id, then nothing changes; otherwise the result is the first such author with `born` replaced, every author with the id becomes that result, all others and the length and order are kept, books untouched, ids stay distinct |
| `Library.AddBookCounts` | code.js:172-173 | after an appended book, an author's derived `bookCount` rises by one exactly when the book names that author, and is otherwise unchanged |
| `Library.AddBookThenFind` | code.js:172-173 | after appending a book with an unused id, `findBook` of that id returns the new book |
| `Library.AddAuthorEntries` | code.js:185-186 | after appending an author, the earlier `allAuthors` entries are unchanged and the new entry carries the new author's fields and its book count |
| `Library.EditChangesOnlyBorn` | code.js:190-199 | with distinct ids, an edit changes only `born` of the one matching author, and `findAuthor` then returns the edited author |
| `Library.EditKeepsNamesAndCounts` | code.js:196-197 | with distinct ids, an edit keeps names distinct, and `allAuthors` afterwards differs from before only in the edited entry's `born` |
| `Context.ReplaceFirst` | src/context/context.js:21 | with no occurrence the string is unchanged; otherwise exactly the first occurrence is replaced |
| `Context.TokenOf` | src/context/context.js:20-21 | an absent header gives the token `""`; a header without `"Bearer "` is the token whole; otherwise the token is the header with its first `"Bearer "` cut out, at whatever position it occurs |
| `Context.BuildContext` | src/context/context.js:19-34 | `{}` iff the token is empty; `{authorId}` iff the token is non-empty and verifies, with the payload's `authorId`; "Invalid token" iff the token is non-empty and the verifier throws, for any reason |
| `Context.MissingHeader` | src/context/context.js:20-23 | a missing header builds `{}` for every verifier |
| `Context.BearerAlone` | src/context/context.js:21-23 | the header `"Bearer "` gives the empty token and builds `{}` |
| `Context.BearerPrefix` | src/context/context.js:21 | the header `"Bearer " + t` gives exactly the token `t` |
| `Context.NoBearer` | src/context/context.js:21 | a header without `"Bearer "` is passed whole as the token |
| `Context.OnlyFirstBearerRemoved` | src/context/context.js:21 | of two leading `"Bearer "`, only the first is removed |
| `Context.BearerInside` | src/context/context.js:21 | for every header whose first `"Bearer "` is at position i, the token is the header without those seven characters at i |
| `Mongoose.RequiredMinLength` | src/model/Author.js:7-9 | a required string path with a minimum length passes iff the value is present and long enough; it reports `required` for an absent or empty value and `minlength` for a short one |
| `AuthorSchema.Validate` | src/model/Author.js:4-23 | a new author validates iff its name is present, at least 4 characters, and used by no stored author; at most one error, always on `name`, chosen in validator order: `required` for an absent or empty name, `minlength` for a shorter one, `unique` when only the name's uniqueness fails |
| `AuthorSchema.Save` | src/model/Author.js:23-25 | a document is stored at the end exactly when it validates; otherwise the validation errors are returned |
| `AuthorSchema.SaveKeepsCollectionValid` | src/model/Author.js:5-23 | saving into a collection whose names are valid and distinct keeps them valid and distinct |
| `AuthorSchema.OptionalPathsUnconstrained` | src/model/Author.js:11-20 | `born`, `bookCount` and `books` never affect validation |
| `BookSchema.RequiredValue` | src/model/book.js:12-20 | a required non-string path passes iff the value is present, otherwise reports `required` on that path |
| `BookSchema.Validate` | src/model/book.js:3-21 | a book validates iff title is present with at least 5 characters, author is present and published is present; each of the four possible errors (title required, title minlength, author required, published required) is reported iff its cause holds, nothing else is reported, and there are at most three errors |
| `BookSchema.GenresUnconstrained` | src/model/book.js:9-11 | `genres` never affects validation |

## Left out

- Server bootstrap, the GraphQL `typeDefs`, `dotenv` and `mongoose` setup in `code.js` are plumbing with no decisions.
- GraphQL argument and result coercion is not modelled. That includes null versus undefined, null entries in `genres`, and the failure to serialize a string `born` or an absent `genres` in a result. The model does treat every argument as optional.
- `uuid()` is a parameter of `AddBook`/`AddAuthor`. Its uniqueness is not assumed; lemmas that need an unused id say so.
- `jwt.verify` and the `JWT_SECRET` environment variable are the `verify` parameter of `Context.BuildContext`. Signing, expiry and the secret itself are not modelled.
- The `extensions` of a thrown `GraphQLError` are reduced to the message and the offending argument.
- Mongoose casting (a non-number `born`), the database index that `unique: true` creates, the automatic `_id`, and the asynchronous database query behind the unique validator are left out. The stored documents are a sequence.
- Mongoose's strict mode, which drops undeclared paths such as `username` or `password`, is not modelled as an operation. The document datatypes simply have exactly the declared paths.
- JavaScript numbers are modelled as `int`. `minlength` counts characters of `seq<char>`, not UTF-16 code units.
- `index.js` and `resolver/resolver.js` are not part of this model. Their resolvers delegate every decision to Mongoose, bcrypt and jwt, and both files use names they never define or import.
- `src/utils/auth-middleware.js` is not part of this model. It is HTTP middleware made of cookie reading, token verification, a database lookup and a 401 response.
- `src/config/database.js` (connection only) and `schema/schema.js` (registration boilerplate) are not part of this model.
- The `newBook` subscription and all asynchronous execution are left out. They are event delivery and interleaving, not sequential logic.
