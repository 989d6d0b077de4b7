/** The in-memory library of `code.js`: the module-level `authors` and `books` arrays, the
    query resolvers (functions of the current arrays) and the mutation resolvers (methods of
    `Store`, which holds the two arrays and reassigns them). */
module Library {
  import opened Wrappers
  import Seqs

  /** An author's `born`: `editAuthor` stores an `Int`, while `addAuthor` declares its
      `born` argument as a `String` and stores that string as given. */
  datatype Born = Year(year: int) | Text(text: string)

  /** A stored author. Fields that come from optional GraphQL arguments may be absent. */
  datatype Author = Author(name: Option<string>, id: string, born: Option<Born>)

  /** A stored book. Fields that come from optional GraphQL arguments may be absent. */
  datatype Book = Book(title: Option<string>, published: Option<int>, author: Option<string>,
                       genres: Option<seq<string>>, id: string)

  /** The arguments of `addBook`; every one of them is optional in the schema. */
  datatype BookArgs = BookArgs(title: Option<string>, author: Option<string>,
                               published: Option<int>, genres: Option<seq<string>>)

  /** The arguments of `addAuthor`; `born` is declared `String`. */
  datatype AuthorArgs = AuthorArgs(name: Option<string>, born: Option<string>)

  /** An element of the `allAuthors` result: the author's fields plus a derived `bookCount`. */
  datatype AuthorEntry = AuthorEntry(name: Option<string>, id: string, born: Option<Born>,
                                     bookCount: nat)

  /** What a resolver throws: a `GraphQLError` with code `BAD_USER_INPUT` and the offending
      argument, or the `TypeError` raised by calling `includes` on an absent `genres`. */
  datatype Error =
    | BadUserInput(message: string, invalidArgs: Option<string>)
    | TypeError(message: string)

  const TitleNotUnique := "Title must be unique"
  const NameNotUnique := "Name must be unique"
  const GenresUndefined := "Cannot read properties of undefined (reading 'includes')"

  /** The initial contents of `authors`. */
  function SeedAuthors(): seq<Author> {
    [ Author(Some("Robert Martin"), "afa51ab0-344d-11e9-a414-719c6709cf3e", Some(Year(1952))),
      Author(Some("Martin Fowler"), "afa5b6f0-344d-11e9-a414-719c6709cf3e", Some(Year(1963))),
      Author(Some("Fyodor Dostoevsky"), "afa5b6f1-344d-11e9-a414-719c6709cf3e", Some(Year(1821))),
      Author(Some("Joshua Kerievsky"), "afa5b6f2-344d-11e9-a414-719c6709cf3e", None),
      Author(Some("Sandi Metz"), "afa5b6f3-344d-11e9-a414-719c6709cf3e", None) ]
  }

  /** The initial contents of `books`. */
  function SeedBooks(): seq<Book> {
    [ Book(Some("Clean Code"), Some(2008), Some("Robert Martin"),
           Some(["refactoring"]), "afa5b6f4-344d-11e9-a414-719c6709cf3e"),
      Book(Some("Agile software development"), Some(2002), Some("Robert Martin"),
           Some(["agile", "patterns", "design"]), "afa5b6f5-344d-11e9-a414-719c6709cf3e"),
      Book(Some("Refactoring, edition 2"), Some(2018), Some("Martin Fowler"),
           Some(["refactoring"]), "afa5de00-344d-11e9-a414-719c6709cf3e"),
      Book(Some("Refactoring to patterns"), Some(2008), Some("Joshua Kerievsky"),
           Some(["refactoring", "patterns"]), "afa5de01-344d-11e9-a414-719c6709cf3e"),
      Book(Some("Practical Object-Oriented Design, An Agile Primer Using Ruby"), Some(2012),
           Some("Sandi Metz"), Some(["refactoring", "design"]), "afa5de02-344d-11e9-a414-719c6709cf3e"),
      Book(Some("Crime and punishment"), Some(1866), Some("Fyodor Dostoevsky"),
           Some(["classic", "crime"]), "afa5de03-344d-11e9-a414-719c6709cf3e"),
      Book(Some("The Demon "), Some(1872), Some("Fyodor Dostoevsky"),
           Some(["classic", "revolution"]), "afa5de04-344d-11e9-a414-719c6709cf3e") ]
  }

  /** JavaScript truthiness of an optional string argument: present and non-empty. */
  predicate Truthy(s: Option<string>) {
    s.Some? && s.value != ""
  }

  // ---------------------------------------------------------------------------------------
  // Invariants of the store

  predicate TitleTaken(books: seq<Book>, title: Option<string>) {
    exists i :: 0 <= i < |books| && books[i].title == title
  }

  predicate NameTaken(authors: seq<Author>, name: Option<string>) {
    exists i :: 0 <= i < |authors| && authors[i].name == name
  }

  predicate IdTaken(authors: seq<Author>, id: string) {
    exists i :: 0 <= i < |authors| && authors[i].id == id
  }

  predicate TitlesDistinct(books: seq<Book>) {
    forall i, j :: 0 <= i < j < |books| ==> books[i].title != books[j].title
  }

  predicate NamesDistinct(authors: seq<Author>) {
    forall i, j :: 0 <= i < j < |authors| ==> authors[i].name != authors[j].name
  }

  predicate IdsDistinct(authors: seq<Author>) {
    forall i, j :: 0 <= i < j < |authors| ==> authors[i].id != authors[j].id
  }

  /** `k` is the position of the first author whose id is `id`. */
  predicate FirstWithId(authors: seq<Author>, id: string, k: int) {
    0 <= k < |authors| && authors[k].id == id && forall j :: 0 <= j < k ==> authors[j].id != id
  }

  /** The initial arrays satisfy every uniqueness invariant the mutations maintain. */
  lemma SeedIsDistinct()
    ensures TitlesDistinct(SeedBooks())
    ensures NamesDistinct(SeedAuthors()) && IdsDistinct(SeedAuthors())
  {
  }

  // ---------------------------------------------------------------------------------------
  // Queries

  /** `bookCount`: the number of stored books. */
  function BookCount(books: seq<Book>): (n: nat)
    ensures n == |books|
  {
    |books|
  }

  /** `authorCount`: the number of stored authors. */
  function AuthorCount(authors: seq<Author>): (n: nat)
    ensures n == |authors|
  {
    |authors|
  }

  /** The books written by `name` (the filter `allBooks` and `allAuthors` both use). */
  function BooksBy(books: seq<Book>, name: Option<string>): seq<Book> {
    Seqs.Filter(books, (b: Book) => b.author == name)
  }

  /** The book's `genres` list contains `genre`; false when `genres` is absent. */
  predicate HasGenre(b: Book, genre: string) {
    b.genres.Some? && genre in b.genres.value
  }

  /** `allBooks(author, genre)`: a non-empty `author` wins over `genre`; a non-empty `genre`
      keeps the books listing it, and throws as soon as the filter meets a book without
      `genres`; with neither, every book. */
  function AllBooks(books: seq<Book>, author: Option<string>, genre: Option<string>)
    : (r: Result<seq<Book>, Error>)
    ensures Truthy(author) ==>
      r.Ok? && forall b :: multiset(r.value)[b] == if b.author == author then multiset(books)[b] else 0
    ensures !Truthy(author) && Truthy(genre) ==>
      (r.Err? <==> exists i :: 0 <= i < |books| && books[i].genres.None?)
    ensures !Truthy(author) && Truthy(genre) && r.Ok? ==>
      forall b :: multiset(r.value)[b] == if HasGenre(b, genre.value) then multiset(books)[b] else 0
    ensures !Truthy(author) && !Truthy(genre) ==> r == Ok(books)
    ensures r.Ok? ==> Seqs.Subsequence(r.value, books)
    ensures r.Err? ==> r.error == TypeError(GenresUndefined)
  {
    if Truthy(author) then
      Ok(BooksBy(books, author))
    else if Truthy(genre) then
      if Seqs.Find(books, (b: Book) => b.genres.None?).Some? then Err(TypeError(GenresUndefined))
      else Ok(Seqs.Filter(books, (b: Book) => HasGenre(b, genre.value)))
    else
      Seqs.SubsequenceOfSelf(books);
      Ok(books)
  }

  /** The `author` field of every book, in order. */
  function AuthorsOf(books: seq<Book>): seq<Option<string>> {
    Seqs.Map(books, (b: Book) => b.author)
  }

  /** The number of books by `name` is the number of times `name` occurs as a book's author. */
  lemma {:induction false} BooksByCount(books: seq<Book>, name: Option<string>)
    ensures |BooksBy(books, name)| == multiset(AuthorsOf(books))[name]
  {
    if books != [] {
      assert books == [books[0]] + books[1..];
      Seqs.FilterConcat([books[0]], books[1..], (b: Book) => b.author == name);
      BooksByCount(books[1..], name);
    }
  }

  /** `allAuthors`: every author in order with its fields, plus how many books name it. */
  function AllAuthors(authors: seq<Author>, books: seq<Book>): (r: seq<AuthorEntry>)
    ensures |r| == |authors|
    ensures forall i :: 0 <= i < |r| ==>
      r[i].name == authors[i].name && r[i].id == authors[i].id && r[i].born == authors[i].born
    ensures forall i :: 0 <= i < |r| ==> r[i].bookCount == multiset(AuthorsOf(books))[authors[i].name]
  {
    var r := Seqs.Map(authors, (a: Author) => AuthorEntry(a.name, a.id, a.born, |BooksBy(books, a.name)|));
    assert forall i :: 0 <= i < |r| ==> r[i].bookCount == multiset(AuthorsOf(books))[authors[i].name] by {
      forall i | 0 <= i < |r| {
        BooksByCount(books, authors[i].name);
      }
    }
    r
  }

  /** `findBook(id)`: the first book with that id, or `None` (`undefined`). */
  function FindBook(books: seq<Book>, id: string): (r: Option<Book>)
    ensures r.None? <==> forall i :: 0 <= i < |books| ==> books[i].id != id
    ensures r.Some? ==> exists k :: 0 <= k < |books| && books[k] == r.value && r.value.id == id &&
                                    forall j :: 0 <= j < k ==> books[j].id != id
  {
    Seqs.Find(books, (p: Book) => p.id == id)
  }

  /** `findAuthor(id)`: the first author with that id, or `None` (`undefined`). */
  function FindAuthor(authors: seq<Author>, id: string): (r: Option<Author>)
    ensures r.None? <==> !IdTaken(authors, id)
    ensures r.Some? ==> exists k :: FirstWithId(authors, id, k) && authors[k] == r.value
  {
    Seqs.Find(authors, (p: Author) => p.id == id)
  }

  /** The counts agree with the unfiltered listings. */
  lemma CountsMatchListings(authors: seq<Author>, books: seq<Book>)
    ensures AllBooks(books, None, None) == Ok(books) && BookCount(books) == |books|
    ensures AuthorCount(authors) == |AllAuthors(authors, books)| == |authors|
  {
  }

  // ---------------------------------------------------------------------------------------
  // Mutations

  /** The book `addBook` stores: its arguments plus a fresh id. */
  function NewBook(args: BookArgs, id: string): Book {
    Book(args.title, args.published, args.author, args.genres, id)
  }

  /** The author `addAuthor` stores: its arguments plus a fresh id. */
  function NewAuthor(args: AuthorArgs, id: string): Author {
    Author(args.name, id, if args.born.Some? then Some(Text(args.born.value)) else None)
  }

  /** The module-level `authors` and `books` arrays with the mutation resolvers. The id that
      `uuid()` would generate is a parameter of each method that needs one. */
  class Store {
    var authors: seq<Author>
    var books: seq<Book>

    constructor ()
      ensures authors == SeedAuthors() && books == SeedBooks()
      ensures TitlesDistinct(books) && NamesDistinct(authors) && IdsDistinct(authors)
    {
      authors := SeedAuthors();
      books := SeedBooks();
      SeedIsDistinct();
    }

    /** `addBook`: rejects a title already present; otherwise appends the new book. */
    method AddBook(args: BookArgs, freshId: string) returns (r: Result<Book, Error>)
      modifies this`books
      ensures TitleTaken(old(books), args.title) ==>
        r == Err(BadUserInput(TitleNotUnique, args.title)) && books == old(books)
      ensures !TitleTaken(old(books), args.title) ==>
        r == Ok(NewBook(args, freshId)) && books == old(books) + [NewBook(args, freshId)]
      ensures TitlesDistinct(old(books)) ==> TitlesDistinct(books)
    {
      if Seqs.Find(books, (p: Book) => p.title == args.title).Some? {
        return Err(BadUserInput(TitleNotUnique, args.title));
      }
      var book := NewBook(args, freshId);
      books := books + [book];
      r := Ok(book);
    }

    /** `addAuthor`: rejects a name already present; otherwise appends the new author. */
    method AddAuthor(args: AuthorArgs, freshId: string) returns (r: Result<Author, Error>)
      modifies this`authors
      ensures NameTaken(old(authors), args.name) ==>
        r == Err(BadUserInput(NameNotUnique, args.name)) && authors == old(authors)
      ensures !NameTaken(old(authors), args.name) ==>
        r == Ok(NewAuthor(args, freshId)) && authors == old(authors) + [NewAuthor(args, freshId)]
      ensures NamesDistinct(old(authors)) ==> NamesDistinct(authors)
      ensures IdsDistinct(old(authors)) && !IdTaken(old(authors), freshId) ==> IdsDistinct(authors)
    {
      if Seqs.Find(authors, (p: Author) => p.name == args.name).Some? {
        return Err(BadUserInput(NameNotUnique, args.name));
      }
      var author := NewAuthor(args, freshId);
      authors := authors + [author];
      r := Ok(author);
    }

    /** `editAuthor`: `None` (null) when no author has the id; otherwise the first such author
        with `born` replaced, which then takes the place of every author with that id. */
    method EditAuthor(id: string, born: int) returns (r: Option<Author>)
      modifies this`authors
      ensures r.None? <==> !IdTaken(old(authors), id)
      ensures r.None? ==> authors == old(authors)
      ensures r.Some? ==> exists k :: FirstWithId(old(authors), id, k) &&
                                      r.value == old(authors)[k].(born := Some(Year(born)))
      ensures r.Some? ==> |authors| == |old(authors)|
      ensures r.Some? ==> forall i :: 0 <= i < |authors| ==>
        authors[i] == if old(authors)[i].id == id then r.value else old(authors)[i]
      ensures IdsDistinct(old(authors)) ==> IdsDistinct(authors)
    {
      var author := Seqs.Find(authors, (p: Author) => p.id == id);
      if author.None? {
        return None;
      }
      var updated := author.value.(born := Some(Year(born)));
      authors := Seqs.Map(authors, (p: Author) => if p.id == id then updated else p);
      r := Some(updated);
    }
  }

  // ---------------------------------------------------------------------------------------
  // How the mutations show through the queries

  /** An accepted `addBook` raises the count of exactly the authors named by the new book. */
  lemma AddBookCounts(authors: seq<Author>, books: seq<Book>, b: Book, i: nat)
    requires i < |authors|
    ensures AllAuthors(authors, books + [b])[i].bookCount ==
            AllAuthors(authors, books)[i].bookCount + (if b.author == authors[i].name then 1 else 0)
  {
    assert AuthorsOf([b]) == [b.author];
    AuthorsOfConcat(books, [b]);
  }

  lemma {:induction false} AuthorsOfConcat(a: seq<Book>, b: seq<Book>)
    ensures AuthorsOf(a + b) == AuthorsOf(a) + AuthorsOf(b)
  {
    if a == [] {
      assert a + b == b;
    } else {
      assert (a + b)[0] == a[0];
      assert (a + b)[1..] == a[1..] + b;
      AuthorsOfConcat(a[1..], b);
    }
  }

  /** After an accepted `addBook` with an unused id, `findBook` of that id gives the new book. */
  lemma AddBookThenFind(books: seq<Book>, b: Book)
    requires forall i :: 0 <= i < |books| ==> books[i].id != b.id
    ensures FindBook(books + [b], b.id) == Some(b)
  {
    var s := books + [b];
    assert forall j :: 0 <= j < |books| ==> s[j] == books[j];
    assert s[|books|] == b;
  }

  /** An accepted `addAuthor` leaves every earlier entry of `allAuthors` as it was, and the
      new author has no books unless some book already names it. */
  lemma AddAuthorEntries(authors: seq<Author>, books: seq<Book>, a: Author)
    ensures AllAuthors(authors + [a], books)[..|authors|] == AllAuthors(authors, books)
    ensures AllAuthors(authors + [a], books)[|authors|] ==
            AuthorEntry(a.name, a.id, a.born, multiset(AuthorsOf(books))[a.name])
  {
  }

  /** With distinct ids, an accepted `editAuthor` changes only `born`, of the one author with
      that id, and `findAuthor` then returns the updated author. */
  lemma EditChangesOnlyBorn(before: seq<Author>, after: seq<Author>, id: string, born: int, k: nat)
    requires IdsDistinct(before) && FirstWithId(before, id, k)
    requires |after| == |before|
    requires forall i :: 0 <= i < |after| ==>
      after[i] == if before[i].id == id then before[k].(born := Some(Year(born))) else before[i]
    ensures forall i :: 0 <= i < |after| && i != k ==> after[i] == before[i]
    ensures after[k].name == before[k].name && after[k].id == before[k].id
    ensures after[k].born == Some(Year(born))
    ensures FindAuthor(after, id) == Some(after[k])
  {
  }

  /** With distinct ids, an accepted `editAuthor` keeps names distinct and every derived
      `bookCount` of `allAuthors`. */
  lemma EditKeepsNamesAndCounts(before: seq<Author>, after: seq<Author>, books: seq<Book>,
                                id: string, born: int, k: nat)
    requires IdsDistinct(before) && FirstWithId(before, id, k)
    requires |after| == |before|
    requires forall i :: 0 <= i < |after| ==>
      after[i] == if before[i].id == id then before[k].(born := Some(Year(born))) else before[i]
    ensures NamesDistinct(before) ==> NamesDistinct(after)
    ensures AllAuthors(after, books) ==
            Seqs.Map(AllAuthors(before, books), (e: AuthorEntry) =>
              if e.id == id then e.(born := Some(Year(born))) else e)
  {
    EditChangesOnlyBorn(before, after, id, born, k);
  }
}
