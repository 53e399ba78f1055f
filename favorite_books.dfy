/** The favorite-book form of the profile page: the checks made before a
    book is sent to the server, what is sent, and the form after success. */
module FavoriteBooks {
  import opened Wrappers
  import opened Text

  datatype Book = Book(id: string, title: string, author: string)

  /** The title and author sent to the server. */
  datatype Submission = Submission(title: string, author: string)

  const TitleRequired: string := "Book title is required"
  const AlreadyFavorite: string := "This book is already in your favorites"
  const BookAdded: string := "Book added successfully!"

  /** The form's state. */
  datatype AddBookForm = AddBookForm(visible: bool, title: string, author: string,
                                     loading: bool, error: string, success: string)

  /** `user.favoriteBooks` when it is an array, otherwise no books. */
  function FavoriteBooksOf(field: ListField<Book>): (r: seq<Book>)
    ensures field.Items? ==> r == field.items
    ensures !field.Items? ==> r == []
  {
    match field
    case Items(books) => books
    case _ => []
  }

  /** Some saved title equals `title` once both are lower-cased. */
  predicate IsDuplicate(books: seq<Book>, title: string) {
    exists i :: 0 <= i < |books| && ToLower(books[i].title) == ToLower(title)
  }

  /** `a` and `b` spell the same word, letter for letter, each ASCII letter
      in either case. */
  predicate EqualUpToCase(a: string, b: string) {
    && |a| == |b|
    && forall i :: 0 <= i < |a| ==>
         a[i] == b[i]
         || ('A' <= a[i] <= 'Z' && b[i] as int == a[i] as int + 32)
         || ('A' <= b[i] <= 'Z' && a[i] as int == b[i] as int + 32)
  }

  /** Lower-casing makes two titles equal exactly when they agree up to
      case. */
  lemma ToLowerEqualIffEqualUpToCase(a: string, b: string)
    ensures ToLower(a) == ToLower(b) <==> EqualUpToCase(a, b)
  {
    var la, lb := ToLower(a), ToLower(b);
    if EqualUpToCase(a, b) {
      forall i | 0 <= i < |a| ensures la[i] == lb[i] { }
    }
    if la == lb {
      forall i | 0 <= i < |a|
        ensures a[i] == b[i] || ('A' <= a[i] <= 'Z' && b[i] as int == a[i] as int + 32)
                || ('A' <= b[i] <= 'Z' && a[i] as int == b[i] as int + 32)
      {
        assert la[i] == lb[i];
      }
    }
  }

  /** The duplicate test ignores case: two titles that agree up to case are
      either both refused as duplicates or both not. */
  lemma DuplicateTestIgnoresCase(books: seq<Book>, a: string, b: string)
    requires EqualUpToCase(a, b)
    ensures IsDuplicate(books, a) <==> IsDuplicate(books, b)
  {
    ToLowerEqualIffEqualUpToCase(a, b);
  }

  /** The checks of `handleAddBook`, in order: a blank title is refused
      first; then a title matching a saved one up to case (compared as typed,
      untrimmed); otherwise the trimmed title and author are sent. */
  function ValidateAddBook(books: seq<Book>, title: string, author: string): (r: Result<Submission, string>)
    ensures r == Err(TitleRequired) <==> IsBlank(title)
    ensures r == Err(AlreadyFavorite) <==> !IsBlank(title) && IsDuplicate(books, title)
    ensures r.Ok? <==> !IsBlank(title) && !IsDuplicate(books, title)
    ensures r.Ok? ==> r.value == Submission(Trim(title), Trim(author))
    ensures r.Ok? ==> r.value.title != [] && !IsWhitespace(r.value.title[0])
                      && !IsWhitespace(r.value.title[|r.value.title| - 1])
  {
    if IsBlank(title) then Err(TitleRequired)
    else if IsDuplicate(books, title) then Err(AlreadyFavorite)
    else Ok(Submission(Trim(title), Trim(author)))
  }

  /** Pressing "add", with the user's `favoriteBooks` field as saved: the
      checks run against `FavoriteBooksOf` that field. A refused title only
      shows its message and sends nothing; an accepted one clears the
      messages, starts loading and sends the submission. */
  function Submit(form: AddBookForm, saved: ListField<Book>): (r: (AddBookForm, Option<Submission>))
    ensures r.1.None? <==> ValidateAddBook(FavoriteBooksOf(saved), form.title, form.author).Err?
    ensures r.1.None? ==> r.0 == form.(error := ValidateAddBook(FavoriteBooksOf(saved), form.title, form.author).error)
    ensures r.1.Some? ==> r.1.value == Submission(Trim(form.title), Trim(form.author))
    ensures r.1.Some? ==> r.0 == form.(loading := true, error := "", success := "")
  {
    match ValidateAddBook(FavoriteBooksOf(saved), form.title, form.author)
    case Err(message) => (form.(error := message), None)
    case Ok(submission) => (form.(loading := true, error := "", success := ""), Some(submission))
  }

  /** When the saved `favoriteBooks` is not an array, no title is refused
      as a duplicate: every non-blank title is sent. */
  lemma NonArrayFavoritesHaveNoDuplicates(form: AddBookForm, saved: ListField<Book>)
    requires !saved.Items?
    ensures Submit(form, saved).1.None? <==> IsBlank(form.title)
    ensures !IsBlank(form.title) ==> Submit(form, saved).1 == Some(Submission(Trim(form.title), Trim(form.author)))
  {
    assert FavoriteBooksOf(saved) == [];
    assert !IsDuplicate([], form.title);
  }

  /** After the server accepted the book: both fields empty, the form
      hidden, the success message shown, loading over. */
  function AddSucceeded(form: AddBookForm): (r: AddBookForm)
    ensures r.title == "" && r.author == "" && !r.visible
    ensures r.success == BookAdded && !r.loading && r.error == form.error
  {
    form.(title := "", author := "", visible := false, success := BookAdded, loading := false)
  }

  /** A blank title is refused as blank even when a saved title would also
      match it: the emptiness check comes first. */
  lemma BlankCheckedBeforeDuplicate(books: seq<Book>, title: string, author: string)
    requires IsBlank(title) && IsDuplicate(books, title)
    ensures ValidateAddBook(books, title, author) == Err(TitleRequired)
  {
  }

  /** The duplicate test ignores case. */
  lemma DuplicateIgnoresCase()
    ensures ValidateAddBook([Book("b1", "Dune", "Frank Herbert")], "DUNE", "") == Err(AlreadyFavorite)
  {
    var books := [Book("b1", "Dune", "Frank Herbert")];
    assert ToLower("Dune") == ToLower("DUNE") by {
      var a, b := ToLower("Dune"), ToLower("DUNE");
      assert a[0] == LowerChar('D') == b[0];
      assert a[1] == LowerChar('u') == 'u' && b[1] == LowerChar('U') == 'u';
      assert a[2] == LowerChar('n') == 'n' && b[2] == LowerChar('N') == 'n';
      assert a[3] == LowerChar('e') == 'e' && b[3] == LowerChar('E') == 'e';
    }
    assert IsDuplicate(books, "DUNE") by { assert books[0].title == "Dune"; }
    assert !IsBlank("DUNE") by { assert !IsWhitespace("DUNE"[0]); }
  }

  /** The duplicate test compares the untrimmed input while the trimmed
      title is sent: a saved title typed again with a leading space passes,
      and what is sent is exactly the saved title. */
  lemma PaddedDuplicateIsSent(book: Book)
    requires book.title != [] && !IsWhitespace(book.title[0]) && !IsWhitespace(book.title[|book.title| - 1])
    ensures ValidateAddBook([book], " " + book.title, "") == Ok(Submission(book.title, ""))
  {
    var padded := " " + book.title;
    assert !IsDuplicate([book], padded) by {
      assert |ToLower(padded)| != |ToLower(book.title)|;
    }
    TrimDropsLeadingSpace(book.title);
  }

  /** Trimming a space-padded unpadded word gives the word back. */
  lemma TrimDropsLeadingSpace(w: string)
    requires w != [] && !IsWhitespace(w[0]) && !IsWhitespace(w[|w| - 1])
    ensures Trim(" " + w) == w
  {
    var padded := " " + w;
    assert padded[1..] == w;
    assert TrimStart(w) == w;
    assert TrimStart(padded) == w;
    assert TrimEnd(w) == w;
  }
}
