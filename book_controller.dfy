/**
 * Controller/with/BookController.java: a controller that validates each
 * write to its book model (name and author at most 30 characters, price
 * above zero) and turns an empty name or author into null on reading. The
 * BookModel class is not part of this model: its fields are taken to start
 * at Java's defaults (null, null, 0.0), and a null String is None.
 */
module BookControl {
  import opened JavaLang

  /** The longest name or author a setter accepts. */
  const MAX_LENGTH: nat := 30

  class BookModel {
    var bookName: Option<string>
    var bookAuthor: Option<string>
    var bookPrice: real

    constructor ()
      ensures bookName == None && bookAuthor == None && bookPrice == 0.0
    {
      bookName := None;
      bookAuthor := None;
      bookPrice := 0.0;
    }
  }

  /** The stored text after a setter call: replaced when short enough, else kept. */
  function SetIfShort(current: Option<string>, s: string): Option<string>
  {
    if |s| > MAX_LENGTH then current else Some(s)
  }

  /** The stored price after setBookPrice: replaced when positive, else kept. */
  function SetIfPositive(current: real, p: real): real
  {
    if p <= 0.0 then current else p
  }

  /** What a getter returns for the stored text: null for "", the text otherwise; a null field is dereferenced. */
  function Shown(stored: Option<string>): Result<Option<string>>
  {
    match stored
    case None => Throws(NullPointer)
    case Some(s) => if s == "" then Ok(None) else Ok(Some(s))
  }

  /**
   * A name of at most 30 characters, 30 included, is stored and read back
   * (as null when it is empty); a longer one leaves the stored value as it
   * was.
   */
  lemma SetThenShow(current: Option<string>, s: string)
    ensures |s| <= MAX_LENGTH ==> Shown(SetIfShort(current, s)) == (if s == "" then Ok(None) else Ok(Some(s)))
    ensures |s| > MAX_LENGTH ==> SetIfShort(current, s) == current
    ensures SetIfShort(current, s).Some? ==> current.Some? || |s| <= MAX_LENGTH
  {
  }

  /** The stored price is only ever the initial 0 or a positive price. */
  predicate PriceValid(p: real)
  {
    p == 0.0 || p > 0.0
  }

  lemma SetPriceKeepsValid(current: real, p: real)
    requires PriceValid(current)
    ensures PriceValid(SetIfPositive(current, p))
    ensures p > 0.0 ==> SetIfPositive(current, p) == p
    ensures p <= 0.0 ==> SetIfPositive(current, p) == current
  {
  }

  class BookController {
    const bookModel: BookModel

    /** What every controller keeps true of its model: the stored strings are short enough, the price is 0 or positive. */
    ghost predicate Valid()
      reads this, bookModel
    {
      (bookModel.bookName.Some? ==> |bookModel.bookName.value| <= MAX_LENGTH)
      && (bookModel.bookAuthor.Some? ==> |bookModel.bookAuthor.value| <= MAX_LENGTH)
      && PriceValid(bookModel.bookPrice)
    }

    constructor ()
      ensures fresh(bookModel) && Valid()
      ensures bookModel.bookName == None && bookModel.bookAuthor == None && bookModel.bookPrice == 0.0
    {
      bookModel := new BookModel();
    }

    method SetBookName(bookName: string)
      requires Valid()
      modifies bookModel
      ensures Valid()
      ensures bookModel.bookName == SetIfShort(old(bookModel.bookName), bookName)
      ensures bookModel.bookAuthor == old(bookModel.bookAuthor) && bookModel.bookPrice == old(bookModel.bookPrice)
    {
      if |bookName| > MAX_LENGTH {
        return;
      }
      bookModel.bookName := Some(bookName);
    }

    method GetBookName() returns (r: Result<Option<string>>)
      ensures r == Shown(bookModel.bookName)
    {
      if bookModel.bookName.None? {
        return Throws(NullPointer);
      }
      if bookModel.bookName.value == "" {
        return Ok(None);
      }
      return Ok(bookModel.bookName);
    }

    method SetBookAuthor(bookAuthor: string)
      requires Valid()
      modifies bookModel
      ensures Valid()
      ensures bookModel.bookAuthor == SetIfShort(old(bookModel.bookAuthor), bookAuthor)
      ensures bookModel.bookName == old(bookModel.bookName) && bookModel.bookPrice == old(bookModel.bookPrice)
    {
      if |bookAuthor| > MAX_LENGTH {
        return;
      }
      bookModel.bookAuthor := Some(bookAuthor);
    }

    method GetBookAuthor() returns (r: Result<Option<string>>)
      ensures r == Shown(bookModel.bookAuthor)
    {
      if bookModel.bookAuthor.None? {
        return Throws(NullPointer);
      }
      if bookModel.bookAuthor.value == "" {
        return Ok(None);
      }
      return Ok(bookModel.bookAuthor);
    }

    method SetBookPrice(bookPrice: real)
      requires Valid()
      modifies bookModel
      ensures Valid()
      ensures bookModel.bookPrice == SetIfPositive(old(bookModel.bookPrice), bookPrice)
      ensures bookModel.bookName == old(bookModel.bookName) && bookModel.bookAuthor == old(bookModel.bookAuthor)
    {
      if bookPrice <= 0.0 {
        return;
      }
      bookModel.bookPrice := bookPrice;
    }

    /** getBookPrice: both branches return the stored price, which is 0 or positive. */
    method GetBookPrice() returns (p: real)
      requires Valid()
      ensures p == bookModel.bookPrice && PriceValid(p)
    {
      if bookModel.bookPrice == 0.0 {
        return 0.0;
      }
      return bookModel.bookPrice;
    }
  }

  /**
   * Reading a name before any accepted write dereferences the null field;
   * a 30-character name is accepted and read back, a 31-character one is
   * rejected and the earlier name stays.
   */
  method NameLengthBoundary() returns (before: Result<Option<string>>, after: Result<Option<string>>)
    ensures before == Throws(NullPointer)
    ensures after == Ok(Some("abcdefghijabcdefghijabcdefghij"))
  {
    var controller := new BookController();
    before := controller.GetBookName();
    assert |"abcdefghijabcdefghijabcdefghij"| == 30;
    controller.SetBookName("abcdefghijabcdefghijabcdefghij");
    assert |"abcdefghijabcdefghijabcdefghijk"| == 31;
    controller.SetBookName("abcdefghijabcdefghijabcdefghijk");
    after := controller.GetBookName();
  }
}
