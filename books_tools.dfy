/**
 * The Google Books tools (backend/app/tools/books_tools.py) once the HTTP
 * response is given: the clamp on the requested number of results, the
 * not-found guard, the list of books built from the returned volumes, and
 * the word-boundary truncation of descriptions.
 */
module BooksTools {

  import opened Wrappers

  /** `max(1, min(max_results, 10))` */
  function ClampMaxResults(n: int): (r: int)
    ensures 1 <= r <= 10
    ensures 1 <= n <= 10 ==> r == n
    ensures n < 1 ==> r == 1
    ensures n > 10 ==> r == 10
  {
    if n < 1 then 1 else if n > 10 then 10 else n
  }

  /** Clamping an already clamped count changes nothing. */
  lemma ClampIdempotent(n: int)
    ensures ClampMaxResults(ClampMaxResults(n)) == ClampMaxResults(n)
  {
  }

  /** The position of the last space in `s`, if any. */
  function LastSpace(s: string): (r: Option<nat>)
    ensures r.None? <==> ' ' !in s
    ensures r.Some? ==> r.value < |s| && s[r.value] == ' ' && ' ' !in s[r.value + 1..]
  {
    if s == [] then None
    else if s[|s| - 1] == ' ' then Some(|s| - 1)
    else
      var front := s[..|s| - 1];
      assert s == front + [s[|s| - 1]];
      var r := LastSpace(front);
      assert r.Some? ==> s[r.value + 1..] == front[r.value + 1..] + [s[|s| - 1]];
      r
  }

  /**
   * `s.rsplit(" ", 1)[0]`: everything before the last space, or all of `s`
   * when it holds no space.
   */
  function BeforeLastSpace(s: string): (h: string)
    ensures |h| <= |s| && h == s[..|h|]
    ensures ' ' !in s ==> h == s
    ensures ' ' in s ==> |h| < |s| && s[|h|] == ' ' && ' ' !in s[|h| + 1..]
  {
    match LastSpace(s)
    case None => s
    case Some(k) => s[..k]
  }

  /**
   * `_truncate(text, max_length)`: the text itself when it fits; otherwise its
   * first `max_length` characters cut back to the last space, followed by
   * "...".
   */
  function Truncate(text: string, maxLength: nat): (r: string)
    ensures |text| <= maxLength ==> r == text
    ensures |text| > maxLength ==>
              |r| >= 3 && r[|r| - 3..] == "..." && r[..|r| - 3] == BeforeLastSpace(text[..maxLength])
  {
    if |text| <= maxLength then text
    else
      var head := BeforeLastSpace(text[..maxLength]);
      assert (head + "...")[..|head|] == head;
      head + "..."
  }

  /**
   * What a truncated text is: at most three characters longer than the
   * limit, ending in "...", after a prefix of the text that either stops at
   * a space or, when the first `max_length` characters hold none, is all of
   * them.
   */
  lemma TruncateSpec(text: string, maxLength: nat)
    requires |text| > maxLength
    ensures var r := Truncate(text, maxLength);
            && |r| <= maxLength + 3
            && r[|r| - 3..] == "..."
            && r[..|r| - 3] == text[..|r| - 3]
            && (' ' !in text[..maxLength] ==> r == text[..maxLength] + "...")
            && (' ' in text[..maxLength] ==> |r| - 3 < maxLength && text[|r| - 3] == ' ')
  {
    var r := Truncate(text, maxLength);
    var head := BeforeLastSpace(text[..maxLength]);
    assert r[..|r| - 3] == head;
    assert head == text[..maxLength][..|head|] == text[..|head|];
    if ' ' in text[..maxLength] {
      assert text[..maxLength][|head|] == ' ';
    }
  }

  /** The `volumeInfo` of one returned item; each key may be absent or null. */
  datatype VolumeInfo = VolumeInfo(
    title: Field<string>,
    authors: Field<seq<string>>,
    description: Field<string>,
    categories: Field<seq<string>>,
    previewLink: Field<string>)

  /** One entry of the `books` list. */
  datatype Book = Book(title: string, authors: string, description: string, categories: string, previewLink: string)

  /** `sep.join(words)` for a separator of any length. */
  function JoinWith(words: seq<string>, sep: string): string {
    if |words| == 0 then ""
    else if |words| == 1 then words[0]
    else words[0] + sep + JoinWith(words[1..], sep)
  }

  /** A string value as an f-string shows it: `None` prints as "None". */
  function Shown(f: Field<string>, default: string): string {
    match f
    case Missing => default
    case Null => "None"
    case Present(s) => s
  }

  /**
   * The book built from one item, with descriptions cut to `limit`. `None`
   * stands for the exception a null `volumeInfo`, author list, category list
   * or description raises.
   */
  function BookOf(item: Field<VolumeInfo>, limit: nat): (b: Option<Book>)
    ensures b.Some? <==> !item.Null? && (item.Present? ==>
              !item.value.authors.Null? && !item.value.description.Null? && !item.value.categories.Null?)
  {
    match item
    case Null => None
    case Missing => BookOfInfo(VolumeInfo(Missing, Missing, Missing, Missing, Missing), limit)
    case Present(info) => BookOfInfo(info, limit)
  }

  /** An item without `volumeInfo` becomes the placeholder book. */
  lemma MissingVolumeInfo(limit: nat)
    ensures BookOf(Missing, limit) == Some(Book("Sem titulo", "Autor desconhecido", Truncate("Sem descricao", limit), "", ""))
  {
    assert JoinWith(["Autor desconhecido"], ", ") == "Autor desconhecido";
  }

  /** The book `item.get("volumeInfo", {})` gives once it is a dictionary. */
  function BookOfInfo(info: VolumeInfo, limit: nat): Option<Book> {
    if info.authors.Null? || info.description.Null? || info.categories.Null? then None
    else
      Some(Book(Shown(info.title, "Sem titulo"),
                JoinWith(info.authors.Get(["Autor desconhecido"]).value, ", "),
                Truncate(info.description.Get("Sem descricao").value, limit),
                JoinWith(info.categories.Get([]).value, ", "),
                Shown(info.previewLink, "")))
  }

  /** The books of a whole item list, or `None` when one of them raises. */
  function BooksOf(items: seq<Field<VolumeInfo>>, limit: nat): (r: Option<seq<Book>>)
    ensures r.Some? <==> forall i :: 0 <= i < |items| ==> BookOf(items[i], limit).Some?
    ensures r.Some? ==> |r.value| == |items| && forall i :: 0 <= i < |items| ==> BookOf(items[i], limit) == Some(r.value[i])
  {
    if items == [] then Some([])
    else
      var front := items[..|items| - 1];
      var books, last := BooksOf(front, limit), BookOf(items[|items| - 1], limit);
      assert forall i :: 0 <= i < |front| ==> items[i] == front[i];
      if books.None? || last.None? then None else Some(books.value + [last.value])
  }

  /** The loop that appends one book per item. */
  method CollectBooks(items: seq<Field<VolumeInfo>>, limit: nat) returns (r: Option<seq<Book>>)
    ensures r == BooksOf(items, limit)
  {
    var books: seq<Book> := [];
    for i := 0 to |items|
      invariant BooksOf(items[..i], limit) == Some(books)
    {
      var b := BookOf(items[i], limit);
      BooksOfStep(items, i, limit);
      if b.None? {
        NoneSticks(items, i + 1, limit);
        return None;
      }
      books := books + [b.value];
    }
    assert items[..|items|] == items;
    r := Some(books);
  }

  /** One more item extends the books built so far, or makes the list raise. */
  lemma BooksOfStep(items: seq<Field<VolumeInfo>>, i: nat, limit: nat)
    requires i < |items|
    ensures BooksOf(items[..i + 1], limit)
         == if BooksOf(items[..i], limit).None? || BookOf(items[i], limit).None? then None
            else Some(BooksOf(items[..i], limit).value + [BookOf(items[i], limit).value])
  {
    assert items[..i + 1][..i] == items[..i];
  }

  /** Once a prefix raises, so does the whole list. */
  lemma NoneSticks(items: seq<Field<VolumeInfo>>, n: nat, limit: nat)
    requires n <= |items| && BooksOf(items[..n], limit).None?
    ensures BooksOf(items, limit).None?
  {
    var k :| 0 <= k < n && BookOf(items[..n][k], limit).None?;
    assert items[k] == items[..n][k];
  }

  /** The parsed response: `totalItems` and `items` may each be absent or null. */
  datatype BooksResponse = BooksResponse(totalItems: Field<int>, items: Field<seq<Field<VolumeInfo>>>)

  /** What a listing tool reports: not found, the books found, or the error message of an exception. */
  datatype Listing = NotFound | Found(totalItems: Option<int>, books: seq<Book>) | Failed

  /**
   * The guard shared by the three tools: `totalItems` (default 0) equal to 0,
   * or no "items" key, means nothing was found. A null `totalItems` is not 0.
   */
  predicate NothingFound(resp: BooksResponse) {
    resp.totalItems.Get(0) == Some(0) || resp.items.Missing?
  }

  /**
   * `search_books` (descriptions cut at 300) and `search_books_by_topic` (cut
   * at 200) after the request.
   */
  function ListBooks(resp: BooksResponse, limit: nat): (r: Listing)
    ensures r.NotFound? <==> NothingFound(resp)
    ensures r.Found? ==> resp.items.Present? && |r.books| == |resp.items.value|
    ensures r.Found? ==> r.totalItems == resp.totalItems.Get(0)
                         && forall i :: 0 <= i < |r.books| ==> BookOf(resp.items.value[i], limit) == Some(r.books[i])
    ensures resp.items.Null? && !NothingFound(resp) ==> r.Failed?
  {
    if NothingFound(resp) then NotFound
    else match resp.items
      case Present(items) =>
        (match BooksOf(items, limit)
         case Some(books) => Found(resp.totalItems.Get(0), books)
         case None => Failed)
      case _ => Failed
  }

  /** Zero results or no item list reports not-found, whatever else the response holds. */
  lemma EmptyResultNotFound(items: Field<seq<Field<VolumeInfo>>>, total: Field<int>, limit: nat)
    ensures ListBooks(BooksResponse(Present(0), items), limit) == NotFound
    ensures ListBooks(BooksResponse(total, Missing), limit) == NotFound
  {
  }

  /** Every listed description fits the limit plus the three-character ellipsis. */
  lemma ListedDescriptionsBounded(resp: BooksResponse, limit: nat)
    requires ListBooks(resp, limit).Found?
    ensures forall b :: b in ListBooks(resp, limit).books ==> |b.description| <= limit + 3
  {
    var books := ListBooks(resp, limit).books;
    var items := resp.items.value;
    forall b | b in books ensures |b.description| <= limit + 3 {
      var i :| 0 <= i < |books| && books[i] == b;
      assert BookOf(items[i], limit) == Some(b);
      var item := items[i];
      var d := if item.Missing? then "Sem descricao" else item.value.description.Get("Sem descricao").value;
      assert b.description == Truncate(d, limit);
      if |d| > limit {
        TruncateSpec(d, limit);
      }
    }
  }
}
