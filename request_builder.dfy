/**
 * The fluent builder for the body of the "add books to a user's bookshelf"
 * request. The builder owns one mutable `AddBookRequest`; each `With*` call
 * overwrites one of its fields and returns the builder itself, and `Build`
 * hands out that same request object rather than a copy.
 */
module RequestBuilder {

  /** One element of the request's ISBN collection. */
  datatype IsbnEntry = IsbnEntry(isbn: string)

  /** The request body: the target user and the ISBNs to add, in order. */
  class AddBookRequest {
    var userId: string
    var collectionOfIsbns: seq<IsbnEntry>

    /** A new request has an empty user id and an empty ISBN collection. */
    constructor ()
      ensures userId == "" && collectionOfIsbns == []
    {
      userId := "";
      collectionOfIsbns := [];
    }
  }

  /** The collection the builder stores for a list of ISBNs: one entry per ISBN, in order. */
  function ToEntries(isbns: seq<string>): (entries: seq<IsbnEntry>)
    ensures |entries| == |isbns|
    ensures forall k :: 0 <= k < |isbns| ==> entries[k].isbn == isbns[k]
  {
    if isbns == [] then [] else [IsbnEntry(isbns[0])] + ToEntries(isbns[1..])
  }

  /** The ISBNs a collection carries, in order. */
  function IsbnsOf(entries: seq<IsbnEntry>): (isbns: seq<string>)
    ensures |isbns| == |entries|
  {
    if entries == [] then [] else [entries[0].isbn] + IsbnsOf(entries[1..])
  }

  /** Reading the ISBNs back out of the stored collection gives exactly the ISBNs passed in. */
  lemma {:induction false} IsbnsOfToEntries(isbns: seq<string>)
    ensures IsbnsOf(ToEntries(isbns)) == isbns
  {
    if isbns != [] {
      IsbnsOfToEntries(isbns[1..]);
    }
  }

  class AddBookRequestBuilder {
    /** The one request object this builder configures and hands out. */
    const request: AddBookRequest

    /** A new builder owns a new, empty request. */
    constructor ()
      ensures fresh(request)
      ensures request.userId == "" && request.collectionOfIsbns == []
    {
      request := new AddBookRequest();
    }

    /** Overwrites the user id; the ISBN collection is left as it was. */
    method WithUserId(userId: string) returns (builder: AddBookRequestBuilder)
      modifies request
      ensures builder == this
      ensures request.userId == userId
      ensures request.collectionOfIsbns == old(request.collectionOfIsbns)
    {
      request.userId := userId;
      builder := this;
    }

    /**
     * Replaces the ISBN collection with a single entry for `isbn`, discarding
     * any previous entries; the same as `WithIsbns([isbn])`. The user id is
     * left as it was.
     */
    method WithIsbn(isbn: string) returns (builder: AddBookRequestBuilder)
      modifies request
      ensures builder == this
      ensures |request.collectionOfIsbns| == 1 && request.collectionOfIsbns[0].isbn == isbn
      ensures request.collectionOfIsbns == ToEntries([isbn])
      ensures request.userId == old(request.userId)
    {
      request.collectionOfIsbns := [IsbnEntry(isbn)];
      builder := this;
    }

    /**
     * Replaces the ISBN collection with one entry per argument, in argument
     * order, discarding any previous entries. The user id is left as it was.
     */
    method WithIsbns(isbns: seq<string>) returns (builder: AddBookRequestBuilder)
      modifies request
      ensures builder == this
      ensures request.collectionOfIsbns == ToEntries(isbns)
      ensures IsbnsOf(request.collectionOfIsbns) == isbns
      ensures request.userId == old(request.userId)
    {
      request.collectionOfIsbns := ToEntries(isbns);
      IsbnsOfToEntries(isbns);
      builder := this;
    }

    /** Hands out the builder's own request object, not a copy. */
    method Build() returns (built: AddBookRequest)
      ensures built == request
    {
      built := request;
    }
  }

  /**
   * How the tests use the builder, carried one step further: a chained
   * `WithUserId(...).WithIsbn(...).Build()`, then more collection setters on
   * the same builder. The request handed out earlier sees the later calls,
   * and the last collection setter wins.
   */
  method BuildThenReconfigure(userId: string, isbn: string, isbns: seq<string>)
    returns (built: AddBookRequest)
    ensures built.userId == userId
    ensures built.collectionOfIsbns == ToEntries(isbns)
  {
    var builder := new AddBookRequestBuilder();
    var chained := builder.WithUserId(userId);
    chained := chained.WithIsbn(isbn);
    built := chained.Build();
    assert built.collectionOfIsbns == [IsbnEntry(isbn)];
    chained := builder.WithIsbns(isbns);
  }
}
