/** AuthorsController.java: an ordered, mutable list of authors addressed by
    zero-based position. Its guards test only the upper bound: an index at or
    past the end yields null, and a negative index reaches the list access,
    which throws. */
module AuthorStore {
  import opened Positional
  import opened AuthorEntity

  /** What get, update and delete hand back. */
  datatype AuthorReply =
    | Found(author: Author)   // the author at the position
    | Null                    // `id >= size`: the method returns null
    | IndexOutOfBounds        // `id < 0`: `ArrayList.get`/`remove` throws

  class AuthorsController {
    var authors: seq<Author>

    /** The listed authors as records, in list order. */
    function Records(): seq<AuthorRecord>
      reads this, authors
    {
      RecordsOf(authors)
    }

    /** Every author in the list has an id the counter has already handed
        out. */
    predicate IdsIssuedBy(counter: IdCounter)
      reads this, counter
    {
      forall k :: 0 <= k < |authors| ==> authors[k].id <= counter.nextId
    }

    /** Seeds the list with two authors, each built with the shared counter. */
    constructor (counter: IdCounter)
      modifies counter
      ensures counter.nextId == Increment(Increment(old(counter.nextId)))
      ensures Records() == [AuthorRecord(Increment(old(counter.nextId)), "JRR Tolkien", "jrr@tolkien.com"),
                            AuthorRecord(counter.nextId, "Jane Austen", "jane@austen.com")]
      ensures old(counter.nextId) == 0 ==> Records()[0].id == 1 && Records()[1].id == 2
      ensures forall a :: a in authors ==> fresh(a)
      ensures Distinct(authors)
      ensures old(counter.nextId) as int + 2 <= Int32Max as int ==> IdsIssuedBy(counter)
    {
      var tolkien := new Author("JRR Tolkien", "jrr@tolkien.com", counter);
      var austen := new Author("Jane Austen", "jane@austen.com", counter);
      authors := [tolkien, austen];
    }

    /** The live list itself. */
    method GetAll() returns (r: seq<Author>)
      ensures r == authors && RecordsOf(r) == Records()
    {
      r := authors;
    }

    /** Appends the given author and hands it back. */
    method Create(author: Author) returns (r: Author)
      modifies this
      ensures r == author
      ensures authors == old(authors) + [author]
      ensures Records() == old(Records()) + [author.Record()]
      ensures old(Distinct(authors)) && author !in old(authors) ==> Distinct(authors)
    {
      authors := authors + [author];
      r := author;
    }

    /** Only the upper bound is checked; a negative index throws in
        `ArrayList.get`. The list is never changed. */
    method GetOneAuthor(id: int) returns (r: AuthorReply)
      ensures 0 <= id < |authors| ==> r == Found(authors[id])
      ensures id >= |authors| ==> r == Null
      ensures id < 0 ==> r == IndexOutOfBounds
    {
      if id < |authors| {
        if id < 0 {
          r := IndexOutOfBounds;
        } else {
          r := Found(authors[id]);
        }
      } else {
        r := Null;
      }
    }

    /** Copies name and email of `author` onto the author at position `id`,
        in place. The id of the stored author stays. Every position holding
        that same object shows the change; no other author changes. */
    method Update(id: int, author: Author) returns (r: AuthorReply)
      modifies if 0 <= id < |authors| then {authors[id]} else {}
      ensures authors == old(authors)
      ensures 0 <= id < |authors| ==>
        r == Found(authors[id]) &&
        forall k :: 0 <= k < |authors| ==>
          authors[k].Record() ==
            if authors[k] == authors[id]
            then AuthorRecord(old(authors[id].id), old(author.name), old(author.email))
            else old(authors[k].Record())
      ensures 0 <= id < |authors| && Distinct(authors) ==>
        Records() == old(Records())[id := AuthorRecord(old(authors[id].id), old(author.name), old(author.email))]
      ensures id >= |authors| ==> r == Null && Records() == old(Records())
      ensures id < 0 ==> r == IndexOutOfBounds && Records() == old(Records())
    {
      if id < |authors| {
        if id < 0 {
          r := IndexOutOfBounds;
        } else {
          var target := authors[id];
          target.SetName(author.GetName());
          target.SetEmail(author.GetEmail());
          r := Found(target);
        }
      } else {
        r := Null;
      }
    }

    /** Removes and hands back the author at position `id`; later authors
        move down by one. */
    method Delete(id: int) returns (r: AuthorReply)
      modifies this
      ensures 0 <= id < |old(authors)| ==>
        r == Found(old(authors)[id]) &&
        authors == RemoveAt(old(authors), id) &&
        Records() == RemoveAt(old(Records()), id)
      ensures 0 <= id < |old(authors)| && old(Distinct(authors)) ==>
        Distinct(authors) && r.author !in authors
      ensures id >= |old(authors)| ==> r == Null && authors == old(authors)
      ensures id < 0 ==> r == IndexOutOfBounds && authors == old(authors)
    {
      if id < |authors| {
        if id < 0 {
          r := IndexOutOfBounds;
        } else {
          r := Found(authors[id]);
          authors := RemoveAt(authors, id);
        }
      } else {
        r := Null;
      }
    }
  }

  /** `POST /authors`: building the request body's Author bumps the counter,
      and `create` then stores that author with its new id at the end. The new
      id is larger than every id already in the list unless the counter
      wraps. */
  method Post(store: AuthorsController, counter: IdCounter, name: string, email: string)
    returns (r: Author)
    modifies store, counter
    ensures counter.nextId == Increment(old(counter.nextId))
    ensures fresh(r) && r.Record() == AuthorRecord(counter.nextId, name, email)
    ensures store.authors == old(store.authors) + [r]
    ensures store.Records() == old(store.Records()) + [r.Record()]
    ensures old(store.IdsIssuedBy(counter)) && old(counter.nextId) < Int32Max ==>
      store.IdsIssuedBy(counter) &&
      forall k :: 0 <= k < |old(store.authors)| ==> old(store.authors)[k].id < r.id
  {
    var body := new Author(name, email, counter);
    r := store.Create(body);
  }

  /** `PUT /authors/{id}`: the request body is also built as an Author, so the
      counter is bumped whatever the outcome, but `update` copies only its
      name and email; the stored author keeps its old id. */
  method Put(store: AuthorsController, counter: IdCounter, id: int, name: string, email: string)
    returns (r: AuthorReply)
    modifies counter, if 0 <= id < |store.authors| then {store.authors[id]} else {}
    ensures counter.nextId == Increment(old(counter.nextId))
    ensures store.authors == old(store.authors)
    ensures 0 <= id < |store.authors| ==>
      r == Found(store.authors[id]) &&
      r.author.Record() == AuthorRecord(old(store.authors[id].id), name, email)
    ensures 0 <= id < |store.authors| && Distinct(store.authors) ==>
      store.Records() == old(store.Records())[id := AuthorRecord(old(store.authors[id].id), name, email)]
    ensures id >= |store.authors| ==> r == Null && store.Records() == old(store.Records())
    ensures id < 0 ==> r == IndexOutOfBounds && store.Records() == old(store.Records())
    ensures old(store.IdsIssuedBy(counter)) && old(counter.nextId) < Int32Max ==> store.IdsIssuedBy(counter)
  {
    var body := new Author(name, email, counter);
    r := store.Update(id, body);
  }
}
