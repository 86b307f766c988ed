/** Drives the two stores from process start and proves each outcome from
    the contracts alone (the way a caller sees them). */
module Scenarios {
  import A = AuthorEntity
  import AS = AuthorStore
  import P = PublisherEntity
  import PS = PublisherStore

  /** Three successive constructions from a fresh counter hand out the ids
      `IdsFrom` lists for them. */
  method SuccessiveConstructions() returns (ids: seq<A.int32>, last: A.int32)
    ensures ids == A.IdsFrom(0, 3) && ids == [1, 2, 3]
    ensures last == 3
  {
    var counter := new A.IdCounter();
    var first := new A.Author("JRR Tolkien", "jrr@tolkien.com", counter);
    var second := new A.Author("Jane Austen", "jane@austen.com", counter);
    var third := new A.Author("Mary Shelley", "mary@shelley.com", counter);
    ids := [first.GetId(), second.GetId(), third.GetId()];
    last := counter.nextId;
    A.IdsIncrease(0, 3);
  }

  /** The seeded authors get ids 1 and 2 from a fresh counter; posting a third
      author gives it id 3, and the list then holds three authors. */
  method PostThirdAuthor() returns (seeded: seq<A.AuthorRecord>, created: A.AuthorRecord, listed: nat)
    ensures seeded == [A.AuthorRecord(1, "JRR Tolkien", "jrr@tolkien.com"),
                       A.AuthorRecord(2, "Jane Austen", "jane@austen.com")]
    ensures created == A.AuthorRecord(3, "Mary Shelley", "mary@shelley.com")
    ensures listed == 3
  {
    var counter := new A.IdCounter();
    var store := new AS.AuthorsController(counter);
    seeded := store.Records();
    var author := AS.Post(store, counter, "Mary Shelley", "mary@shelley.com");
    created := author.Record();
    var all := store.GetAll();
    listed := |all|;
  }

  /** A PUT bumps the counter although the stored author keeps its id: the
      next POST gets id 4, not 3. */
  method PutThenPost() returns (updated: A.AuthorRecord, created: A.AuthorRecord)
    ensures updated == A.AuthorRecord(1, "J. R. R. Tolkien", "jrr@tolkien.com")
    ensures created == A.AuthorRecord(4, "Mary Shelley", "mary@shelley.com")
  {
    var counter := new A.IdCounter();
    var store := new AS.AuthorsController(counter);
    assert store.authors[0] in store.authors;
    var reply := AS.Put(store, counter, 0, "J. R. R. Tolkien", "jrr@tolkien.com");
    updated := reply.author.Record();
    var author := AS.Post(store, counter, "Mary Shelley", "mary@shelley.com");
    created := author.Record();
  }

  /** The author id is not the access key: after deleting position 0, position
      0 holds the author whose id is 2. */
  method IdIsNotThePosition() returns (removed: A.AuthorRecord, atZero: A.AuthorRecord)
    ensures removed.id == 1 && atZero.id == 2
  {
    var counter := new A.IdCounter();
    var store := new AS.AuthorsController(counter);
    var gone := store.Delete(0);
    removed := gone.author.Record();
    var now := store.GetOneAuthor(0);
    atZero := now.author.Record();
  }

  /** Past the end the author store answers null; a negative index is not
      null but the list access's exception, and neither changes the list. */
  method AuthorsOutOfRange() returns (past: AS.AuthorReply, negative: AS.AuthorReply, kept: seq<A.AuthorRecord>)
    ensures past == AS.Null && negative == AS.IndexOutOfBounds
    ensures kept == [A.AuthorRecord(1, "JRR Tolkien", "jrr@tolkien.com"),
                     A.AuthorRecord(2, "Jane Austen", "jane@austen.com")]
  {
    var counter := new A.IdCounter();
    var store := new AS.AuthorsController(counter);
    past := store.Delete(2);
    negative := store.Delete(-1);
    kept := store.Records();
  }

  /** Deleting position 5 of the seeded publisher list is the client error;
      deleting position 0 hands back Kunnskapsforlaget and leaves only Damm,
      now at position 0. */
  method DeletePublishers() returns (outOfRange: PS.PublisherReply, removed: P.PublisherRecord, remaining: seq<P.PublisherRecord>)
    ensures outOfRange == PS.BadRequest("Id out of range")
    ensures removed == P.PublisherRecord("Kunnskapsforlaget", "Trondheim")
    ensures remaining == [P.PublisherRecord("Damm", "Bergen")]
  {
    var store := new PS.PublishersController();
    outOfRange := store.Delete(5);
    var gone := store.Delete(0);
    removed := gone.publisher.Record();
    remaining := store.Records();
  }

  /** Updating a publisher in range replaces its name and city and nothing
      else; a negative index is the client error. */
  method UpdatePublishers() returns (updated: seq<P.PublisherRecord>, negative: PS.PublisherReply)
    ensures updated == [P.PublisherRecord("Kunnskapsforlaget", "Trondheim"),
                        P.PublisherRecord("Cappelen Damm", "Oslo")]
    ensures negative == PS.BadRequest("Id out of range")
  {
    var store := new PS.PublishersController();
    var body := new P.Publisher("Cappelen Damm", "Oslo");
    assert store.publishers[1] in store.publishers;
    var reply := store.Update(1, body);
    updated := store.Records();
    negative := store.GetOnePublisher(-1);
  }
}
