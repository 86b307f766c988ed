/** Author.java: an author whose id is drawn from a counter shared by every
    construction, and whose name and email can be changed in place. */
module AuthorEntity {

  /** Java's `int`. */
  newtype int32 = x: int | -0x8000_0000 <= x < 0x8000_0000

  const Int32Min: int32 := -0x8000_0000
  const Int32Max: int32 := 0x7fff_ffff

  /** Java's `x + 1` on an `int`: the result is `x + 1` modulo 2^32, so the
      largest value wraps around to the smallest. */
  function Increment(x: int32): (r: int32)
    ensures (r as int - x as int - 1) % 0x1_0000_0000 == 0
    ensures x < Int32Max ==> r > x
  {
    if x == Int32Max then Int32Min else x + 1
  }

  /** The static `nextID` field. Dafny has no mutable statics, so the one
      process-wide counter is an object handed to every construction. */
  class IdCounter {
    var nextId: int32

    /** The field's initial value. */
    constructor ()
      ensures nextId == 0
    {
      nextId := 0;
    }
  }

  /** What an author looks like from outside (its three getters). */
  datatype AuthorRecord = AuthorRecord(id: int32, name: string, email: string)

  class Author {
    const id: int32
    var name: string
    var email: string

    /** `new Author(name, email)`: bumps the shared counter by one and takes
        its new value as the id. */
    constructor (name: string, email: string, counter: IdCounter)
      modifies counter
      ensures counter.nextId == Increment(old(counter.nextId))
      ensures GetId() == counter.nextId
      ensures GetName() == name && GetEmail() == email
    {
      counter.nextId := Increment(counter.nextId);
      this.id := counter.nextId;
      this.name := name;
      this.email := email;
    }

    /** The id is a `const`: nothing can reassign it after construction. */
    function GetId(): int32
    {
      id
    }

    function GetName(): string
      reads this
    {
      name
    }

    function GetEmail(): string
      reads this
    {
      email
    }

    method SetName(name: string)
      modifies this
      ensures GetName() == name
      ensures GetEmail() == old(GetEmail())
    {
      this.name := name;
    }

    method SetEmail(email: string)
      modifies this
      ensures GetEmail() == email
      ensures GetName() == old(GetName())
    {
      this.email := email;
    }

    function Record(): AuthorRecord
      reads this
    {
      AuthorRecord(GetId(), GetName(), GetEmail())
    }
  }

  /** The records of a list of authors, position by position. */
  function RecordsOf(authors: seq<Author>): (rs: seq<AuthorRecord>)
    reads authors
    ensures |rs| == |authors|
    ensures forall k :: 0 <= k < |authors| ==> rs[k] == authors[k].Record()
  {
    if authors == [] then [] else [authors[0].Record()] + RecordsOf(authors[1..])
  }

  /** The ids handed out by `n` successive constructions when the counter
      stands at `c`. */
  function IdsFrom(c: int32, n: nat): seq<int32>
    decreases n
  {
    if n == 0 then [] else [Increment(c)] + IdsFrom(Increment(c), n - 1)
  }

  /** As long as the counter does not wrap, the k-th of successive
      constructions gets id `c + k + 1`: the ids are consecutive and strictly
      increasing, and from a fresh counter (`c == 0`) the first id is 1. */
  lemma {:induction false} IdsIncrease(c: int32, n: nat)
    requires c as int + n <= Int32Max as int
    ensures |IdsFrom(c, n)| == n
    ensures forall k :: 0 <= k < n ==> IdsFrom(c, n)[k] as int == c as int + k + 1
    ensures forall i, j :: 0 <= i < j < n ==> IdsFrom(c, n)[i] < IdsFrom(c, n)[j]
    decreases n
  {
    if n > 0 {
      IdsIncrease(Increment(c), n - 1);
    }
  }

  /** Once the counter has reached the largest `int`, the next construction
      gets the smallest one: ids are increasing only up to 2^31 - 1 of them. */
  lemma IdsWrapAround(n: nat)
    requires n >= 1
    ensures IdsFrom(Int32Max, n)[0] == Int32Min
  {
  }
}
