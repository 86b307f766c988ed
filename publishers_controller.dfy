/** PublishersController.java: an ordered, mutable list of publishers
    addressed by zero-based position. Every positional operation checks
    `0 <= id < size` and otherwise fails with the client error
    "Id out of range", leaving the list as it was. */
module PublisherStore {
  import opened Positional
  import opened PublisherEntity

  /** The fixed message of the client error. */
  const OutOfRangeMessage: string := "Id out of range"

  /** What get, update and delete hand back: the publisher, or the client
      error (a `ResponseStatusException` with status 400) and its message. */
  datatype PublisherReply =
    | Ok(publisher: Publisher)
    | BadRequest(message: string)

  class PublishersController {
    var publishers: seq<Publisher>

    /** The listed publishers as records, in list order. */
    function Records(): seq<PublisherRecord>
      reads this, publishers
    {
      RecordsOf(publishers)
    }

    /** Both bounds of the guard. */
    predicate InRange(id: int)
      reads this
    {
      id < |publishers| && id >= 0
    }

    /** Seeds the list with two publishers. */
    constructor ()
      ensures Records() == [PublisherRecord("Kunnskapsforlaget", "Trondheim"),
                            PublisherRecord("Damm", "Bergen")]
      ensures forall p :: p in publishers ==> fresh(p)
      ensures Distinct(publishers)
    {
      var first := new Publisher("Kunnskapsforlaget", "Trondheim");
      var second := new Publisher("Damm", "Bergen");
      publishers := [first, second];
    }

    /** The live list itself. */
    method GetAll() returns (r: seq<Publisher>)
      ensures r == publishers && RecordsOf(r) == Records()
    {
      r := publishers;
    }

    /** The publisher at position `id`, or the client error for any other
        `id`, negative ones included. The list is never changed. */
    method GetOnePublisher(id: int) returns (r: PublisherReply)
      ensures 0 <= id < |publishers| ==> r == Ok(publishers[id])
      ensures !(0 <= id < |publishers|) ==> r == BadRequest(OutOfRangeMessage)
    {
      if InRange(id) {
        r := Ok(publishers[id]);
      } else {
        r := BadRequest(OutOfRangeMessage);
      }
    }

    /** Appends the given publisher and hands it back. */
    method Create(publisher: Publisher) returns (r: Publisher)
      modifies this
      ensures r == publisher
      ensures publishers == old(publishers) + [publisher]
      ensures Records() == old(Records()) + [publisher.Record()]
      ensures old(Distinct(publishers)) && publisher !in old(publishers) ==> Distinct(publishers)
    {
      publishers := publishers + [publisher];
      r := publisher;
    }

    /** Copies name and city of `publisher` onto the publisher at position
        `id`, in place. Every position holding that same object shows the
        change; no other publisher changes. */
    method Update(id: int, publisher: Publisher) returns (r: PublisherReply)
      modifies if 0 <= id < |publishers| then {publishers[id]} else {}
      ensures publishers == old(publishers)
      ensures 0 <= id < |publishers| ==>
        r == Ok(publishers[id]) &&
        forall k :: 0 <= k < |publishers| ==>
          publishers[k].Record() ==
            if publishers[k] == publishers[id]
            then old(publisher.Record())
            else old(publishers[k].Record())
      ensures 0 <= id < |publishers| && Distinct(publishers) ==>
        Records() == old(Records())[id := old(publisher.Record())]
      ensures !(0 <= id < |publishers|) ==>
        r == BadRequest(OutOfRangeMessage) && Records() == old(Records())
    {
      if InRange(id) {
        var target := publishers[id];
        target.SetName(publisher.GetName());
        target.SetCity(publisher.GetCity());
        r := Ok(target);
      } else {
        r := BadRequest(OutOfRangeMessage);
      }
    }

    /** Removes and hands back the publisher at position `id`; later
        publishers move down by one. */
    method Delete(id: int) returns (r: PublisherReply)
      modifies this
      ensures 0 <= id < |old(publishers)| ==>
        r == Ok(old(publishers)[id]) &&
        publishers == RemoveAt(old(publishers), id) &&
        Records() == RemoveAt(old(Records()), id)
      ensures 0 <= id < |old(publishers)| && old(Distinct(publishers)) ==>
        Distinct(publishers) && r.publisher !in publishers
      ensures !(0 <= id < |old(publishers)|) ==>
        r == BadRequest(OutOfRangeMessage) && publishers == old(publishers)
    {
      if InRange(id) {
        r := Ok(publishers[id]);
        publishers := RemoveAt(publishers, id);
      } else {
        r := BadRequest(OutOfRangeMessage);
      }
    }
  }
}
