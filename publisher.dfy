/** The Publisher record held by the publisher store: a name and a city, each
    with a getter and a setter. Only what the store uses is modelled
    (construction from a name and a city, and the four accessors). */
module PublisherEntity {

  /** What a publisher looks like from outside (its two getters). */
  datatype PublisherRecord = PublisherRecord(name: string, city: string)

  class Publisher {
    var name: string
    var city: string

    constructor (name: string, city: string)
      ensures GetName() == name && GetCity() == city
    {
      this.name := name;
      this.city := city;
    }

    function GetName(): string
      reads this
    {
      name
    }

    function GetCity(): string
      reads this
    {
      city
    }

    method SetName(name: string)
      modifies this
      ensures GetName() == name && GetCity() == old(GetCity())
    {
      this.name := name;
    }

    method SetCity(city: string)
      modifies this
      ensures GetCity() == city && GetName() == old(GetName())
    {
      this.city := city;
    }

    function Record(): PublisherRecord
      reads this
    {
      PublisherRecord(GetName(), GetCity())
    }
  }

  /** The records of a list of publishers, position by position. */
  function RecordsOf(publishers: seq<Publisher>): (rs: seq<PublisherRecord>)
    reads publishers
    ensures |rs| == |publishers|
    ensures forall k :: 0 <= k < |publishers| ==> rs[k] == publishers[k].Record()
  {
    if publishers == [] then [] else [publishers[0].Record()] + RecordsOf(publishers[1..])
  }
}
