/** The table of processed event ids that every idempotent consumer keeps. */
module Dedup {

  /** Where a delivery may be cut short; an unacknowledged message comes back at the head of its queue. */
  datatype Onderbreking = Geen | VoorEffect | NaEffect | NaMarkering

  class EventDedup {
    var verwerkt: set<string>

    constructor ()
      ensures verwerkt == {}
    {
      verwerkt := {};
    }

    predicate IsVerwerkt(eventId: string)
      reads this
    {
      eventId in verwerkt
    }

    method MarkeerVerwerkt(eventId: string)
      modifies this
      ensures verwerkt == old(verwerkt) + {eventId}
    {
      verwerkt := verwerkt + {eventId};
    }
  }
}
