/**
 * The catalog shapes of one event (src/types.tsx): its ticket tiers and the event
 * that lists them. The file declares data only; there is no behaviour to model.
 *
 * `type` is a reserved word in Dafny, so the tier key is called `typeKey`.
 * JavaScript numbers become unbounded integers: `cost` is in minor currency units
 * and `date` is a millisecond timestamp.
 */
module Types {
  /** One purchasable tier of an event; `typeKey` identifies it within the catalog. */
  datatype TicketType = TicketType(typeKey: string, name: string, description: string, cost: int)

  /** An event and its ordered list of ticket tiers. */
  datatype BandEvent = BandEvent(
    name: string,
    id: string,
    date: int,
    location: string,
    descriptionBlurb: string,
    imgUrl: string,
    ticketTypes: seq<TicketType>)
}
