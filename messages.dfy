/** The values that travel between the content script, the background
    worker and the popup: the listing record a page yields, the activity
    data a content script sends, and the runtime message that carries it. */
module Messages {
  import opened Wrappers

  /** A listing's `price`: the avito parser copies the `content` attribute,
      which `getAttribute` returns as `null` when the attribute is absent. */
  datatype Price = PriceText(text: string) | PriceNull

  /** The record `collectListingData` returns. `date` is the clock reading
      (milliseconds) that the source renders with `toISOString`. */
  datatype ListingData = ListingData(
    id: string,
    title: string,
    price: Price,
    currency: string,
    seller: string,
    date: int,
    url: string)

  /** The `data` of a `saveActivity` message. */
  datatype ActivityData = ActivityData(
    kind: string,            // `type` in the source
    marketplace: string,
    listingId: string,
    listingTitle: string,
    details: ListingData)

  /** A runtime message: an `action` tag and an optional `data` payload. */
  datatype Request = Request(action: string, data: Option<ActivityData>)

  const SaveActivityAction: string := "saveActivity"
  const GetStatsAction: string := "getStats"
  const ClearDataAction: string := "clearData"
}
