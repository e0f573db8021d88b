/** The content script (src/content.js): which marketplace a page belongs
    to, the listing record read from the page, the listing identifier taken
    from the query string, and the filter that turns a page's window message
    into a `saveActivity` runtime message. The DOM is abstracted: each
    `querySelector` lookup a parser performs is an input `Lookup`. */
module Content {
  import opened Wrappers
  import opened Messages

  // ---------------------------------------------------------------------
  // Marketplace detection
  // ---------------------------------------------------------------------

  datatype Marketplace = Avito | YandexMarket | Ozon | Aliexpress | Ebay | Unknown {

    /** The tag `detectMarketplace` returns. */
    function Name(): string {
      match this
      case Avito => "avito"
      case YandexMarket => "yandex_market"
      case Ozon => "ozon"
      case Aliexpress => "aliexpress"
      case Ebay => "ebay"
      case Unknown => "unknown"
    }

    /** Position in the order in which the hostname is tested. */
    function Rank(): nat {
      match this
      case Avito => 0
      case YandexMarket => 1
      case Ozon => 2
      case Aliexpress => 3
      case Ebay => 4
      case Unknown => 5
    }

    /** The hostname substring that identifies a known marketplace. */
    function Key(): string
      requires !Unknown?
    {
      match this
      case Avito => "avito"
      case YandexMarket => "market.yandex"
      case Ozon => "ozon"
      case Aliexpress => "aliexpress"
      case Ebay => "ebay"
    }
  }

  /** The known marketplaces, in the order `detectMarketplace` tries them. */
  const DetectionOrder: seq<Marketplace> := [Avito, YandexMarket, Ozon, Aliexpress, Ebay]

  /** `s.includes(sub)`. */
  predicate Includes(s: string, sub: string)
    ensures Includes(s, sub) ==> |sub| <= |s|
    ensures |sub| <= |s| && s[..|sub|] == sub ==> Includes(s, sub)
    ensures |sub| < |s| && Includes(s[1..], sub) ==> Includes(s, sub)
    decreases |s|
  {
    |sub| <= |s| && (s[..|sub|] == sub || Includes(s[1..], sub))
  }

  /** `sub` occurs in `s` starting at position `i`. */
  predicate OccursAt(s: string, sub: string, i: int) {
    0 <= i <= |s| - |sub| && s[i..i + |sub|] == sub
  }

  /** Dropping the first character shifts every slice by one. */
  lemma DropOneSlice(s: string, i: int, n: nat)
    requires 1 <= i && i + n <= |s|
    ensures s[1..][i - 1..i - 1 + n] == s[i..i + n]
  {
    var a, b := s[1..][i - 1..i - 1 + n], s[i..i + n];
    forall k | 0 <= k < n ensures a[k] == b[k] {}
  }

  /** `Includes` holds exactly when `sub` occurs at some position of `s`. */
  lemma {:induction false} IncludesAt(s: string, sub: string)
    ensures Includes(s, sub) <==> exists i :: OccursAt(s, sub, i)
    decreases |s|
  {
    if |sub| <= |s| {
      if s[..|sub|] == sub {
        assert OccursAt(s, sub, 0);
      } else {
        IncludesAt(s[1..], sub);
        if Includes(s[1..], sub) {
          var j :| OccursAt(s[1..], sub, j);
          DropOneSlice(s, j + 1, |sub|);
          assert OccursAt(s, sub, j + 1);
        } else {
          forall i | 1 <= i && OccursAt(s, sub, i)
            ensures OccursAt(s[1..], sub, i - 1)
          {
            DropOneSlice(s, i, |sub|);
          }
        }
      }
    }
  }

  /** A string that lacks some character of `sub` does not include `sub`. */
  lemma MissingCharExcludes(s: string, sub: string, k: nat)
    requires k < |sub| && sub[k] !in s
    ensures !Includes(s, sub)
  {
  }

  /** The hostname identifies marketplace `m`. */
  predicate Matches(hostname: string, m: Marketplace) {
    !m.Unknown? && Includes(hostname, m.Key())
  }

  /** `detectMarketplace`: the first marketplace, in detection order, whose
      key occurs in the hostname; `Unknown` when none does. */
  function DetectMarketplace(hostname: string): (r: Marketplace)
    ensures !r.Unknown? ==> Matches(hostname, r)
    ensures forall m :: Matches(hostname, m) ==> r.Rank() <= m.Rank()
    ensures r.Unknown? <==> forall m :: !Matches(hostname, m)
  {
    if Includes(hostname, Avito.Key()) then assert Matches(hostname, Avito); Avito
    else if Includes(hostname, YandexMarket.Key()) then assert Matches(hostname, YandexMarket); YandexMarket
    else if Includes(hostname, Ozon.Key()) then assert Matches(hostname, Ozon); Ozon
    else if Includes(hostname, Aliexpress.Key()) then assert Matches(hostname, Aliexpress); Aliexpress
    else if Includes(hostname, Ebay.Key()) then assert Matches(hostname, Ebay); Ebay
    else Unknown
  }

  /** The hostname "yandex.ru" contains "yandex" but not "market.yandex"
      (nor any other key), so it is `Unknown`, not Yandex Market. */
  lemma PlainYandexIsUnknown()
    ensures DetectMarketplace("yandex.ru") == Unknown
  {
    MissingCharExcludes("yandex.ru", "avito", 1);
    MissingCharExcludes("yandex.ru", "ozon", 1);
    MissingCharExcludes("yandex.ru", "ebay", 1);
  }

  /** Every hostname that contains both "avito" and "ebay" is avito, the
      key tested first; "ebay.avito.ru" is one. */
  lemma EarlierKeyWins(hostname: string)
    requires Includes(hostname, "avito") && Includes(hostname, "ebay")
    ensures DetectMarketplace(hostname) == Avito
    ensures DetectMarketplace("ebay.avito.ru") == Avito
  {
    assert Matches(hostname, Avito);
    IncludesAt("ebay.avito.ru", "avito");
    assert OccursAt("ebay.avito.ru", "avito", 5);
  }

  // ---------------------------------------------------------------------
  // Listing identifier
  // ---------------------------------------------------------------------

  /** `URLSearchParams.get(name)` over already-decoded pairs: the value of
      the first pair whose name is `name`. */
  function GetParam(query: seq<(string, string)>, name: string): (r: Option<string>)
    ensures r.None? <==> forall i :: 0 <= i < |query| ==> query[i].0 != name
    ensures r.Some? ==> exists i :: 0 <= i < |query| && query[i] == (name, r.value) &&
                          forall j :: 0 <= j < i ==> query[j].0 != name
  {
    if query == [] then None
    else if query[0].0 == name then Some(query[0].1)
    else
      var r := GetParam(query[1..], name);
      assert forall i :: 1 <= i < |query| ==> query[i] == query[1..][i - 1];
      r
  }

  /** A parameter value is truthy when present and not the empty string. */
  predicate Truthy(v: Option<string>) {
    v.Some? && v.value != ""
  }

  /** `generateListingId`: `get('id') || get('item') || random`, where
      `random` stands for the `Math.random` string. */
  function GenerateListingId(query: seq<(string, string)>, random: string): (r: string)
    ensures Truthy(GetParam(query, "id")) ==> r == GetParam(query, "id").value
    ensures !Truthy(GetParam(query, "id")) && Truthy(GetParam(query, "item")) ==>
              r == GetParam(query, "item").value
    ensures !Truthy(GetParam(query, "id")) && !Truthy(GetParam(query, "item")) ==> r == random
  {
    var id := GetParam(query, "id");
    var item := GetParam(query, "item");
    if Truthy(id) then id.value else if Truthy(item) then item.value else random
  }

  /** Only the first `id` pair is consulted: when it is empty the identifier
      falls through to `item` (here absent) and then to the random string,
      even though a later `id` pair is non-empty. */
  lemma EmptyFirstIdFallsThrough(query: seq<(string, string)>, random: string, i: nat)
    requires i < |query| && query[i] == ("id", "")
    requires forall j :: 0 <= j < i ==> query[j].0 != "id"
    requires forall j :: 0 <= j < |query| ==> query[j].0 != "item"
    ensures GenerateListingId(query, random) == random
  {
  }

  // ---------------------------------------------------------------------
  // Page parsing
  // ---------------------------------------------------------------------

  /** The outcome of one DOM lookup: the element's value, no such element,
      or an exception thrown by the selector query or by reading the
      element's text. */
  datatype Lookup<T> = Found(value: T) | Absent | Fails

  /** Reading the `content` attribute of a found price element: its text,
      `null` when the attribute is missing, or an exception. */
  datatype Attribute = AttrValue(text: string) | NoAttribute | AttrThrows

  /** What a page offers the content script: its location (hostname, href,
      decoded query pairs) and each selector lookup the parsers perform. */
  datatype Page = Page(
    hostname: string,
    href: string,
    query: seq<(string, string)>,
    itemName: Lookup<string>,            // [itemprop="name"], innerText
    itemPrice: Lookup<Attribute>,        // [itemprop="price"], content attribute
    heading: Lookup<string>,             // h1, innerText
    ozonHeading: Lookup<string>,         // h1 under the sibling after the breadcrumbs
    productTitle: Lookup<string>,        // .product-title, innerText
    ebayTitle: Lookup<string>)           // .it-ttl, innerText

  /** The keys a parser sets: None means the key is not in the returned
      object, so a spread merge leaves the default in place. */
  datatype Override = Override(title: Option<string>, price: Option<Price>)

  /** The text of a found element, `''` for a missing one. */
  function TextOr(el: Lookup<string>): (t: string)
    requires !el.Fails?
    ensures el.Found? ==> t == el.value
    ensures el.Absent? ==> t == ""
  {
    if el.Found? then el.value else ""
  }

  /** `parseAvitoData`: both selector queries and the title's text are read
      before any key is set, so an exception there leaves the override
      empty. The `content` attribute is read after `title` is set, so an
      exception there keeps the title and leaves `price` unset. */
  function ParseAvito(titleEl: Lookup<string>, priceEl: Lookup<Attribute>): (o: Override)
    ensures o.title.Some? <==> !titleEl.Fails? && !priceEl.Fails?
    ensures o.title.Some? ==> o.title.value == TextOr(titleEl)
    ensures o.price.Some? <==> o.title.Some? && !(priceEl.Found? && priceEl.value.AttrThrows?)
    ensures priceEl.Found? && priceEl.value.AttrValue? && o.price.Some? ==>
              o.price.value == PriceText(priceEl.value.text)
    ensures priceEl.Found? && priceEl.value.NoAttribute? && o.price.Some? ==> o.price.value == PriceNull
    ensures priceEl.Absent? && o.price.Some? ==> o.price.value == PriceText("")
  {
    if titleEl.Fails? || priceEl.Fails? then Override(None, None)
    else
      var price := match priceEl
        case Found(AttrValue(c)) => Some(PriceText(c))
        case Found(NoAttribute) => Some(PriceNull)
        case Found(AttrThrows) => None
        case _ => Some(PriceText(""));
      Override(Some(TextOr(titleEl)), price)
  }

  /** `parseYandexMarketData`, `parseOzonData`, `parseAliexpressData` and
      `parseEbayData`: each sets only `title`, from the element its own
      selector finds; an exception leaves the override empty. */
  function ParseTitle(titleEl: Lookup<string>): (o: Override)
    ensures o.price.None?
    ensures o.title.None? <==> titleEl.Fails?
    ensures titleEl.Found? ==> o.title == Some(titleEl.value)
    ensures titleEl.Absent? ==> o.title == Some("")
  {
    if titleEl.Fails? then Override(None, None) else Override(Some(TextOr(titleEl)), None)
  }

  /** The lookup whose text becomes the title on marketplace `m`. */
  function TitleElement(page: Page, m: Marketplace): Lookup<string> {
    match m
    case Avito => page.itemName
    case YandexMarket => page.heading
    case Ozon => page.ozonHeading
    case Aliexpress => page.productTitle
    case Ebay => page.ebayTitle
    case Unknown => Absent
  }

  /** `{ ...data, ...override }`. */
  function Merge(data: ListingData, o: Override): (r: ListingData)
    ensures r.id == data.id && r.currency == data.currency && r.seller == data.seller
    ensures r.date == data.date && r.url == data.url
    ensures r.title == o.title.GetOr(data.title) && r.price == o.price.GetOr(data.price)
  {
    data.(title := o.title.GetOr(data.title), price := o.price.GetOr(data.price))
  }

  /** The record `collectListingData` starts from. */
  function DefaultListing(page: Page, random: string, now: int): (d: ListingData)
    ensures d.id == GenerateListingId(page.query, random)
    ensures d.title == "" && d.price == PriceText("") && d.currency == "" && d.seller == ""
    ensures d.date == now && d.url == page.href
  {
    ListingData(GenerateListingId(page.query, random), "", PriceText(""), "", "", now, page.href)
  }

  /** The `switch` on the detected marketplace: the override its parser
      returns, none for `Unknown`. */
  function ParseFor(page: Page, m: Marketplace): (o: Override)
    ensures m.Unknown? ==> o == Override(None, None)
    ensures o.price.Some? ==> m.Avito?
    ensures !m.Avito? && !m.Unknown? ==> o == ParseTitle(TitleElement(page, m))
    ensures m.Avito? ==> o == ParseAvito(page.itemName, page.itemPrice)
  {
    match m
    case Avito => ParseAvito(page.itemName, page.itemPrice)
    case YandexMarket => ParseTitle(page.heading)
    case Ozon => ParseTitle(page.ozonHeading)
    case Aliexpress => ParseTitle(page.productTitle)
    case Ebay => ParseTitle(page.ebayTitle)
    case Unknown => Override(None, None)
  }

  /** `collectListingData`: the default record, overridden by the detected
      marketplace's parser. `random` and `now` stand for `Math.random` and
      the clock. On avito, a throwing attribute read leaves the price unset
      (see `ParseAvito`), so the price stays the default `''`. */
  function CollectListingData(page: Page, random: string, now: int): (r: ListingData)
    ensures r.id == GenerateListingId(page.query, random)
    ensures r.currency == "" && r.seller == "" && r.date == now && r.url == page.href
    ensures DetectMarketplace(page.hostname).Unknown? ==> r == DefaultListing(page, random, now)
    ensures !DetectMarketplace(page.hostname).Avito? ==> r.price == PriceText("")
    ensures !DetectMarketplace(page.hostname).Avito? ==>
              r.title == (if TitleElement(page, DetectMarketplace(page.hostname)).Found?
                          then TitleElement(page, DetectMarketplace(page.hostname)).value else "")
    ensures DetectMarketplace(page.hostname).Avito? ==>
              r.title == (if page.itemName.Found? && !page.itemPrice.Fails? then page.itemName.value else "")
    ensures DetectMarketplace(page.hostname).Avito? ==>
              r.price == ParseAvito(page.itemName, page.itemPrice).price.GetOr(PriceText(""))
  {
    Merge(DefaultListing(page, random, now), ParseFor(page, DetectMarketplace(page.hostname)))
  }

  // ---------------------------------------------------------------------
  // Window-message filter
  // ---------------------------------------------------------------------

  /** `event.data` of a window message. */
  datatype EventData = EventData(fromMarketplaceAnalyzer: bool, action: string)

  /** A window `message` event: whether its source is this window, and its
      data (None: `null` or `undefined`, on which the listener throws). */
  datatype WindowEvent = WindowEvent(sourceIsWindow: bool, data: Option<EventData>)

  const CollectListingAction: string := "COLLECT_LISTING_DATA"
  const ListingViewed: string := "listing_viewed"

  /** The page-message listener: the runtime message it sends, if any. */
  function OnWindowMessage(ev: WindowEvent, page: Page, random: string, now: int): (r: Option<Request>)
    ensures r.Some? <==> ev.sourceIsWindow && ev.data.Some? &&
                         ev.data.value.fromMarketplaceAnalyzer && ev.data.value.action == CollectListingAction
    ensures r.Some? ==> r.value.action == SaveActivityAction && r.value.data.Some?
    ensures r.Some? ==>
              var d := r.value.data.value;
              d.kind == ListingViewed &&
              d.marketplace == DetectMarketplace(page.hostname).Name() &&
              d.details == CollectListingData(page, random, now) &&
              d.listingId == d.details.id && d.listingTitle == d.details.title
  {
    if !ev.sourceIsWindow then None
    else if ev.data.None? then None
    else if !ev.data.value.fromMarketplaceAnalyzer then None
    else if ev.data.value.action != CollectListingAction then None
    else
      var listing := CollectListingData(page, random, now);
      Some(Request(SaveActivityAction, Some(ActivityData(
        ListingViewed, DetectMarketplace(page.hostname).Name(), listing.id, listing.title, listing))))
  }
}
