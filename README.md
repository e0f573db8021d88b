# Marketplace Activity Analyzer — verified model

A Dafny model of the sequential logic of a browser extension that watches
marketplace pages (avito, Yandex Market, ozon, AliExpress, eBay) and keeps a
log of what the user viewed. It has three scripts:

- **content script** (`content.dfy`, module `Content`). It finds the page's
  marketplace from the hostname, using the first of five substrings that
  occurs. It builds a listing record: a default record, overridden by that
  marketplace's parser. It takes the listing identifier from the `id` or
  `item` query parameter. It turns a `COLLECT_LISTING_DATA` window message
  into a `saveActivity` runtime message. DOM lookups are inputs (`Lookup`:
  found, absent, or throwing).
- **background worker** (`background.dfy`, module `Background`). The
  persisted key-value store is the class `Store`. Each key is an `Option`,
  and `None` means the key was never written. The handlers are methods:
  install-time initialisation, saving an activity, reading the stats,
  clearing, and routing a runtime message. A save puts the new entry at the
  head of the log. It then pops the tail once if the log is over 1000.
- **popup** (`popup.dfy`, module `Popup`). `formatTime` sorts the elapsed
  milliseconds into a `TimeLabel`. The recent-activity list is the last ten
  stored entries in reverse order, each shown as a (title, time) item.

`messages.dfy` holds the records that pass between the scripts. `seqs.dfy`
and `wrappers.dfy` are small helpers. `pipeline.dfy` (module `Pipeline`)
proves facts that span files:

- The install-time marketplace list is the content script's tags, in
  detection order.
- A collected page lands at the head of the stats' recent activities.
- The popup lists the OLDEST entries, oldest first. The stats list the
  newest entries, newest first. For ten or fewer entries the two lists are
  reversals of each other. From twenty distinct entries on they share
  nothing.
- Every entry the background writes shows as "Unknown" in the popup. The
  background stores `listingTitle`, and the popup reads `title`.

The model follows the code as written:

- The log is kept newest-first. Entries are inserted at the head, not
  appended at the tail.
- No code writes the listings collection. It is only initialised, counted
  and cleared, so it has no cap.
- A save does not validate the event's type or marketplace.
- The stats reply has no `lastUpdate` field.
- A page with no known marketplace still yields a record and a message,
  with marketplace `unknown`.
- The content script reads one listing per page. It has no batch limit, no
  title truncation and no debouncing.

## Model

| member | source | states |
|---|---|---|
| `Background.DefaultSettings` | src/background.js:14-19 | the install-time settings turn auto-sync and notifications on, sync every hour (3600000 ms) and list five distinct marketplaces |
| `Background.EntryOf` | src/background.js:47-56 | the new entry copies type, marketplace, listingId, listingTitle and details from the inbound data, takes url from the sender, and carries the fresh id and clock reading |
| `Background.PushCapped` | src/background.js:58-61 | the new entry is at index 0 and the old entries follow in order; the length grows by one below 1000 and stays the same at or above 1000; a log within the cap stays within it |
| `Background.FullLogDropsOldest` | src/background.js:59-60 | on a log of exactly 1000, a save keeps the first 999 in order behind the new entry; the multiset lost is exactly the former last (oldest) entry |
| `Background.OverfullLogKeepsLength` | src/background.js:58-61 | a log already over 1000 keeps its length after a save: one pop does not trim it back to 1000 |
| `Background.PushCappedIsTake` | src/background.js:58-61 | within the cap, one save equals "put the entry in front, keep the first 1000" |
| `Background.SaveAllKeepsNewest` | src/background.js:58-61 | saving a batch in order onto a log within the cap leaves the first 1000 of (batch newest-first, then the old log) |
| `Background.SaveAllFromEmpty` | src/background.js:58-61 | up to 1000 saves onto an empty log keep every entry, newest first |
| `Background.TwelveHundredSaves` | src/background.js:58-61 | 1200 saves onto an empty log leave exactly 1000 entries, the last 1000 saved, newest first |
| `Background.Recent` | src/background.js:85 | the recent activities are the first min(10, length) log entries, in log order |
| `Background.RecentAfterSave` | src/background.js:58-85 | after a save, the first ten entries are those of the new entry placed before the old log, whether or not the tail was popped: the new entry followed by the first nine of the previous recent view |
| `Background.Store.constructor` | src/background.js:3-8 | a store with none of its four keys written |
| `Background.Store.Log` | src/background.js:45 | a missing activity log is read as the empty log |
| `Background.Store.Listings` | src/background.js:80 | missing listings are read as the empty collection |
| `Background.Store.OnInstalled` | src/background.js:11-26 | reason `install` writes the default settings, an empty log and empty listings, and keeps the sync time; any other reason changes nothing; the 1000 cap is preserved |
| `Background.Store.SaveActivity` | src/background.js:42-70 | the log becomes the capped head insertion of an entry that copies type, marketplace, listingId, listingTitle and details from the data and url from the sender; the sync time is written; listings and settings are unchanged; the cap is preserved; the new entry is first in the stats; missing data changes nothing |
| `Background.Store.GetStats` | src/background.js:72-91 | totalActivities is the log length and totalListings the listings length, missing keys counting as empty; recentActivities is the first ten log entries |
| `Background.Store.ClearData` | src/background.js:93-98 | the log and the listings become empty; the settings and the sync time are unchanged; the stats then report 0, 0 and no entries |
| `Background.Store.OnMessage` | src/background.js:30-40 | `saveActivity` saves and replies success; `getStats` replies with the stats and changes nothing; `clearData` clears and replies success; any other action gets no reply and changes nothing; the cap is preserved |
| `Content.Includes` | src/content.js:37-41 | `includes`: a match needs the key to be no longer than the hostname; a key at the front matches; a match after the first character is a match |
| `Content.IncludesAt` | src/content.js:37-41 | the substring test used on the hostname holds exactly when the key occurs at some position |
| `Content.DetectMarketplace` | src/content.js:35-43 | a known result's key occurs in the hostname, and no key earlier in the order avito, market.yandex, ozon, aliexpress, ebay occurs; the result is `unknown` exactly when no key occurs |
| `Content.PlainYandexIsUnknown` | src/content.js:38-42 | the hostname `yandex.ru`, which contains `yandex` but not `market.yandex` nor any other key, is `unknown` |
| `Content.EarlierKeyWins` | src/content.js:37-41 | every hostname containing both `avito` and `ebay` is avito, the key tested first; `ebay.avito.ru` is one such hostname |
| `Content.GetParam` | src/content.js:153-154 | a parameter lookup is absent exactly when no pair has that name; otherwise it is the value of the first pair with that name |
| `Content.GenerateListingId` | src/content.js:152-155 | the identifier is the first `id` value when non-empty, else the first `item` value when non-empty, else the random string |
| `Content.EmptyFirstIdFallsThrough` | src/content.js:153-154 | an empty first `id` falls through to the random string, with no `item` present, even when a later `id` is non-empty |
| `Content.ParseAvito` | src/content.js:78-89 | an exception in either selector query or in reading the title text gives an empty override; otherwise title is the element text or `''`; price is the content attribute, `null` when the attribute is missing, `''` when the element is missing, and unset (title kept) when reading the attribute throws |
| `Content.ParseTitle` | src/content.js:91-133 | the yandex_market, ozon, aliexpress and ebay parsers never set price; they set title to the element text, or `''` when it is missing; an exception leaves title unset |
| `Content.DefaultListing` | src/content.js:47-55 | the default record: id from `generateListingId`: the query's `id`, else `item`, else the random string; empty title, price, currency and seller, date the clock, url the href |
| `Content.ParseFor` | src/content.js:57-73 | the switch runs avito's parser for avito and the title-only parser on each other known marketplace's element; `unknown` gives no override; only avito's override can set price |
| `Content.Merge` | src/content.js:59-71 | the spread merge keeps id, currency, seller, date and url; title and price come from the override when it sets them, else from the defaults |
| `Content.CollectListingData` | src/content.js:45-76 | id from `generateListingId`: the query's `id`, else `item`, else the random string; currency and seller are `''`, date is the clock and url the href; `unknown` gives the default record; only avito can set price: there it is the content text, `null` when the attribute is missing, and `''` when the element is missing, when a selector or title read throws, or when the attribute read throws; title is the marketplace element's text, or `''` when missing or when its parser threw before setting it |
| `Content.OnWindowMessage` | src/content.js:4-23 | a message is sent exactly when the source is the window, the flag is set and the action is `COLLECT_LISTING_DATA`; it is `saveActivity` of type `listing_viewed` with the detected marketplace, and listingId and listingTitle equal details' id and title |
| `Popup.FormatTime` | src/popup.js:110-126 | a falsy timestamp gives `unknown`; a difference under one minute, negatives included, gives `just now`; then N minutes (1..59), N hours (1..23) and N days (1..29), each with N the floor quotient; 30 days or more gives the absolute date |
| `Popup.BucketBoundaries` | src/popup.js:116-125 | exactly one minute, one hour and one day fall in the later bucket; 30 days minus 1 ms is 29 days; exactly 30 days is the absolute date |
| `Popup.TitleOf` | src/popup.js:52 | the title is the activity's own when present and non-empty, else `Unknown` |
| `Popup.ItemOf` | src/popup.js:52-54 | an item's title is `Unknown` exactly when the activity's title is missing, empty or `Unknown`, and otherwise the activity's own; its time is `formatTime` of the activity's timestamp, so `unknown` exactly when the timestamp is falsy and otherwise the just-now, minute, hour, day or date label |
| `Popup.SelectRecent` | src/popup.js:51 | the list has min(10, length) activities, and item i is the stored activity i places from the end |
| `Popup.RecentActivitiesView` | src/popup.js:46-57 | an empty or missing log gives the single empty-state item; otherwise min(10, length) items, item i rendering the stored activity i places from the end |
| `Pipeline.SettingsNameDetectedMarketplaces` | src/background.js:14-19 | the install-time marketplace list is the content script's tags of the five known marketplaces in detection order, without `unknown` |
| `Pipeline.SavedEntriesShowUnknown` | src/popup.js:52-53 | an entry written by the background shows the title `Unknown` and the time of its own timestamp |
| `Pipeline.SelectRecentOfReverse` | src/popup.js:51 | on a newest-first log, the popup's selection is the first ten entries saved, in the order they were saved |
| `Pipeline.PopupShowsFirstSaved` | src/popup.js:51 | after saving a batch onto an empty log within the cap, the popup lists the first ten saved, oldest first, while the stats list the last ten saved, newest first |
| `Pipeline.ShortLogListsReversed` | src/popup.js:51 | for at most ten entries, the popup's list is the reversal of the stats' recent activities |
| `Pipeline.LongLogListsDisjoint` | src/popup.js:51 | with twenty or more distinct entries, no entry in the popup's list is among the stats' recent activities |
| `Pipeline.CollectThenSave` | src/content.js:10-21 | a collect event, once handled by the background, makes the page's listing (its id, record and marketplace) the head of the stats' recent activities; on an empty log it is also the popup's only entry |

## Left out

- The `chrome.runtime` and `chrome.storage` calls are asynchronous. The model makes each handler one atomic step on in-memory state.
- Overlapping saves can lose updates because each save reads, changes and then writes the log. This is concurrency, which a sequential model cannot state.
- `saveActivity` is acknowledged before the save finishes. This response timing is not modelled; only the routing is.
- Storage failures are not modelled. These cover the `catch` branches around storage calls and the `{ error }` reply of `getStats`.
- A stored value that is not an array is not modelled, because the model types each key.
- `generateId`, `Math.random`, `Date.now()` and `new Date()` are parameters: an identifier, a random string and clock readings in milliseconds.
- ISO date formatting and parsing are not modelled. Timestamps are integer milliseconds.
- `toLocaleDateString` depends on the locale, so the label is the opaque `AbsoluteDate(timestamp)`.
- `URLSearchParams` decoding is not modelled (section 5.1 of the WHATWG URL Standard). The query arrives as decoded (name, value) pairs.
- Real DOM access is not modelled: `querySelector`, `innerText`, `nextElementSibling` and `getAttribute` are abstract `Lookup` inputs.
- `injectTrackingCode` and the click listener it installs are not modelled. Both are script injection.
- The content script's runtime listener (`getListingData`, `injectTracking`) is not modelled. It is I/O around `collectListingData`, which is modelled.
- In the popup, `loadStats`, `setupEventListeners`, `clearData` with `confirm` and `alert`, and `exportData` are not modelled. These are UI side effects and the JSON download.
- The `innerHTML` markup is not modelled. An item is its (title, time) pair.
- Console logging is not modelled.
- Popup.FormatTime: does not model a timestamp string that fails to parse (a `NaN` difference). Timestamps here are always integers.
