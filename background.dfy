/** The background worker (src/background.js): the extension's persisted
    key-value store and the handlers that read and write it. Each handler is
    one atomic step on the store; a key that was never written is `None`. */
module Background {
  import opened Wrappers
  import opened Seqs
  import opened Messages

  /** The activity log's length bound. */
  const MaxLog: nat := 1000
  /** How many entries `getStats` returns as recent activity. */
  const RecentCount: nat := 10
  const InstallReason: string := "install"

  datatype Settings = Settings(
    autoSync: bool,
    syncInterval: int,
    enableNotifications: bool,
    marketplaces: seq<string>)

  /** The settings written at install time. */
  function DefaultSettings(): (d: Settings)
    ensures d.autoSync && d.enableNotifications
    ensures d.syncInterval == 60 * 60 * 1000
    ensures |d.marketplaces| == 5
    ensures forall i, j :: 0 <= i < j < |d.marketplaces| ==> d.marketplaces[i] != d.marketplaces[j]
  {
    Settings(true, 3600000, true, ["avito", "yandex_market", "ozon", "aliexpress", "ebay"])
  }

  /** One entry of the activity log. `timestamp` is the clock reading in
      milliseconds that the source stores as an ISO string. */
  datatype ActivityEntry = ActivityEntry(
    id: string,
    timestamp: int,
    kind: string,            // `type` in the source
    marketplace: string,
    listingId: string,
    listingTitle: string,
    url: string,
    details: ListingData)

  /** The entry `handleSaveActivity` builds: the fields of the inbound data,
      the sender's URL, and a fresh identifier and clock reading. */
  function EntryOf(data: ActivityData, sourceUrl: string, id: string, timestamp: int): (e: ActivityEntry)
    ensures e.kind == data.kind && e.marketplace == data.marketplace
    ensures e.listingId == data.listingId && e.listingTitle == data.listingTitle
    ensures e.details == data.details && e.url == sourceUrl
    ensures e.id == id && e.timestamp == timestamp
  {
    ActivityEntry(id, timestamp, data.kind, data.marketplace, data.listingId,
                  data.listingTitle, sourceUrl, data.details)
  }

  // ---------------------------------------------------------------------
  // The capped log
  // ---------------------------------------------------------------------

  /** `log.unshift(e)`, then one `pop()` if the length is over `MaxLog`. */
  function PushCapped<T>(log: seq<T>, e: T): (r: seq<T>)
    ensures |r| == if |log| < MaxLog then |log| + 1 else |log|
    ensures r[0] == e
    ensures forall i :: 1 <= i < |r| ==> r[i] == log[i - 1]
    ensures |log| <= MaxLog ==> |r| <= MaxLog
  {
    var grown := [e] + log;
    if |grown| > MaxLog then grown[..|grown| - 1] else grown
  }

  /** On a full log, a save drops exactly the oldest (last) entry and keeps
      the other entries in order behind the new one. */
  lemma FullLogDropsOldest<T>(log: seq<T>, e: T)
    requires |log| == MaxLog
    ensures PushCapped(log, e) == [e] + log[..MaxLog - 1]
    ensures multiset(PushCapped(log, e)) + multiset{log[MaxLog - 1]} == multiset(log) + multiset{e}
  {
    assert log == log[..MaxLog - 1] + [log[MaxLog - 1]];
  }

  /** A log already over the bound loses only one entry per save, so it
      keeps its length instead of shrinking back to `MaxLog`. */
  lemma OverfullLogKeepsLength<T>(log: seq<T>, e: T)
    requires |log| > MaxLog
    ensures |PushCapped(log, e)| == |log| > MaxLog
  {
  }

  /** The log after saving `es` one after another, oldest first. */
  function SaveAll<T>(log: seq<T>, es: seq<T>): seq<T>
    decreases |es|
  {
    if es == [] then log else PushCapped(SaveAll(log, es[..|es| - 1]), es[|es| - 1])
  }

  /** Within the bound, one save is "put in front, keep the first MaxLog". */
  lemma PushCappedIsTake<T>(log: seq<T>, e: T)
    requires |log| <= MaxLog
    ensures PushCapped(log, e) == Take([e] + log, MaxLog)
  {
  }

  /** Keeping a prefix twice: the inner cut does not matter. */
  lemma TakeConsTake<T>(e: T, s: seq<T>, n: nat)
    ensures Take([e] + Take(s, n), n) == Take([e] + s, n)
  {
  }

  /** Saving a batch onto a log within the bound leaves the newest `MaxLog`
      entries of "batch, newest first, then the old log". */
  lemma {:induction false} SaveAllKeepsNewest<T>(log: seq<T>, es: seq<T>)
    requires |log| <= MaxLog
    ensures SaveAll(log, es) == Take(Reverse(es) + log, MaxLog)
    decreases |es|
  {
    if es == [] {
      assert Reverse(es) + log == log;
    } else {
      var init, last := es[..|es| - 1], es[|es| - 1];
      SaveAllKeepsNewest(log, init);
      var kept := SaveAll(log, init);
      PushCappedIsTake(kept, last);
      TakeConsTake(last, Reverse(init) + log, MaxLog);
      assert Reverse(es) == [last] + Reverse(init);
      assert [last] + (Reverse(init) + log) == Reverse(es) + log;
    }
  }

  /** Up to `MaxLog` saves onto an empty log keep every entry, newest first. */
  lemma SaveAllFromEmpty<T>(es: seq<T>)
    requires |es| <= MaxLog
    ensures SaveAll([], es) == Reverse(es)
  {
    SaveAllKeepsNewest([], es);
    assert Reverse(es) + [] == Reverse(es);
  }

  /** 1200 saves onto an empty log leave exactly 1000 entries: the last
      1000 saved, newest first. */
  lemma TwelveHundredSaves<T>(es: seq<T>)
    requires |es| == 1200
    ensures |SaveAll([], es)| == MaxLog
    ensures forall i :: 0 <= i < MaxLog ==> SaveAll([], es)[i] == es[1199 - i]
  {
    SaveAllKeepsNewest([], es);
    assert Reverse(es) + [] == Reverse(es);
  }

  /** `activityLog.slice(0, RecentCount)`. */
  function Recent<T>(log: seq<T>): (r: seq<T>)
    ensures |r| == if |log| < RecentCount then |log| else RecentCount
    ensures forall i :: 0 <= i < |r| ==> r[i] == log[i]
  {
    Take(log, RecentCount)
  }

  /** After a save the recent view is that of the new entry placed before
      the old log, whether or not the tail was popped: the new entry
      followed by the previous recent view, minus its last one when that
      overflows. */
  lemma RecentAfterSave<T>(log: seq<T>, e: T)
    ensures Recent(PushCapped(log, e)) == Recent([e] + log)
    ensures Recent(PushCapped(log, e)) == [e] + Take(Recent(log), RecentCount - 1)
  {
  }

  // ---------------------------------------------------------------------
  // The store and its handlers
  // ---------------------------------------------------------------------

  /** The reply of `handleGetStats`. */
  datatype Stats = Stats(totalActivities: nat, totalListings: nat, recentActivities: seq<ActivityEntry>)

  /** What the message listener sends back. */
  datatype Response = StatusSuccess | StatsReply(stats: Stats)

  class Store {
    var activityLog: Option<seq<ActivityEntry>>   // key activity_log
    var listings: Option<seq<ListingData>>        // key listings_data
    var settings: Option<Settings>                // key extension_settings
    var syncTime: Option<int>                     // key last_sync_time

    /** A store with no keys written. */
    constructor ()
      ensures activityLog.None? && listings.None? && settings.None? && syncTime.None?
    {
      activityLog, listings, settings, syncTime := None, None, None, None;
    }

    /** The activity log as the handlers read it: missing counts as empty. */
    function Log(): (s: seq<ActivityEntry>)
      reads this
      ensures activityLog.Some? ==> s == activityLog.value
      ensures activityLog.None? ==> s == []
    {
      activityLog.GetOr([])
    }

    /** The listings as the handlers read them: missing counts as empty. */
    function Listings(): (s: seq<ListingData>)
      reads this
      ensures listings.Some? ==> s == listings.value
      ensures listings.None? ==> s == []
    {
      listings.GetOr([])
    }

    /** The bound every save keeps, once it holds. */
    predicate Capped()
      reads this
    {
      |Log()| <= MaxLog
    }

    /** The `onInstalled` listener: only a fresh install writes the default
        settings and empty log and listings. */
    method OnInstalled(reason: string)
      modifies this
      ensures reason == InstallReason ==>
                settings == Some(DefaultSettings()) && listings == Some([]) &&
                activityLog == Some([]) && syncTime == old(syncTime)
      ensures reason != InstallReason ==> unchanged(this)
      ensures old(Capped()) ==> Capped()
    {
      if reason == InstallReason {
        settings := Some(DefaultSettings());
        listings := Some([]);
        activityLog := Some([]);
      }
    }

    /** `handleSaveActivity`: the new entry goes to the head of the log and
        the tail is popped once if the log is then over `MaxLog`; only the
        log and the sync time are written. Missing `data` makes reading
        `data.type` throw, which is caught, and nothing is written. */
    method SaveActivity(data: Option<ActivityData>, sourceUrl: string, id: string,
                        timestamp: int, syncNow: int)
      modifies this
      ensures data.None? ==> unchanged(this)
      ensures data.Some? ==>
                activityLog == Some(PushCapped(old(Log()), EntryOf(data.value, sourceUrl, id, timestamp))) &&
                syncTime == Some(syncNow)
      ensures listings == old(listings) && settings == old(settings)
      ensures old(Capped()) ==> Capped()
      ensures data.Some? ==> GetStats().recentActivities[0] == EntryOf(data.value, sourceUrl, id, timestamp)
    {
      if data.None? {
        return;
      }
      var currentLog := Log();
      var newEntry := EntryOf(data.value, sourceUrl, id, timestamp);
      currentLog := [newEntry] + currentLog;
      if |currentLog| > MaxLog {
        currentLog := currentLog[..|currentLog| - 1];
      }
      activityLog := Some(currentLog);
      syncTime := Some(syncNow);
    }

    /** `handleGetStats`: the counts of both collections and the first
        `RecentCount` log entries. */
    function GetStats(): (s: Stats)
      reads this
      ensures s.totalActivities == |Log()| && s.totalListings == |Listings()|
      ensures s.recentActivities == Recent(Log())
    {
      Stats(|Log()|, |Listings()|, Recent(Log()))
    }

    /** `handleClearData`: both collections become empty; the settings and
        the sync time stay. */
    method ClearData()
      modifies this
      ensures activityLog == Some([]) && listings == Some([])
      ensures settings == old(settings) && syncTime == old(syncTime)
      ensures GetStats() == Stats(0, 0, [])
      ensures Capped()
    {
      activityLog := Some([]);
      listings := Some([]);
    }

    /** The runtime-message listener: routes on `action`; an unrecognised
        action gets no reply and changes nothing. */
    method OnMessage(request: Request, senderUrl: string, id: string, timestamp: int, syncNow: int)
      returns (response: Option<Response>)
      modifies this
      ensures request.action == SaveActivityAction ==>
                response == Some(StatusSuccess) &&
                listings == old(listings) && settings == old(settings) &&
                (request.data.None? ==> unchanged(this)) &&
                (request.data.Some? ==>
                   activityLog == Some(PushCapped(old(Log()), EntryOf(request.data.value, senderUrl, id, timestamp))) &&
                   syncTime == Some(syncNow))
      ensures request.action == GetStatsAction ==>
                response == Some(StatsReply(GetStats())) && unchanged(this)
      ensures request.action == ClearDataAction ==>
                response == Some(StatusSuccess) && activityLog == Some([]) && listings == Some([]) &&
                settings == old(settings) && syncTime == old(syncTime)
      ensures request.action !in {SaveActivityAction, GetStatsAction, ClearDataAction} ==>
                response.None? && unchanged(this)
      ensures old(Capped()) ==> Capped()
    {
      if request.action == SaveActivityAction {
        SaveActivity(request.data, senderUrl, id, timestamp, syncNow);
        response := Some(StatusSuccess);
      } else if request.action == GetStatsAction {
        response := Some(StatsReply(GetStats()));
      } else if request.action == ClearDataAction {
        ClearData();
        response := Some(StatusSuccess);
      } else {
        response := None;
      }
    }
  }
}
