/** Facts that connect the three scripts: the install settings name the
    content script's marketplaces, a page event reaches the head of the log,
    and the popup's list differs from the background's recent activity. */
module Pipeline {
  import opened Wrappers
  import opened Seqs
  import Content
  import Background
  import Popup

  /** How the popup reads an entry the background wrote: there is no
      `title` key, and the timestamp is an ISO string. */
  function ViewOf(e: Background.ActivityEntry): Popup.StoredActivity {
    Popup.StoredActivity(None, Popup.IsoString(e.timestamp))
  }

  /** The install-time marketplace list is the content script's tags for
      the known marketplaces, in detection order, and leaves out "unknown". */
  lemma SettingsNameDetectedMarketplaces()
    ensures |Background.DefaultSettings().marketplaces| == |Content.DetectionOrder|
    ensures forall i :: 0 <= i < |Content.DetectionOrder| ==>
              Background.DefaultSettings().marketplaces[i] == Content.DetectionOrder[i].Name()
    ensures Content.Marketplace.Unknown.Name() !in Background.DefaultSettings().marketplaces
  {
  }

  /** The background writes `listingTitle`, never `title`, so every entry
      it wrote shows as "Unknown" in the popup. */
  lemma SavedEntriesShowUnknown(e: Background.ActivityEntry, now: int)
    ensures Popup.ItemOf(ViewOf(e), now).title == Popup.UnknownTitle
    ensures Popup.ItemOf(ViewOf(e), now).time == Popup.FormatTime(Popup.IsoString(e.timestamp), now)
  {
  }

  /** The store keeps the newest entry at the head, and the popup lists the
      tail of the log last-first, so the popup starts from the oldest entry
      while `getStats` starts from the newest. For a log of at most ten
      entries the two lists are each other's reversal. */
  lemma ShortLogListsReversed<T>(log: seq<T>)
    requires |log| <= Background.RecentCount
    ensures Popup.SelectRecent(log) == Reverse(Background.Recent(log))
  {
  }

  /** The popup's selection of a reversed sequence is its first entries,
      in their order. */
  lemma SelectRecentOfReverse<T>(es: seq<T>)
    ensures Popup.SelectRecent(Reverse(es)) == Take(es, Popup.ShownCount)
  {
    var p, t := Popup.SelectRecent(Reverse(es)), Take(es, Popup.ShownCount);
    assert |p| == |t|;
    forall i | 0 <= i < |p| ensures p[i] == t[i] {
      assert p[i] == Reverse(es)[|es| - 1 - i];
    }
  }

  /** Saved one after another onto an empty log (within the bound), the
      popup lists the first entries ever saved, in the order they were
      saved, while `getStats` lists the last ones saved, newest first. */
  lemma PopupShowsFirstSaved<T>(es: seq<T>)
    requires |es| <= Background.MaxLog
    ensures Popup.SelectRecent(Background.SaveAll([], es)) == Take(es, Popup.ShownCount)
    ensures Background.Recent(Background.SaveAll([], es)) == Take(Reverse(es), Background.RecentCount)
  {
    Background.SaveAllFromEmpty(es);
    SelectRecentOfReverse(es);
  }

  /** Once the log holds twenty or more distinct entries, the popup and
      `getStats` show no entry in common. */
  lemma LongLogListsDisjoint<T>(log: seq<T>)
    requires |log| >= 2 * Background.RecentCount
    requires forall i, j :: 0 <= i < j < |log| ==> log[i] != log[j]
    ensures forall x :: x in Popup.SelectRecent(log) ==> x !in Background.Recent(log)
  {
  }

  /** A page's collect event, once the background handles the message it
      produces, puts the page's listing at the head of `getStats`' recent
      activities; on an empty log it is also the popup's only entry. */
  method CollectThenSave(store: Background.Store, ev: Content.WindowEvent, page: Content.Page,
                         random: string, clock: int, senderUrl: string, id: string)
    returns (response: Option<Background.Response>)
    requires ev.sourceIsWindow && ev.data == Some(Content.EventData(true, Content.CollectListingAction))
    modifies store
    ensures response == Some(Background.StatusSuccess)
    ensures store.GetStats().recentActivities != []
    ensures store.GetStats().recentActivities[0].listingId ==
              Content.CollectListingData(page, random, clock).id
    ensures store.GetStats().recentActivities[0].details ==
              Content.CollectListingData(page, random, clock)
    ensures store.GetStats().recentActivities[0].marketplace ==
              Content.DetectMarketplace(page.hostname).Name()
    ensures old(store.Log()) == [] ==>
              Popup.SelectRecent(store.Log()) == [store.GetStats().recentActivities[0]]
  {
    var msg := Content.OnWindowMessage(ev, page, random, clock);
    response := store.OnMessage(msg.value, senderUrl, id, clock, clock);
  }
}
