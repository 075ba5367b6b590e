/** The home feed's category filter (pages/HomePage.tsx). */
module HomePage {
  import opened Types
  import opened Seqs
  import opened VideoCard

  /** The predicate `videos.filter` applies for the selected category. */
  predicate MatchesCategory(v: Video, category: string, subscribedChannelIds: seq<string>, saved: seq<string>) {
    if category == "Shorts" then v.isShort
    else if v.isShort then false
    else if category == "All" then true
    else if category == "Subscriptions" then v.channel.id in subscribedChannelIds
    else if category == "Watch Later" then v.id in saved
    else v.category == category
  }

  /** The filter callback for one category, subscription list and saved list. */
  function InCategory(category: string, subscribedChannelIds: seq<string>, saved: seq<string>): Video -> bool {
    v => MatchesCategory(v, category, subscribedChannelIds, saved)
  }

  /** `filteredVideos`; the saved list is read from storage as the cards read it. */
  function FilteredVideos(videos: seq<Video>, category: string, subscribedChannelIds: seq<string>,
                          stored: Option<seq<string>>): (r: seq<Video>)
    ensures IsSubsequence(r, videos)
    ensures forall v :: v in r <==> v in videos && MatchesCategory(v, category, subscribedChannelIds, SavedVideos(stored))
  {
    Filter(videos, InCategory(category, subscribedChannelIds, SavedVideos(stored)))
  }

  /** A matching video is kept as often as it occurs; others never. */
  lemma FilteredVideosCounts(videos: seq<Video>, category: string, subscribedChannelIds: seq<string>,
                             stored: Option<seq<string>>)
    ensures forall v :: (multiset(FilteredVideos(videos, category, subscribedChannelIds, stored))[v]
                         == if MatchesCategory(v, category, subscribedChannelIds, SavedVideos(stored))
                            then multiset(videos)[v] else 0)
  {
    FilterCounts(videos, InCategory(category, subscribedChannelIds, SavedVideos(stored)));
  }

  /** The six cases of the filter, stated on membership in the result. */
  lemma CategoryCases(videos: seq<Video>, category: string, subscribedChannelIds: seq<string>,
                      stored: Option<seq<string>>, v: Video)
    requires v in videos
    ensures var r := FilteredVideos(videos, category, subscribedChannelIds, stored);
      && (category == "Shorts" ==> (v in r <==> v.isShort))
      && (category != "Shorts" && v.isShort ==> v !in r)
      && (category == "All" ==> (v in r <==> !v.isShort))
      && (category == "Subscriptions" ==> (v in r <==> !v.isShort && v.channel.id in subscribedChannelIds))
      && (category == "Watch Later" ==> (v in r <==> !v.isShort && v.id in SavedVideos(stored)))
      && (category !in {"Shorts", "All", "Subscriptions", "Watch Later"} ==>
            (v in r <==> !v.isShort && v.category == category))
  {
  }

  /** What the grid shows: the cards, or the "No videos found" message. */
  datatype HomeGrid = Cards(videos: seq<Video>) | NoVideosFound

  function HomeContent(videos: seq<Video>, category: string, subscribedChannelIds: seq<string>,
                       stored: Option<seq<string>>): (g: HomeGrid)
    ensures g.NoVideosFound? <==>
      forall v :: v in videos ==> !MatchesCategory(v, category, subscribedChannelIds, SavedVideos(stored))
    ensures g.Cards? ==> g.videos == FilteredVideos(videos, category, subscribedChannelIds, stored)
  {
    var r := FilteredVideos(videos, category, subscribedChannelIds, stored);
    if |r| > 0 then
      assert r[0] in r;
      Cards(r)
    else
      assert r == [];
      NoVideosFound
  }
}
