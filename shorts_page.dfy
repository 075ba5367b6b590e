/** The vertical shorts feed (pages/ShortsPage.tsx): which panel is "visible",
  * decided by intersection reports, and each panel's play/pause state. */
module ShortsPage {
  import opened Types
  import opened Seqs
  import opened Decimal
  import opened Media

  /** `videos.filter(v => v.isShort)`: the feed, in catalogue order. */
  function ShortVideos(videos: seq<Video>): (r: seq<Video>)
    ensures IsSubsequence(r, videos)
    ensures forall v :: v in r <==> v in videos && v.isShort
  {
    Filter(videos, IsShortVideo)
  }

  function IsShortVideo(v: Video): bool {
    v.isShort
  }

  /** Every short stays as often as it occurs in the catalogue. */
  lemma ShortVideosCounts(videos: seq<Video>)
    ensures forall v :: multiset(ShortVideos(videos))[v] == if v.isShort then multiset(videos)[v] else 0
  {
    FilterCounts(videos, IsShortVideo);
  }

  /** A catalogue of shorts only is its own feed. */
  lemma ShortVideosOfShorts(videos: seq<Video>)
    requires forall i :: 0 <= i < |videos| ==> videos[i].isShort
    ensures ShortVideos(videos) == videos
  {
    FilterKeepsAll(videos, IsShortVideo);
  }

  // ---------------------------------------------------------------- which panel is visible

  /** `isVisible={index === visibleIndex}` */
  predicate IsVisible(index: int, visibleIndex: int) {
    index == visibleIndex
  }

  /** The `isVisible` prop of each of `n` panels. */
  function VisibilityFlags(n: nat, visibleIndex: nat): (r: seq<bool>)
    ensures |r| == n
    ensures forall i :: 0 <= i < n ==> r[i] == IsVisible(i, visibleIndex)
  {
    seq(n, i => IsVisible(i, visibleIndex))
  }

  function CountTrue(flags: seq<bool>): nat {
    if flags == [] then 0 else (if flags[0] then 1 else 0) + CountTrue(flags[1..])
  }

  /** Exactly one panel is visible when the index is inside the feed, none
    * otherwise (in particular none in an empty feed). */
  lemma {:induction false} VisibleCount(n: nat, visibleIndex: nat)
    ensures CountTrue(VisibilityFlags(n, visibleIndex)) == if visibleIndex < n then 1 else 0
  {
    if n > 0 {
      var flags := VisibilityFlags(n, visibleIndex);
      VisibleCount(n - 1, visibleIndex);
      CountTrueSnoc(flags[..n - 1], flags[n - 1]);
      assert flags == flags[..n - 1] + [flags[n - 1]];
      assert flags[..n - 1] == VisibilityFlags(n - 1, visibleIndex);
    }
  }

  lemma {:induction false} CountTrueSnoc(flags: seq<bool>, b: bool)
    ensures CountTrue(flags + [b]) == CountTrue(flags) + if b then 1 else 0
  {
    if flags != [] {
      assert (flags + [b])[1..] == flags[1..] + [b];
      CountTrueSnoc(flags[1..], b);
    } else {
      assert [b][1..] == [];
    }
  }

  /** No two panels are visible at once. */
  lemma AtMostOneVisible(n: nat, visibleIndex: nat, i: nat, j: nat)
    requires i < n && j < n && i != j
    ensures !(VisibilityFlags(n, visibleIndex)[i] && VisibilityFlags(n, visibleIndex)[j])
  {
  }

  // ---------------------------------------------------------------- intersection reports

  /** One IntersectionObserver entry: whether its panel crossed into view, and the
    * panel's `data-index` attribute (absent when `getAttribute` returns null). */
  datatype IntersectionEntry = IntersectionEntry(isIntersecting: bool, dataIndex: Option<string>)

  /** Panel i renders `data-index={i}`, i.e. the decimal text of i. */
  function DataIndexAttribute(index: nat): (r: string)
    ensures AllDigits(r)
  {
    NatToString(index)
  }

  /** The observed elements are the panels, whose attributes are digit strings. */
  predicate WellFormedAttribute(attribute: Option<string>) {
    attribute.Some? ==> AllDigits(attribute.value)
  }

  /** `parseInt(getAttribute('data-index') || '0', 10)`: a missing (or empty)
    * attribute reads as 0. */
  function ReadIndex(attribute: Option<string>): (index: nat)
    requires WellFormedAttribute(attribute)
    ensures attribute.None? || attribute.value == "" ==> index == 0
  {
    var text := if attribute.None? || attribute.value == "" then "0" else attribute.value;
    DecimalValue(text)
  }

  /** Reading a panel's own attribute gives back its position. */
  lemma ReadIndexRoundTrip(index: nat)
    ensures ReadIndex(Some(DataIndexAttribute(index))) == index
  {
    NatToStringRoundTrip(index);
  }

  predicate WellFormedEntries(entries: seq<IntersectionEntry>) {
    forall k :: 0 <= k < |entries| ==> WellFormedAttribute(entries[k].dataIndex)
  }

  /** The index the observer callback leaves behind: the last intersecting entry
    * of the batch wins; a batch with none leaves `current`. */
  function LastIntersecting(entries: seq<IntersectionEntry>, current: nat): (r: nat)
    requires WellFormedEntries(entries)
    ensures (forall k :: 0 <= k < |entries| ==> !entries[k].isIntersecting) ==> r == current
    ensures (exists k :: 0 <= k < |entries| && entries[k].isIntersecting) ==>
      exists k :: 0 <= k < |entries| && entries[k].isIntersecting
        && r == ReadIndex(entries[k].dataIndex)
        && forall j :: k < j < |entries| ==> !entries[j].isIntersecting
  {
    if entries == [] then current
    else
      var last := entries[|entries| - 1];
      if last.isIntersecting then ReadIndex(last.dataIndex)
      else LastIntersecting(entries[..|entries| - 1], current)
  }

  /** The request a panel's `[isVisible]` effect issues. */
  function VisibilityRequest(visible: bool, hasMedia: bool): (r: MediaRequest)
    ensures r == PlayMedia <==> visible && hasMedia
    ensures r == PauseMedia <==> !visible && hasMedia
  {
    if !hasMedia then NoMediaRequest else if visible then PlayMedia else PauseMedia
  }

  // ---------------------------------------------------------------- the components

  /** One ShortsPlayer: its `isVisible` prop and its own `isPlaying` state. */
  class ShortsPlayer {
    const video: Video
    /** `videoRef.current` is attached. */
    const hasMedia: bool
    /** What the effect's first run asked of the element when the panel mounted. */
    const mountRequest: MediaRequest
    var isVisible: bool
    var isPlaying: bool

    /** Mounting with the given prop; the effect's first run sets `isPlaying`
      * to it and asks the element to play or pause accordingly. */
    constructor (video: Video, hasMedia: bool, isVisible: bool)
      ensures this.video == video && this.hasMedia == hasMedia
      ensures this.isVisible == isVisible && isPlaying == isVisible
      ensures mountRequest == VisibilityRequest(isVisible, hasMedia)
    {
      this.video := video;
      this.hasMedia := hasMedia;
      this.isVisible := isVisible;
      mountRequest := VisibilityRequest(isVisible, hasMedia);
      isPlaying := isVisible;
    }

    /** A re-render with a new `isVisible`: the effect runs only on a change, and
      * then plays and sets `isPlaying`, or pauses and clears it. */
    method UpdateVisibility(visible: bool) returns (request: MediaRequest)
      modifies this`isVisible, this`isPlaying
      ensures isVisible == visible
      ensures visible == old(isVisible) ==> isPlaying == old(isPlaying) && request == NoMediaRequest
      ensures visible != old(isVisible) ==>
        isPlaying == visible && request == VisibilityRequest(visible, hasMedia)
    {
      if visible != isVisible {
        isVisible := visible;
        request := VisibilityRequest(visible, hasMedia);
        isPlaying := visible;
      } else {
        request := NoMediaRequest;
      }
    }

    /** `handleVideoClick`: a tap flips `isPlaying` and issues the matching call;
      * nothing happens without a media element. */
    method HandleVideoClick() returns (request: MediaRequest)
      modifies this`isPlaying
      ensures hasMedia ==> isPlaying == !old(isPlaying)
      ensures hasMedia ==> request == (if isPlaying then PlayMedia else PauseMedia)
      ensures !hasMedia ==> isPlaying == old(isPlaying) && request == NoMediaRequest
    {
      if hasMedia {
        if isPlaying {
          request := PauseMedia;
          isPlaying := false;
        } else {
          request := PlayMedia;
          isPlaying := true;
        }
      } else {
        request := NoMediaRequest;
      }
    }
  }

  /** The page: the feed, one player per feed entry, and `visibleIndex`. */
  class ShortsFeed {
    const shorts: seq<Video>
    const panels: seq<ShortsPlayer>
    var visibleIndex: nat

    ghost predicate Valid()
      reads this, panels
    {
      && |panels| == |shorts|
      && (forall i, j :: 0 <= i < j < |panels| ==> panels[i] != panels[j])
      && (forall i :: 0 <= i < |panels| ==> panels[i].video == shorts[i])
      && (forall i :: 0 <= i < |panels| ==> panels[i].isVisible == IsVisible(i, visibleIndex))
    }

    /** Every panel but the visible one is paused. Mounting and scrolling keep
      * this; a tap on a panel that is not visible breaks it. */
    ghost predicate PausedUnlessVisible()
      reads this, panels
    {
      forall i :: 0 <= i < |panels| ==> panels[i].isPlaying ==> panels[i].isVisible
    }

    /** While every other panel is paused, at most one panel plays. */
    lemma AtMostOnePlays(i: nat, j: nat)
      requires Valid() && PausedUnlessVisible()
      requires i < j < |panels|
      ensures !(panels[i].isPlaying && panels[j].isPlaying)
    {
      AtMostOneVisible(|panels|, visibleIndex, i, j);
    }

    /** Mounting: the feed is the short videos, `visibleIndex` starts at 0, so the
      * first panel (if any) plays and the others are paused. With the elements
      * attached, panel 0 is the only one to request play; an empty feed requests
      * nothing. */
    constructor (videos: seq<Video>, mediaAttached: bool)
      ensures Valid() && fresh(panels) && PausedUnlessVisible()
      ensures shorts == ShortVideos(videos) && visibleIndex == 0
      ensures forall i :: 0 <= i < |panels| ==>
        panels[i].isPlaying == (i == 0) && panels[i].hasMedia == mediaAttached
      ensures forall i :: 0 <= i < |panels| ==>
        panels[i].mountRequest == VisibilityRequest(i == 0, mediaAttached)
      ensures forall i :: 0 <= i < |panels| ==>
        (panels[i].mountRequest == PlayMedia <==> i == 0 && mediaAttached)
      ensures (exists i :: 0 <= i < |panels| && panels[i].mountRequest == PlayMedia)
        <==> |shorts| > 0 && mediaAttached
    {
      var feed := ShortVideos(videos);
      var ps := MountPanels(feed, mediaAttached);
      shorts := feed;
      panels := ps;
      visibleIndex := 0;
      if |ps| > 0 {
        assert ps[0].mountRequest == VisibilityRequest(true, mediaAttached);
      }
    }

    /** `shortVideos.map(...)`: one freshly mounted player per feed entry. */
    static method MountPanels(feed: seq<Video>, mediaAttached: bool) returns (ps: seq<ShortsPlayer>)
      ensures |ps| == |feed|
      ensures forall k, l :: 0 <= k < l < |ps| ==> ps[k] != ps[l]
      ensures forall k :: 0 <= k < |ps| ==> fresh(ps[k])
      ensures forall k :: 0 <= k < |ps| ==> ps[k].video == feed[k] && ps[k].hasMedia == mediaAttached
      ensures forall k :: 0 <= k < |ps| ==> ps[k].isVisible == (k == 0) && ps[k].isPlaying == (k == 0)
      ensures forall k :: 0 <= k < |ps| ==> ps[k].mountRequest == VisibilityRequest(k == 0, mediaAttached)
    {
      ps := [];
      var i := 0;
      while i < |feed|
        invariant 0 <= i <= |feed| && |ps| == i
        invariant forall k, l :: 0 <= k < l < i ==> ps[k] != ps[l]
        invariant forall k :: 0 <= k < i ==> fresh(ps[k])
        invariant forall k :: 0 <= k < i ==> ps[k].video == feed[k] && ps[k].hasMedia == mediaAttached
        invariant forall k :: 0 <= k < i ==> ps[k].isVisible == (k == 0) && ps[k].isPlaying == (k == 0)
        invariant forall k :: 0 <= k < i ==> ps[k].mountRequest == VisibilityRequest(k == 0, mediaAttached)
      {
        var p := new ShortsPlayer(feed[i], mediaAttached, i == 0);
        ps := ps + [p];
        i := i + 1;
      }
    }

    /** The observer callback for one batch of entries, then the re-render that
      * follows it. `requests[i]` is what panel i asked of its element. */
    method OnIntersection(entries: seq<IntersectionEntry>) returns (requests: seq<MediaRequest>)
      requires Valid() && WellFormedEntries(entries)
      modifies this`visibleIndex, panels
      ensures Valid()
      ensures old(PausedUnlessVisible()) ==> PausedUnlessVisible()
      ensures visibleIndex == LastIntersecting(entries, old(visibleIndex))
      ensures |requests| == |panels|
      ensures forall i :: 0 <= i < |panels| ==>
        if IsVisible(i, old(visibleIndex)) == IsVisible(i, visibleIndex) then
          panels[i].isPlaying == old(panels[i].isPlaying) && requests[i] == NoMediaRequest
        else
          panels[i].isPlaying == IsVisible(i, visibleIndex)
          && requests[i] == VisibilityRequest(IsVisible(i, visibleIndex), panels[i].hasMedia)
    {
      var previous := visibleIndex;
      ObserverCallback(entries);
      requests := Rerender(previous);
    }

    /** `entries.forEach(...)`: each intersecting entry overwrites `visibleIndex`. */
    method ObserverCallback(entries: seq<IntersectionEntry>)
      requires WellFormedEntries(entries)
      modifies this`visibleIndex
      ensures visibleIndex == LastIntersecting(entries, old(visibleIndex))
    {
      var k := 0;
      while k < |entries|
        invariant 0 <= k <= |entries|
        invariant visibleIndex == LastIntersecting(entries[..k], old(visibleIndex))
      {
        assert entries[..k + 1][..k] == entries[..k];
        if entries[k].isIntersecting {
          visibleIndex := ReadIndex(entries[k].dataIndex);
        }
        k := k + 1;
      }
      assert entries[..k] == entries;
    }

    /** The re-render after `visibleIndex` moved from `previous`: every panel gets
      * `isVisible = (index == visibleIndex)`; those whose prop changed run their
      * effect. */
    method Rerender(previous: nat) returns (requests: seq<MediaRequest>)
      requires |panels| == |shorts|
      requires forall i, j :: 0 <= i < j < |panels| ==> panels[i] != panels[j]
      requires forall i :: 0 <= i < |panels| ==> panels[i].video == shorts[i]
      requires forall i :: 0 <= i < |panels| ==> panels[i].isVisible == IsVisible(i, previous)
      modifies panels
      ensures Valid()
      ensures |requests| == |panels|
      ensures forall i :: 0 <= i < |panels| ==>
        if IsVisible(i, previous) == IsVisible(i, visibleIndex) then
          panels[i].isPlaying == old(panels[i].isPlaying) && requests[i] == NoMediaRequest
        else
          panels[i].isPlaying == IsVisible(i, visibleIndex)
          && requests[i] == VisibilityRequest(IsVisible(i, visibleIndex), panels[i].hasMedia)
    {
      requests := [];
      var i := 0;
      while i < |panels|
        invariant 0 <= i <= |panels| && |requests| == i
        invariant forall j :: i <= j < |panels| ==>
          panels[j].isVisible == old(panels[j].isVisible) && panels[j].isPlaying == old(panels[j].isPlaying)
        invariant forall j :: 0 <= j < i ==> panels[j].isVisible == IsVisible(j, visibleIndex)
        invariant forall j :: 0 <= j < i ==>
          if IsVisible(j, previous) == IsVisible(j, visibleIndex) then
            panels[j].isPlaying == old(panels[j].isPlaying) && requests[j] == NoMediaRequest
          else
            panels[j].isPlaying == IsVisible(j, visibleIndex)
            && requests[j] == VisibilityRequest(IsVisible(j, visibleIndex), panels[j].hasMedia)
      {
        var r := panels[i].UpdateVisibility(IsVisible(i, visibleIndex));
        requests := requests + [r];
        i := i + 1;
      }
    }

    /** A tap on panel `index`: only that panel changes, `visibleIndex` stays. */
    method TapPanel(index: nat) returns (request: MediaRequest)
      requires Valid() && index < |panels|
      modifies panels[index]
      ensures Valid() && visibleIndex == old(visibleIndex)
      ensures old(PausedUnlessVisible()) && index == visibleIndex ==> PausedUnlessVisible()
      ensures panels[index].hasMedia ==> panels[index].isPlaying == !old(panels[index].isPlaying)
      ensures panels[index].hasMedia ==>
        request == (if panels[index].isPlaying then PlayMedia else PauseMedia)
      ensures !panels[index].hasMedia ==>
        panels[index].isPlaying == old(panels[index].isPlaying) && request == NoMediaRequest
    {
      request := panels[index].HandleVideoClick();
    }
  }

  /** Three shorts A, B, C, B crosses into view: the index becomes 1, A pauses, B
    * plays and C is left alone. */
  method ThreeShortsScenario(a: Video, b: Video, c: Video) returns (requests: seq<MediaRequest>)
    requires a.isShort && b.isShort && c.isShort
    ensures requests == [PauseMedia, PlayMedia, NoMediaRequest]
  {
    ShortVideosOfShorts([a, b, c]);
    var feed := new ShortsFeed([a, b, c], true);
    assert |feed.panels| == 3;
    var entry := IntersectionEntry(true, Some(DataIndexAttribute(1)));
    ReadIndexRoundTrip(1);
    assert LastIntersecting([entry], 0) == 1;
    requests := feed.OnIntersection([entry]);
    assert feed.visibleIndex == 1;
  }

  /** Three shorts, just mounted: a tap on the third, which is not visible,
    * starts it while the first keeps playing. */
  method TapHiddenPanelScenario(a: Video, b: Video, c: Video)
    returns (firstPlaying: bool, thirdPlaying: bool, thirdVisible: bool)
    requires a.isShort && b.isShort && c.isShort
    ensures firstPlaying && thirdPlaying && !thirdVisible
  {
    ShortVideosOfShorts([a, b, c]);
    var feed := new ShortsFeed([a, b, c], true);
    assert |feed.panels| == 3;
    var request := feed.TapPanel(2);
    firstPlaying := feed.panels[0].isPlaying;
    thirdPlaying := feed.panels[2].isPlaying;
    thirdVisible := feed.panels[2].isVisible;
  }
}
