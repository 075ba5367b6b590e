/** A catalogue card's watch-later bookmark (components/VideoCard.tsx): the stored
  * list of saved ids, the toggle, and the card's `isSaved` flag. */
module VideoCard {
  import opened Types
  import opened Seqs

  /** `getSavedVideos`: the list under the 'savedVideos' key; nothing stored
    * reads as the empty list. */
  function SavedVideos(stored: Option<seq<string>>): (r: seq<string>)
    ensures stored.None? ==> r == []
    ensures stored.Some? ==> r == stored.value
  {
    stored.GetOr([])
  }

  /** `id => id !== videoId` */
  function IsOtherThan(id: string): string -> bool {
    x => x != id
  }

  /** `handleSaveClick`'s new list: a saved id is removed (every occurrence), an
    * unsaved one is appended. */
  function Toggle(saved: seq<string>, id: string): (r: seq<string>)
    ensures id in r <==> id !in saved
    ensures id in saved ==> IsSubsequence(r, saved) && forall x :: x in r <==> x in saved && x != id
    ensures id !in saved ==> r == saved + [id]
  {
    if id in saved then Filter(saved, IsOtherThan(id)) else saved + [id]
  }

  /** Removing keeps every other id as often as it occurred. */
  lemma ToggleRemovesOnlyThatId(saved: seq<string>, id: string)
    requires id in saved
    ensures forall x :: multiset(Toggle(saved, id))[x] == if x == id then 0 else multiset(saved)[x]
  {
    FilterCounts(saved, IsOtherThan(id));
  }

  /** Saving then unsaving an id gives back the original list exactly. */
  lemma {:induction false} ToggleTwiceRestores(saved: seq<string>, id: string)
    requires id !in saved
    ensures Toggle(Toggle(saved, id), id) == saved
  {
    FilterAppend(saved, [id], IsOtherThan(id));
    FilterKeepsAll(saved, IsOtherThan(id));
    assert Filter([id], IsOtherThan(id)) == [];
  }

  /** Unsaving then saving an id moves it to the end. */
  lemma ToggleTwiceMovesToEnd(saved: seq<string>, id: string)
    requires id in saved
    ensures Toggle(Toggle(saved, id), id) == Filter(saved, IsOtherThan(id)) + [id]
  {
  }

  /** A list without repeats keeps having none. */
  lemma ToggleKeepsNoDuplicates(saved: seq<string>, id: string)
    requires NoDuplicates(saved)
    ensures NoDuplicates(Toggle(saved, id))
  {
    if id in saved {
      FilterNoDuplicates(saved, IsOtherThan(id));
    } else {
      var r := saved + [id];
      forall i, j | 0 <= i < j < |r| ensures r[i] != r[j] {
        if j == |saved| {
          assert r[i] == saved[i];
        }
      }
    }
  }

  /** `formatViews`: the views text followed by " views". */
  function FormatViews(views: string): (r: string)
    ensures |r| == |views| + 6
    ensures r[..|views|] == views && r[|views|..] == " views"
  {
    views + " views"
  }

  /** The browser's local storage entry 'savedVideos', shared by every card and
    * by the home page. */
  class SavedVideosStore {
    var stored: Option<seq<string>>

    constructor (stored: Option<seq<string>>)
      ensures this.stored == stored
    {
      this.stored := stored;
    }
  }

  class Card {
    const video: Video
    var isSaved: bool

    /** Mounting: the `[video.id]` effect sets `isSaved` from storage. */
    constructor (video: Video, store: SavedVideosStore)
      ensures this.video == video
      ensures isSaved == (video.id in SavedVideos(store.stored))
    {
      this.video := video;
      isSaved := video.id in SavedVideos(store.stored);
    }

    /** `handleSaveClick`: reads the stored list, toggles this card's id, writes
      * the new list back and sets `isSaved` to the id's membership in it. */
    method HandleSaveClick(store: SavedVideosStore)
      modifies this`isSaved, store
      ensures store.stored == Some(Toggle(SavedVideos(old(store.stored)), video.id))
      ensures isSaved == (video.id in SavedVideos(store.stored))
      ensures isSaved == (video.id !in SavedVideos(old(store.stored)))
    {
      var saved := SavedVideos(store.stored);
      var updated;
      if video.id in saved {
        updated := Filter(saved, IsOtherThan(video.id));
        isSaved := false;
      } else {
        updated := saved + [video.id];
        isSaved := true;
      }
      store.stored := Some(updated);
    }
  }
}
