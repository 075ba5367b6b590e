/** The watch modal's decisions (components/WatchModal.tsx): the watch-next list
  * and when the modal asks to close or to switch video. */
module WatchModal {
  import opened Types
  import opened Seqs

  /** `nextVideos`: the catalogue without the current video and without shorts. */
  function NextVideos(catalogue: seq<Video>, current: Video): (r: seq<Video>)
    ensures IsSubsequence(r, catalogue)
    ensures forall v :: v in r <==> v in catalogue && v.id != current.id && !v.isShort
  {
    Filter(catalogue, IsNextCandidate(current))
  }

  /** The filter callback: another video, and not a short. */
  function IsNextCandidate(current: Video): Video -> bool {
    (v: Video) => v.id != current.id && !v.isShort
  }

  /** Every candidate is listed as often as it occurs in the catalogue. */
  lemma NextVideosCounts(catalogue: seq<Video>, current: Video)
    ensures forall v :: (multiset(NextVideos(catalogue, current))[v]
                         == if v.id != current.id && !v.isShort then multiset(catalogue)[v] else 0)
  {
    FilterCounts(catalogue, IsNextCandidate(current));
  }

  /** What the modal asks of its parent. */
  datatype ModalAction = NoAction | Close | SelectVideo(video: Video)

  /** The document keydown handler: only Escape closes. */
  function OnKeyDown(key: string): (a: ModalAction)
    ensures a == Close <==> key == "Escape"
    ensures a != Close ==> a == NoAction
  {
    if key == "Escape" then Close else NoAction
  }

  /** Where a click on the modal landed: the dimmed backdrop itself, or inside
    * the dialog (whose clicks bubble up to the backdrop's handler). The dialog's
    * own close button (×) calls `onClose` directly, which is
    * `App.AppState.HandleCloseWatchModal`. */
  datatype ClickTarget = Backdrop | InsideDialog

  /** `handleBackdropClick`: closes only when the target is the backdrop. */
  function OnBackdropClick(target: ClickTarget): (a: ModalAction)
    ensures a == Close <==> target == Backdrop
    ensures a != Close ==> a == NoAction
  {
    if target == Backdrop then Close else NoAction
  }

  /** A click on the i-th watch-next item selects that video, which is never the
    * one playing and never a short. */
  function OnWatchNextClick(catalogue: seq<Video>, current: Video, i: nat): (a: ModalAction)
    requires i < |NextVideos(catalogue, current)|
    ensures a == SelectVideo(NextVideos(catalogue, current)[i])
    ensures a.video in catalogue
    ensures a.video.id != current.id && !a.video.isShort
  {
    SelectVideo(NextVideos(catalogue, current)[i])
  }
}
