/** The application shell's state (App.tsx): the current page, the video open in
  * the watch modal, the upload dialog flag and the home feed's category. */
module App {
  import opened Types

  /** What `renderPage` puts in the main area. */
  datatype PageView = ShortsView | HomeView(category: string)

  /** The sidebar's five entries (components/Sidebar.tsx). */
  datatype SidebarItem = HomeItem | ShortsItem | GamingItem | SubscriptionsItem | WatchLaterItem

  class AppState {
    var currentPage: Page
    var selectedVideo: Option<Video>
    var isUploadModalOpen: bool
    var selectedCategory: string

    constructor ()
      ensures currentPage == Home && selectedVideo == None
      ensures !isUploadModalOpen && selectedCategory == "All"
    {
      currentPage := Home;
      selectedVideo := None;
      isUploadModalOpen := false;
      selectedCategory := "All";
    }

    /** Body scrolling is locked while a modal is showing. */
    predicate ScrollLocked()
      reads this
    {
      selectedVideo.Some? || isUploadModalOpen
    }

    /** The scroll-lock effect's `document.body.style.overflow`. */
    function BodyOverflow(): (r: string)
      reads this
      ensures r == "hidden" <==> selectedVideo.Some? || isUploadModalOpen
      ensures r == "auto" <==> selectedVideo.None? && !isUploadModalOpen
    {
      if ScrollLocked() then "hidden" else "auto"
    }

    /** `renderPage`: the shorts page for 'shorts', the home page for every other
      * page ('channel' included). */
    function RenderPage(): (v: PageView)
      reads this
      ensures v == ShortsView <==> currentPage == Shorts
      ensures v.HomeView? ==> v.category == selectedCategory
    {
      match currentPage
      case Shorts => ShortsView
      case _ => HomeView(selectedCategory)
    }

    /** `handleNavigate`: closes the watch modal, sets page and category (default
      * 'All'); the upload dialog is left as it is. */
    method HandleNavigate(page: Page, category: string := "All")
      modifies this
      ensures currentPage == page && selectedCategory == category && selectedVideo == None
      ensures isUploadModalOpen == old(isUploadModalOpen)
      ensures ScrollLocked() == isUploadModalOpen
    {
      selectedVideo := None;
      currentPage := page;
      selectedCategory := category;
    }

    /** The sidebar entries' `onNavigate` arguments; Shorts passes no category. */
    method NavigateFromSidebar(item: SidebarItem)
      modifies this
      ensures selectedVideo == None && isUploadModalOpen == old(isUploadModalOpen)
      ensures currentPage == (if item == ShortsItem then Shorts else Home)
      ensures selectedCategory == match item
        case HomeItem => "All"
        case ShortsItem => "All"
        case GamingItem => "Gaming"
        case SubscriptionsItem => "Subscriptions"
        case WatchLaterItem => "Watch Later"
    {
      match item {
        case HomeItem => HandleNavigate(Home, "All");
        case ShortsItem => HandleNavigate(Shorts);
        case GamingItem => HandleNavigate(Home, "Gaming");
        case SubscriptionsItem => HandleNavigate(Home, "Subscriptions");
        case WatchLaterItem => HandleNavigate(Home, "Watch Later");
      }
    }

    /** The header logo: `handleNavigate('home')`. */
    method OnLogoClick()
      modifies this
      ensures currentPage == Home && selectedCategory == "All" && selectedVideo == None
      ensures isUploadModalOpen == old(isUploadModalOpen)
    {
      HandleNavigate(Home);
    }

    /** `handleVideoSelect` (a card, or a watch-next item in the modal). */
    method HandleVideoSelect(video: Video)
      modifies this`selectedVideo
      ensures selectedVideo == Some(video) && ScrollLocked()
    {
      selectedVideo := Some(video);
    }

    /** `handleCloseWatchModal`. */
    method HandleCloseWatchModal()
      modifies this`selectedVideo
      ensures selectedVideo == None
      ensures ScrollLocked() == isUploadModalOpen
    {
      selectedVideo := None;
    }

    /** The home page's category chips (`onSelectCategory`). */
    method SelectCategory(category: string)
      modifies this`selectedCategory
      ensures selectedCategory == category
    {
      selectedCategory := category;
    }

    /** The header's upload button and the dialog's close. */
    method OpenUploadModal()
      modifies this`isUploadModalOpen
      ensures isUploadModalOpen && ScrollLocked()
    {
      isUploadModalOpen := true;
    }

    method CloseUploadModal()
      modifies this`isUploadModalOpen
      ensures !isUploadModalOpen
      ensures ScrollLocked() == selectedVideo.Some?
    {
      isUploadModalOpen := false;
    }
  }
}
