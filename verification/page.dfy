/**
 * The page's UI state: project pagination, the certificate modal, the mobile
 * menu, the resume-download flag and the processed profile image. The React
 * state variables are the fields of `PageState`; each event handler is a
 * method that changes them.
 */
module Page {
  import opened Common
  import ProfileCrop

  /** Projects shown before "See More" is pressed. */
  const InitialProjectCount: nat := 6

  /** A project card; only its identity matters to the page logic. */
  datatype Project = Project(title: string)

  /** A certificate card, selected by its `id`. */
  datatype Certificate = Certificate(id: int, title: string)

  /** Where a click on the open certificate modal landed. */
  datatype ModalClick = Backdrop | CloseButton | Content

  /** No two certificates share an id. */
  predicate DistinctIds(certs: seq<Certificate>) {
    forall i, j :: 0 <= i < j < |certs| ==> certs[i].id != certs[j].id
  }

  /** `showAllProjects ? allProjects : allProjects.slice(0, 6)`. */
  function DisplayedProjects(all: seq<Project>, showAll: bool): (shown: seq<Project>)
    ensures |shown| == if showAll || |all| <= InitialProjectCount then |all| else InitialProjectCount
    ensures forall i :: 0 <= i < |shown| ==> shown[i] == all[i]
  {
    if showAll || |all| <= InitialProjectCount then all else all[..InitialProjectCount]
  }

  /** `!showAllProjects && allProjects.length > 6`: "See More Projects" is rendered exactly when some project is hidden. */
  predicate SeeMoreVisible(all: seq<Project>, showAll: bool)
    ensures SeeMoreVisible(all, showAll) <==> |DisplayedProjects(all, showAll)| < |all|
  {
    !showAll && |all| > InitialProjectCount
  }

  /** `showAllProjects`: "Show Less" is rendered only while the whole list is on screen. */
  predicate ShowLessVisible(all: seq<Project>, showAll: bool)
    ensures ShowLessVisible(all, showAll) ==> DisplayedProjects(all, showAll) == all
  {
    showAll
  }

  /**
   * `certificates.find(c => c.id === id)`: the first certificate carrying
   * `id`, or None when there is none.
   */
  function FindCertificate(certs: seq<Certificate>, id: int): (r: Option<Certificate>)
    ensures r.Some? ==> r.value in certs && r.value.id == id
    ensures r.None? <==> forall c :: c in certs ==> c.id != id
    // `find` returns the first match: no earlier certificate carries the id
    ensures r.Some? ==> exists k :: 0 <= k < |certs| && certs[k] == r.value &&
                                    forall j :: 0 <= j < k ==> certs[j].id != id
  {
    if certs == [] then None
    else if certs[0].id == id then Some(certs[0])
    else FindCertificate(certs[1..], id)
  }

  /** `selectedCertificate && …`: the modal is rendered while the selection is truthy, that is set and not 0. */
  predicate ModalOpen(selected: Option<int>)
    ensures ModalOpen(selected) ==> selected.Some?
    ensures selected == Some(0) ==> !ModalOpen(selected)
    // every other selection opens it, whether or not a certificate carries the id
    ensures selected.Some? && selected.value != 0 ==> ModalOpen(selected)
  {
    selected.Some? && selected.value != 0
  }

  /** With distinct ids, lookup by a card's id returns exactly that card. */
  lemma FindCertificateUnique(certs: seq<Certificate>, k: nat)
    requires DistinctIds(certs)
    requires k < |certs|
    ensures FindCertificate(certs, certs[k].id) == Some(certs[k])
  {
  }

  /** The collapsed list is the first six projects; the expanded list is all of them. */
  lemma CollapsedIsPrefix(all: seq<Project>)
    ensures DisplayedProjects(all, false) == all[..if |all| <= InitialProjectCount then |all| else InitialProjectCount]
    ensures DisplayedProjects(all, true) == all
  {
  }

  /** At most one of the two pagination buttons is ever rendered. */
  lemma PaginationButtonsExclusive(all: seq<Project>, showAll: bool)
    ensures !(SeeMoreVisible(all, showAll) && ShowLessVisible(all, showAll))
  {
  }

  /** When no button is rendered every project is already on screen. */
  lemma NoButtonMeansAllShown(all: seq<Project>, showAll: bool)
    requires !SeeMoreVisible(all, showAll) && !ShowLessVisible(all, showAll)
    ensures DisplayedProjects(all, showAll) == all
  {
  }

  class PageState {
    const certificates: seq<Certificate>
    const allProjects: seq<Project>
    var selectedCertificate: Option<int>
    var isDownloading: bool
    var mobileMenuOpen: bool
    var showAllProjects: bool
    var processedProfile: Option<string>

    /** The state right after mount. */
    constructor (certs: seq<Certificate>, projects: seq<Project>)
      ensures certificates == certs && allProjects == projects
      ensures selectedCertificate.None? && !isDownloading && !mobileMenuOpen
      ensures !showAllProjects && processedProfile.None?
    {
      certificates := certs;
      allProjects := projects;
      selectedCertificate := None;
      isDownloading := false;
      mobileMenuOpen := false;
      showAllProjects := false;
      processedProfile := None;
    }

    /** The project cards on screen. */
    function Displayed(): (shown: seq<Project>)
      reads this
      ensures |shown| <= |allProjects|
      ensures showAllProjects ==> shown == allProjects
      ensures !showAllProjects ==> shown == allProjects[..|shown|]
      ensures !showAllProjects ==> |shown| == if |allProjects| <= InitialProjectCount then |allProjects| else InitialProjectCount
    {
      DisplayedProjects(allProjects, showAllProjects)
    }

    /** The certificate shown inside the open modal, if any. */
    function ModalCertificate(): (c: Option<Certificate>)
      reads this
      ensures c.Some? ==>
                ModalOpen(selectedCertificate) && c.value in certificates && c.value.id == selectedCertificate.value
      ensures (ModalOpen(selectedCertificate) &&
               exists c' :: c' in certificates && c'.id == selectedCertificate.value) ==> c.Some?
    {
      if ModalOpen(selectedCertificate) then FindCertificate(certificates, selectedCertificate.value)
      else None
    }

    /** The `onload` handler of the profile image: keeps the encoded image only on success. */
    method OnProfileLoad(w: nat, h: nat, cancelled: bool, hasContext: bool, encoded: Option<string>)
      returns (draw: Option<ProfileCrop.DrawCall>)
      modifies this`processedProfile
      ensures draw == ProfileCrop.OnLoad(w, h, cancelled, hasContext, encoded).draw
      ensures processedProfile ==
        if !cancelled && hasContext && encoded.Some? then encoded else old(processedProfile)
    {
      var r := ProfileCrop.OnLoad(w, h, cancelled, hasContext, encoded);
      draw := r.draw;
      if r.dataUrl.Some? {
        processedProfile := r.dataUrl;
      }
    }

    /** The `src` of the profile image. */
    function ProfileSource(): (src: string)
      reads this
      ensures processedProfile.None? ==> src == ProfileCrop.ProfileFallback
      ensures processedProfile.Some? ==> src == processedProfile.value
    {
      ProfileCrop.DisplayedSource(processedProfile)
    }

    /** "See More Projects". */
    method SeeMore()
      modifies this`showAllProjects
      ensures showAllProjects
      ensures Displayed() == allProjects && ShowLessVisible(allProjects, showAllProjects)
    {
      showAllProjects := true;
    }

    /** "Show Less" (it also scrolls the projects section into view). */
    method ShowLess()
      modifies this`showAllProjects
      ensures !showAllProjects
      ensures SeeMoreVisible(allProjects, showAllProjects) <==> |allProjects| > InitialProjectCount
      ensures Displayed() == allProjects[..if |allProjects| <= InitialProjectCount then |allProjects| else InitialProjectCount]
      ensures !ShowLessVisible(allProjects, showAllProjects)
    {
      showAllProjects := false;
    }

    /** A click on a certificate card. */
    method SelectCertificate(id: int)
      modifies this`selectedCertificate
      ensures selectedCertificate == Some(id)
      ensures id != 0 ==> ModalOpen(selectedCertificate)
      // an id no certificate carries opens the modal with no certificate details in it
      ensures ModalCertificate() == if id != 0 then FindCertificate(certificates, id) else None
    {
      selectedCertificate := Some(id);
    }

    /** A click on the open modal: the backdrop and the close button close it; the content stops propagation. */
    method ClickModal(target: ModalClick)
      modifies this`selectedCertificate
      ensures selectedCertificate == if target == Content then old(selectedCertificate) else None
      ensures target != Content ==> !ModalOpen(selectedCertificate)
    {
      if target != Content {
        selectedCertificate := None;
      }
    }

    /** The mobile menu button. */
    method ToggleMenu()
      modifies this`mobileMenuOpen
      ensures mobileMenuOpen == !old(mobileMenuOpen)
    {
      mobileMenuOpen := !mobileMenuOpen;
    }

    /** `scrollToSection`: scrolls (not modelled) and closes the mobile menu. */
    method ScrollToSection()
      modifies this`mobileMenuOpen
      ensures !mobileMenuOpen
    {
      mobileMenuOpen := false;
    }

    /**
     * A press on the download button. While a download runs the button is
     * disabled and the press is dropped; otherwise `handleDownloadResume`
     * raises the flag.
     */
    method PressDownload() returns (started: bool)
      modifies this`isDownloading
      ensures started == !old(isDownloading)
      ensures isDownloading
    {
      started := !isDownloading;
      if started {
        isDownloading := true;
      }
    }

    /** The second timer of `handleDownloadResume`, after the file has been handed to the browser. */
    method DownloadFinished()
      modifies this`isDownloading
      ensures !isDownloading
    {
      isDownloading := false;
    }
  }

  /**
   * Clicking a card with a non-zero id opens the modal on exactly that card,
   * a click inside the panel keeps it there, and a click on the backdrop
   * hides the modal again. `shown` is the certificate shown before closing.
   */
  method CardClickOpensThatCard(page: PageState, k: nat) returns (shown: Option<Certificate>)
    requires DistinctIds(page.certificates)
    requires k < |page.certificates| && page.certificates[k].id != 0
    modifies page
    ensures shown == Some(page.certificates[k])
    ensures !ModalOpen(page.selectedCertificate) && page.ModalCertificate() == None
  {
    page.SelectCertificate(page.certificates[k].id);
    FindCertificateUnique(page.certificates, k);
    page.ClickModal(Content);
    shown := page.ModalCertificate();
    page.ClickModal(Backdrop);
  }
}
