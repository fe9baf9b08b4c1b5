/**
 * The public certificates section: a carousel showing six certificates at a
 * time, with previous/next buttons and one dot per page once there are more
 * than six, and a dialog for the selected certificate. When the database
 * cannot deliver a list, six built-in sample certificates are shown.
 */
module CertificatesSectionComponent {
  import opened Wrappers
  import opened Records
  import opened Remote

  /** `itemsPerView`. */
  const ItemsPerView: int := 6

  /** JavaScript's relative index for `slice`: negative counts from the end, then clamped to `[0, n]`. */
  function SliceBound(k: int, n: nat): (r: nat)
    ensures r <= n
    ensures 0 <= k <= n ==> r == k
  {
    if k < 0 then (if n + k < 0 then 0 else n + k) else if k > n then n else k
  }

  /** `s.slice(a, b)`. */
  function JsSlice<T>(s: seq<T>, a: int, b: int): (r: seq<T>)
    ensures |r| <= |s|
  {
    var lo := SliceBound(a, |s|);
    var hi := SliceBound(b, |s|);
    if lo < hi then s[lo..hi] else []
  }

  /** `certificates.slice(currentIndex, currentIndex + itemsPerView)`. */
  function Visible<T>(s: seq<T>, index: int): seq<T> {
    JsSlice(s, index, index + ItemsPerView)
  }

  /** `Math.max(0, prev - itemsPerView)`. */
  function PrevIndex(index: int): int {
    if index - ItemsPerView > 0 then index - ItemsPerView else 0
  }

  /** `Math.min(certificates.length - itemsPerView, prev + itemsPerView)`. */
  function NextIndex(index: int, n: nat): int {
    if n - ItemsPerView < index + ItemsPerView then n - ItemsPerView else index + ItemsPerView
  }

  predicate CanGoPrevious(index: int) {
    index > 0
  }

  predicate CanGoNext(index: int, n: nat) {
    index + ItemsPerView < n
  }

  /** The buttons and dots are rendered only when the certificates do not fit one view. */
  predicate ControlsShown(n: nat) {
    n > ItemsPerView
  }

  /** `Math.ceil(certificates.length / itemsPerView)`: just enough pages of six for all certificates. */
  function DotCount(n: nat): (r: nat)
    ensures ItemsPerView * r >= n
    ensures r > 0 ==> ItemsPerView * (r - 1) < n
  {
    (n + ItemsPerView - 1) / ItemsPerView
  }

  /** `Math.floor(currentIndex / itemsPerView) === idx`. */
  predicate DotActive(index: int, idx: int) {
    index / ItemsPerView == idx
  }

  /** For a non-negative index the view is the (up to) six certificates starting there. */
  lemma VisibleWindow<T>(s: seq<T>, index: int)
    requires index >= 0
    ensures var lo := if index < |s| then index else |s|;
      var hi := if index + ItemsPerView < |s| then index + ItemsPerView else |s|;
      Visible(s, index) == s[lo..hi]
    ensures |Visible(s, index)| <= ItemsPerView
    ensures index < |s| ==> Visible(s, index) != [] && Visible(s, index)[0] == s[index]
  {
  }

  /** "Next" moves forward and always lands on a full view of six. */
  lemma NextShowsFullView<T>(s: seq<T>, index: int)
    requires index >= 0 && CanGoNext(index, |s|)
    ensures index < NextIndex(index, |s|) <= |s| - ItemsPerView
    ensures |Visible(s, NextIndex(index, |s|))| == ItemsPerView
  {
    VisibleWindow(s, NextIndex(index, |s|));
  }

  /** "Previous" moves back by at most six and never below the first certificate. */
  lemma PreviousGoesBack(index: int)
    requires CanGoPrevious(index)
    ensures 0 <= PrevIndex(index) < index
    ensures index - PrevIndex(index) <= ItemsPerView
  {
  }

  /**
   * Every certificate can be reached: the dot of its page exists, is the
   * active one once clicked, and the view it opens shows that certificate.
   */
  lemma EveryCertificateHasAPage<T>(s: seq<T>, k: int)
    requires 0 <= k < |s|
    ensures var idx := k / ItemsPerView;
      0 <= idx < DotCount(|s|) && DotActive(idx * ItemsPerView, idx)
      && 0 <= k - idx * ItemsPerView < |Visible(s, idx * ItemsPerView)|
      && Visible(s, idx * ItemsPerView)[k - idx * ItemsPerView] == s[k]
  {
    var idx := k / ItemsPerView;
    VisibleWindow(s, idx * ItemsPerView);
  }

  /**
   * With seven to eleven certificates, "next" from the start lands before
   * index six: the second view repeats part of the first, and the first dot
   * stays the active one.
   */
  lemma ShortSecondViewOverlaps<T>(s: seq<T>)
    requires ItemsPerView < |s| < 2 * ItemsPerView
    ensures NextIndex(0, |s|) == |s| - ItemsPerView < ItemsPerView
    ensures DotActive(NextIndex(0, |s|), 0) && !DotActive(NextIndex(0, |s|), 1)
    ensures s[|s| - ItemsPerView] in Visible(s, 0) && s[|s| - ItemsPerView] in Visible(s, NextIndex(0, |s|))
  {
    VisibleWindow(s, 0);
    VisibleWindow(s, NextIndex(0, |s|));
  }

  /** The sample certificates shown when the database does not deliver a list. */
  const MockCertificates: seq<Certificate> := [
    Certificate("1", "AWS Certified Solutions Architect", "Amazon Web Services", "2024-01-15",
      "https://images.pexels.com/photos/159711/books-bookstore-book-reading-159711.jpeg",
      Some("Certificación en arquitecturas de soluciones en la nube"), "2024-01-15", "2024-01-15"),
    Certificate("2", "Certified Ethical Hacker (CEH)", "EC-Council", "2023-11-20",
      "https://images.pexels.com/photos/60504/security-protection-anti-virus-software-60504.jpeg",
      Some("Certificación en hacking ético y seguridad informática"), "2023-11-20", "2023-11-20"),
    Certificate("3", "Google Cloud Professional", "Google Cloud", "2023-09-10",
      "https://images.pexels.com/photos/1181298/pexels-photo-1181298.jpeg",
      Some("Certificación profesional en Google Cloud Platform"), "2023-09-10", "2023-09-10"),
    Certificate("4", "Machine Learning Specialization", "Stanford University", "2023-06-15",
      "https://images.pexels.com/photos/8439093/pexels-photo-8439093.jpeg",
      Some("Especialización en Machine Learning y Deep Learning"), "2023-06-15", "2023-06-15"),
    Certificate("5", "Cisco Certified Network Associate", "Cisco Systems", "2023-03-22",
      "https://images.pexels.com/photos/159304/network-cable-ethernet-computer-159304.jpeg",
      Some("Certificación en redes y infraestructura"), "2023-03-22", "2023-03-22"),
    Certificate("6", "React Developer Certification", "Meta", "2023-01-10",
      "https://images.pexels.com/photos/11035380/pexels-photo-11035380.jpeg",
      Some("Certificación especializada en desarrollo con React"), "2023-01-10", "2023-01-10")
  ]

  /** The sample list fills exactly one view: no buttons, one page. */
  lemma MockFitsOneView()
    ensures |MockCertificates| == ItemsPerView
    ensures !ControlsShown(|MockCertificates|) && DotCount(|MockCertificates|) == 1
    ensures Visible(MockCertificates, 0) == MockCertificates
  {
    VisibleWindow(MockCertificates, 0);
  }

  class CertificatesSection {
    var certificates: seq<Certificate>
    var loading: bool
    var selected: Option<Certificate>
    var currentIndex: int

    /** The view never starts past the end of the list, so a non-empty list never shows an empty view. */
    ghost predicate Valid()
      reads this
    {
      0 <= currentIndex && (currentIndex == 0 || currentIndex < |certificates|)
    }

    constructor ()
      ensures Valid()
      ensures certificates == [] && loading && selected.None? && currentIndex == 0
    {
      certificates := [];
      loading := true;
      selected := None;
      currentIndex := 0;
    }

    /** The certificates in view. */
    function VisibleCertificates(): (r: seq<Certificate>)
      requires Valid()
      reads this
      ensures |r| <= ItemsPerView
      ensures r != [] <==> certificates != []
      ensures certificates != [] ==> r[0] == certificates[currentIndex]
    {
      VisibleWindow(certificates, currentIndex);
      Visible(certificates, currentIndex)
    }

    /** The fetch on mount: the rows (an empty list included), or the sample list when none arrive. */
    method Fetch(reply: Reply<seq<Certificate>>)
      requires Valid() && loading && currentIndex == 0
      modifies this
      ensures Valid()
      ensures certificates == SectionFetch(reply, MockCertificates)
      ensures !loading && currentIndex == 0 && selected == old(selected)
    {
      certificates := SectionFetch(reply, MockCertificates);
      loading := false;
    }

    /** `handlePrevious`; the button is only rendered with more than six certificates and enabled when the view can move back. */
    method HandlePrevious()
      requires Valid() && !loading && ControlsShown(|certificates|) && CanGoPrevious(currentIndex)
      modifies this
      ensures Valid()
      ensures currentIndex == PrevIndex(old(currentIndex))
      ensures 0 <= currentIndex < old(currentIndex)
      ensures certificates == old(certificates) && loading == old(loading) && selected == old(selected)
    {
      currentIndex := PrevIndex(currentIndex);
    }

    /** `handleNext`; enabled only while certificates lie beyond the view. */
    method HandleNext()
      requires Valid() && !loading && ControlsShown(|certificates|) && CanGoNext(currentIndex, |certificates|)
      modifies this
      ensures Valid()
      ensures currentIndex == NextIndex(old(currentIndex), |certificates|)
      ensures old(currentIndex) < currentIndex && |VisibleCertificates()| == ItemsPerView
      ensures certificates == old(certificates) && loading == old(loading) && selected == old(selected)
    {
      NextShowsFullView(certificates, currentIndex);
      currentIndex := NextIndex(currentIndex, |certificates|);
    }

    /** A page dot: the view jumps to the start of page `idx`, whose dot becomes the active one. */
    method GoToPage(idx: int)
      requires Valid() && !loading && ControlsShown(|certificates|) && 0 <= idx < DotCount(|certificates|)
      modifies this
      ensures Valid()
      ensures currentIndex == idx * ItemsPerView && DotActive(currentIndex, idx)
      ensures certificates == old(certificates) && loading == old(loading) && selected == old(selected)
    {
      currentIndex := idx * ItemsPerView;
    }

    method Select(c: Certificate)
      requires Valid()
      modifies this
      ensures Valid()
      ensures selected == Some(c)
      ensures certificates == old(certificates) && loading == old(loading) && currentIndex == old(currentIndex)
    {
      selected := Some(c);
    }

    /** The backdrop or the close button. */
    method CloseDialog()
      requires Valid()
      modifies this
      ensures Valid()
      ensures selected.None?
      ensures certificates == old(certificates) && loading == old(loading) && currentIndex == old(currentIndex)
    {
      selected := None;
    }
  }
}
