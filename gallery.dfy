/** The photo gallery of the detail page
    (frontend/src/pages/VehicleDetail/_impl/VehicleGallery/main.tsx): the
    main photo followed by the others, a selected photo moved by the arrows,
    the thumbnails and the keyboard, and a lightbox that opens and closes. */
module Gallery {
  import opened Wrappers

  datatype Photo = Photo(url: string, legenda: Option<string>)

  /** The photo before `i` among `n`, wrapping from the first to the last. */
  function PreviousIndex(i: int, n: int): int {
    if i == 0 then n - 1 else i - 1
  }

  /** The photo after `i` among `n`, wrapping from the last to the first. */
  function NextIndex(i: int, n: int): int {
    if i == n - 1 then 0 else i + 1
  }

  /** Where the selection is after `k` steps forward. */
  function NextTimes(i: int, n: int, k: nat): int {
    if k == 0 then i else NextIndex(NextTimes(i, n, k - 1), n)
  }

  class PhotoGallery {
    const fotoPrincipal: string
    const fotos: seq<Photo>
    var selectedIndex: int
    var isLightboxOpen: bool

    /** `allPhotos` */
    function AllPhotos(): (r: seq<Photo>)
      ensures |r| == |fotos| + 1 && r[0].url == fotoPrincipal && r[1..] == fotos
    {
      [Photo(fotoPrincipal, Some("Foto principal"))] + fotos
    }

    /** The selection is a photo of the gallery. */
    predicate Valid()
      reads this
    {
      0 <= selectedIndex < |AllPhotos()|
    }

    /** `currentPhoto` */
    function CurrentPhoto(): Photo
      reads this
      requires Valid()
    {
      AllPhotos()[selectedIndex]
    }

    constructor (fotos: seq<Photo>, fotoPrincipal: string)
      ensures this.fotos == fotos && this.fotoPrincipal == fotoPrincipal
      ensures selectedIndex == 0 && !isLightboxOpen
      ensures Valid()
    {
      this.fotos := fotos;
      this.fotoPrincipal := fotoPrincipal;
      selectedIndex := 0;
      isLightboxOpen := false;
    }

    /** `handlePrevious` */
    method Previous()
      modifies this
      ensures selectedIndex == PreviousIndex(old(selectedIndex), |AllPhotos()|)
      ensures isLightboxOpen == old(isLightboxOpen)
      ensures old(Valid()) ==> Valid()
    {
      selectedIndex := if selectedIndex == 0 then |AllPhotos()| - 1 else selectedIndex - 1;
    }

    /** `handleNext` */
    method Next()
      modifies this
      ensures selectedIndex == NextIndex(old(selectedIndex), |AllPhotos()|)
      ensures isLightboxOpen == old(isLightboxOpen)
      ensures old(Valid()) ==> Valid()
    {
      selectedIndex := if selectedIndex == |AllPhotos()| - 1 then 0 else selectedIndex + 1;
    }

    /** `handleThumbnailClick`: the thumbnails are numbered as `allPhotos`. */
    method ThumbnailClick(index: int)
      modifies this
      ensures selectedIndex == index && isLightboxOpen == old(isLightboxOpen)
      ensures 0 <= index < |AllPhotos()| ==> Valid()
    {
      selectedIndex := index;
    }

    /** A click on the main photo opens the lightbox. */
    method OpenLightbox()
      modifies this
      ensures isLightboxOpen && selectedIndex == old(selectedIndex)
    {
      isLightboxOpen := true;
    }

    /** The backdrop and the close button close it. */
    method CloseLightbox()
      modifies this
      ensures !isLightboxOpen && selectedIndex == old(selectedIndex)
    {
      isLightboxOpen := false;
    }

    /** `handleKeyDown`. The handler is attached only to the lightbox
        overlay, so keys reach it only while the lightbox is open. */
    method KeyDown(key: string)
      modifies this
      ensures selectedIndex ==
        if key == "ArrowLeft" then PreviousIndex(old(selectedIndex), |AllPhotos()|)
        else if key == "ArrowRight" then NextIndex(old(selectedIndex), |AllPhotos()|)
        else old(selectedIndex)
      ensures isLightboxOpen == (old(isLightboxOpen) && key != "Escape")
      ensures old(Valid()) ==> Valid()
    {
      if key == "ArrowLeft" {
        Previous();
      }
      if key == "ArrowRight" {
        Next();
      }
      if key == "Escape" {
        isLightboxOpen := false;
      }
    }
  }

  // ------------------------------------------------------------ properties

  lemma ModSmall(a: int, n: int)
    requires 0 <= a < n
    ensures a % n == a
  {
  }

  lemma ModShift(a: int, n: int)
    requires n > 0 && n <= a < 2 * n
    ensures a % n == a - n
  {
  }

  /** On a photo of the gallery, the steps are those of a clock of `n`. */
  lemma StepsAreModular(i: int, n: int)
    requires 0 <= i < n
    ensures NextIndex(i, n) == (i + 1) % n
    ensures PreviousIndex(i, n) == (i - 1 + n) % n
  {
    if i == n - 1 {
      ModShift(i + 1, n);
    } else {
      ModSmall(i + 1, n);
    }
    if i == 0 {
      ModSmall(i - 1 + n, n);
    } else {
      ModShift(i - 1 + n, n);
    }
  }

  /** A step never leaves the gallery. */
  lemma StepsStayInRange(i: int, n: int)
    requires 0 <= i < n
    ensures 0 <= NextIndex(i, n) < n && 0 <= PreviousIndex(i, n) < n
  {
  }

  /** Back then forward, or forward then back, returns to the same photo. */
  lemma StepsAreInverse(i: int, n: int)
    requires 0 <= i < n
    ensures NextIndex(PreviousIndex(i, n), n) == i
    ensures PreviousIndex(NextIndex(i, n), n) == i
  {
  }

  /** Up to a full turn, `k` steps forward move the selection `k` places
      around the clock. */
  lemma {:induction false} NextTimesModular(i: int, n: int, k: nat)
    requires 0 <= i < n && k <= n
    ensures NextTimes(i, n, k) == (i + k) % n
  {
    if k == 0 {
      ModSmall(i, n);
    } else {
      NextTimesModular(i, n, k - 1);
      if i + k - 1 < n {
        ModSmall(i + k - 1, n);
      } else {
        ModShift(i + k - 1, n);
      }
      if i + k < n {
        ModSmall(i + k, n);
      } else {
        ModShift(i + k, n);
      }
    }
  }

  /** As many steps forward as there are photos come back to the start. */
  lemma FullTurn(i: int, n: int)
    requires 0 <= i < n
    ensures NextTimes(i, n, n) == i
  {
    NextTimesModular(i, n, n);
    ModShift(i + n, n);
  }
}
