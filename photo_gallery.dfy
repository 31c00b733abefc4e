/** The about-page photo gallery: photo sizes in a repeating pattern, responsive columns and the
    lightbox index. */
module PhotoGallery {
  import opened Wrappers
  import opened Text

  datatype GalleryItem = GalleryItem(src: string, alt: Option<string>)

  datatype Size = Size(width: int, height: int)

  datatype Photo = Photo(src: string, width: int, height: int, alt: string)

  /** `sizePatterns`: 4:3, 3:4, 16:9, 1:1, 4:3, 16:9. */
  const SizePatterns: seq<Size> := [Size(1600, 1200), Size(1200, 1600), Size(1600, 900), Size(1200, 1200), Size(1600, 1200), Size(1600, 900)]

  /** `items.map((item, i) => ...)` */
  function Photos(items: seq<GalleryItem>): (r: seq<Photo>)
    ensures |r| == |items|
    ensures forall i :: 0 <= i < |items| ==> r[i].src == items[i].src
    ensures forall i :: 0 <= i < |items| ==>
      Size(r[i].width, r[i].height) == SizePatterns[i % |SizePatterns|] && r[i].alt == OrElse(items[i].alt, "")
  {
    seq(|items|, i requires 0 <= i < |items| =>
      var size := SizePatterns[i % |SizePatterns|];
      Photo(items[i].src, size.width, size.height, OrElse(items[i].alt, "")))
  }

  /** The pattern repeats every six photos and every photo is one of the four shapes. */
  lemma PhotosCycle(items: seq<GalleryItem>, i: nat)
    requires i + 6 < |items|
    ensures Photos(items)[i].width == Photos(items)[i + 6].width && Photos(items)[i].height == Photos(items)[i + 6].height
    ensures Photos(items)[i].width in {1200, 1600} && Photos(items)[i].height in {900, 1200, 1600}
  {
    assert (i + 6) % 6 == i % 6;
  }

  /** `columns(containerWidth)` */
  function Columns(containerWidth: int): (r: int)
    ensures containerWidth < 400 ==> r == 2
    ensures 400 <= containerWidth < 800 ==> r == 3
    ensures containerWidth >= 800 ==> r == 4
  {
    if containerWidth < 400 then 2 else if containerWidth < 800 then 3 else 4
  }

  /** A wider container never has fewer columns. */
  lemma ColumnsMonotone(a: int, b: int)
    requires a <= b
    ensures 2 <= Columns(a) <= Columns(b) <= 4
  {
  }

  /** The lightbox over the photos (`index` state). */
  class Lightbox {
    var index: int

    constructor ()
      ensures index == -1 && !IsOpen()
    {
      index := -1;
    }

    predicate IsOpen()
      reads this
    {
      index >= 0
    }

    /** Clicking photo `i` opens the lightbox on it. */
    method Click(i: nat)
      modifies this
      ensures index == i && IsOpen()
    {
      index := i;
    }

    method Close()
      modifies this
      ensures index == -1 && !IsOpen()
    {
      index := -1;
    }
  }
}
