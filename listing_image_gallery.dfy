/**
 * The image block of the listing page: a main image, up to four
 * thumbnails, an image-count badge and a "+N" tile, each opening the
 * full-screen gallery at an index.
 */
module ListingImageGallery {
  import opened Common
  import ImageGallery

  /** What the block shows: the "no images" placeholder, or the main image,
      the badge's count, the thumbnails and the "+N" tile's number. */
  datatype Block = Placeholder | Images(main: string, badge: Option<nat>, thumbnails: seq<string>, more: Option<nat>)

  function Layout(images: Option<seq<string>>): (b: Block)
    ensures b.Placeholder? <==> images.None? || images.value == []
    ensures b.Images? ==> b.main == images.value[0]
    ensures b.Images? ==> b.thumbnails == images.value[1..if |images.value| < 5 then |images.value| else 5]
    ensures b.Images? ==> |b.thumbnails| <= 4
    ensures b.Images? ==> (b.badge.Some? <==> |images.value| > 1) && (b.badge.Some? ==> b.badge.value == |images.value|)
    ensures b.Images? ==> (b.more.Some? <==> |images.value| > 5) && (b.more.Some? ==> b.more.value == |images.value| - 5)
  {
    if images.None? || images.value == [] then Placeholder
    else
      var xs := images.value;
      Images(xs[0],
             if |xs| > 1 then Some(|xs|) else None,
             xs[1..if |xs| < 5 then |xs| else 5],
             if |xs| > 5 then Some(|xs| - 5) else None)
  }

  /** What can be clicked. */
  datatype Target = MainImage | Thumbnail(k: nat) | MoreTile

  /** The gallery index a click opens. */
  function OpensAt(t: Target): (i: nat)
    ensures i == 0 <==> t.MainImage?
    ensures t.Thumbnail? ==> i == t.k + 1
    ensures t.MoreTile? ==> i == 4
  {
    match t
    case MainImage => 0
    case Thumbnail(k) => k + 1
    case MoreTile => 4
  }

  /** Whether the gallery is open and at which index it starts. */
  datatype State = State(open: bool, selected: nat)

  const Closed := State(false, 0)

  /** `handleImageClick`. */
  function Click(s: State, t: Target): (r: State)
    ensures r.open && r.selected == OpensAt(t)
  {
    State(true, OpensAt(t))
  }

  /** The gallery's `onClose`: the index is kept for next time. */
  function CloseGallery(s: State): (r: State)
    ensures !r.open && r.selected == s.selected
  {
    State(false, s.selected)
  }

  /** Every tile drawn opens the gallery on an image that exists, and a
      thumbnail opens on the very image it shows. */
  lemma ClicksOpenShownImage(images: seq<string>, t: Target)
    requires images != []
    requires var b := Layout(Some(images));
      match t
      case MainImage => true
      case Thumbnail(k) => k < |b.thumbnails|
      case MoreTile => b.more.Some?
    ensures OpensAt(t) < |images|
    ensures t.MainImage? ==> images[OpensAt(t)] == Layout(Some(images)).main
    ensures t.Thumbnail? ==> images[OpensAt(t)] == Layout(Some(images)).thumbnails[t.k]
  {
  }

  /** The "+N" tile opens on the last thumbnail's image, not on the first
      image left out of the strip. */
  lemma MoreTileOpensLastThumbnail(images: seq<string>)
    requires |images| > 5
    ensures images[OpensAt(MoreTile)] == Layout(Some(images)).thumbnails[3]
    ensures OpensAt(MoreTile) != 5
  {
  }

  /** Opening from a click shows the clicked image in the gallery, with its
      controls exactly when the listing has more than one image. */
  lemma GalleryShowsClickedImage(images: seq<string>, t: Target)
    requires images != [] && OpensAt(t) < |images|
    ensures var s := Click(Closed, t);
      ImageGallery.Render(images, s.selected) == ImageGallery.Open(Some(images[OpensAt(t)]), |images| > 1)
  {
  }

  /** Without images no tile exists, so the gallery can never be opened from the block. */
  lemma PlaceholderHasNoTiles(images: Option<seq<string>>)
    requires images.None? || images.value == []
    ensures Layout(images) == Placeholder
  {
  }
}
