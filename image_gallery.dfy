/**
 * The full-screen image gallery: previous and next wrap around the whole
 * image list, the arrow keys do the same and Escape closes the gallery.
 */
module ImageGallery {
  import opened Common

  /** `handlePrevious`'s update: from the first image to the last. */
  function Previous(prev: int, len: int): (r: int)
    ensures 0 <= prev < len ==> 0 <= r < len
    ensures prev == 0 ==> r == len - 1
  {
    if prev == 0 then len - 1 else prev - 1
  }

  /** `handleNext`'s update: from the last image to the first. */
  function Next(prev: int, len: int): (r: int)
    ensures 0 <= prev < len ==> 0 <= r < len
    ensures prev == len - 1 ==> r == 0
  {
    if prev == len - 1 then 0 else prev + 1
  }

  /** An index in range stays in range. */
  lemma StepsStayInRange(i: int, len: int)
    requires 0 <= i < len
    ensures 0 <= Previous(i, len) < len && 0 <= Next(i, len) < len
  {
  }

  /** Previous and next undo each other. */
  lemma StepsAreInverse(i: int, len: int)
    requires 0 <= i < len
    ensures Next(Previous(i, len), len) == i
    ensures Previous(Next(i, len), len) == i
  {
  }

  /** Next and previous move one place round the circle of images. */
  lemma StepsAreModular(i: int, len: int)
    requires 0 <= i < len
    ensures Next(i, len) == (i + 1) % len
    ensures Previous(i, len) == (i - 1 + len) % len
  {
    ModStep(i, len);
    assert i % len == i;
    if i == 0 {
      ModUnique(len - 1, len, 0, len - 1);
    } else {
      ModUnique(i - 1 + len, len, 1, i - 1);
    }
  }

  /** `n` presses of next. */
  function NextTimes(i: int, len: int, n: nat): int
    decreases n
  {
    if n == 0 then i else Next(NextTimes(i, len, n - 1), len)
  }

  /** `n` presses of next from `i` reach `(i + n) mod len`. */
  lemma {:induction false} NextTimesModular(i: int, len: int, n: nat)
    requires 0 <= i < len
    ensures NextTimes(i, len, n) == (i + n) % len
  {
    if n == 0 {
      ModUnique(i, len, 0, i);
    } else {
      NextTimesModular(i, len, n - 1);
      var k := NextTimes(i, len, n - 1);
      assert 0 <= k < len;
      ModStep(i + n - 1, len);
      assert Next(k, len) == (if k == len - 1 then 0 else k + 1);
    }
  }

  /** The remainder is fixed by any quotient-remainder decomposition. */
  lemma ModUnique(x: int, m: int, q: int, r: int)
    requires m >= 1 && 0 <= r < m && x == q * m + r
    ensures x % m == r
  {
    var q', r' := x / m, x % m;
    assert x == q' * m + r';
    assert (q - q') * m == r' - r;
    if q > q' {
      MulAtLeast(q - q', m);
    } else if q < q' {
      MulAtLeast(q' - q, m);
    }
  }

  lemma MulAtLeast(d: int, m: int)
    requires d >= 1 && m >= 1
    ensures d * m >= m
  {
  }

  /** Adding one moves the remainder one place on, wrapping at the divisor. */
  lemma ModStep(a: int, m: int)
    requires m >= 1
    ensures (a + 1) % m == if a % m == m - 1 then 0 else a % m + 1
  {
    var q := a / m;
    assert a == q * m + a % m;
    if a % m == m - 1 {
      assert a + 1 == (q + 1) * m + 0;
      ModUnique(a + 1, m, q + 1, 0);
    } else {
      ModUnique(a + 1, m, q, a % m + 1);
    }
  }

  datatype Key = Escape | ArrowLeft | ArrowRight | OtherKey

  /** What a key press does: close the gallery, set the index, or nothing. */
  datatype KeyAction = Close | SetIndex(index: int) | NoAction

  /** The keyboard handler. */
  function KeyDown(key: Key, prev: int, len: int): (a: KeyAction)
    ensures a == Close <==> key == Escape
    ensures a == NoAction <==> key == OtherKey
    ensures key == ArrowLeft ==> a == SetIndex(Previous(prev, len))
    ensures key == ArrowRight ==> a == SetIndex(Next(prev, len))
    ensures a.SetIndex? && 0 <= prev < len ==> 0 <= a.index < len
  {
    match key
    case Escape => Close
    case ArrowLeft => SetIndex(if prev == 0 then len - 1 else prev - 1)
    case ArrowRight => SetIndex(if prev == len - 1 then 0 else prev + 1)
    case OtherKey => NoAction
  }

  /** The arrow keys agree with the buttons, and only Escape closes. */
  lemma KeysMatchButtons(prev: int, len: int)
    ensures KeyDown(ArrowLeft, prev, len) == SetIndex(Previous(prev, len))
    ensures KeyDown(ArrowRight, prev, len) == SetIndex(Next(prev, len))
    ensures forall k: Key :: KeyDown(k, prev, len) == Close <==> k == Escape
  {
  }

  /** What is drawn: nothing, or the current image (absent when the index
      is outside the list) with the arrows, counter and thumbnail strip
      when there is more than one image. */
  datatype View = Nothing | Open(image: Option<string>, controls: bool)

  function Render(images: seq<string>, current: int): (v: View)
    ensures images == [] <==> v == Nothing
    ensures v.Open? ==> (v.controls <==> |images| > 1)
    ensures v.Open? && 0 <= current < |images| ==> v.image == Some(images[current])
  {
    if |images| == 0 then Nothing
    else Open(if 0 <= current < |images| then Some(images[current]) else None, |images| > 1)
  }

  /** With one image there are no controls, and the keys keep it shown. */
  lemma SingleImageStays(image: string)
    ensures !Render([image], 0).controls
    ensures KeyDown(ArrowLeft, 0, 1) == SetIndex(0) && KeyDown(ArrowRight, 0, 1) == SetIndex(0)
  {
  }
}
