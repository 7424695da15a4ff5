/**
 * The aspect-fit arithmetic of `set_image`: given the aspect ratio of the
 * decoded picture and the current window size, pick the largest rectangle
 * that keeps the ratio and fits inside the window.
 *
 * Sizes are `real`, which is exact, so the statements below hold with
 * equality rather than up to floating-point rounding.
 */
module FitCalculator {

  /** A width and a height. */
  datatype Size = Size(width: real, height: real)

  /** The pixel size of a decoded picture; a decoded picture is never empty. */
  datatype Pixels = Pixels(width: nat, height: nat)

  predicate IsDecoded(p: Pixels) {
    p.width > 0 && p.height > 0
  }

  /** The size of a picture the image loader returned. */
  type Decoded = p: Pixels | IsDecoded(p) witness Pixels(1, 1)

  predicate ValidWindow(win: Size) {
    win.width >= 0.0 && win.height >= 0.0
  }

  /** The picture's aspect ratio, width divided by height. */
  function Aspect(p: Pixels): (a: real)
    requires IsDecoded(p)
    ensures a > 0.0
    ensures a * p.height as real == p.width as real
  {
    p.width as real / p.height as real
  }

  /**
   * The fitted rectangle. A portrait picture starts from the full window
   * height, a square or landscape one from the full window width; either way
   * the rectangle is scaled down when its other side overflows the window.
   * Each scale-down divides by a side that is strictly larger than a window
   * side, hence positive; Dafny checks this division well-formedness.
   */
  function Fit(aspect: real, win: Size): (r: Size)
    requires aspect > 0.0 && ValidWindow(win)
    ensures 0.0 <= r.width <= win.width
    ensures 0.0 <= r.height <= win.height
    ensures r.width == aspect * r.height
    ensures r.width == win.width || r.height == win.height
  {
    if aspect < 1.0 then
      var height := win.height;
      var width := aspect * height;
      if width > win.width then
        Size(win.width, (win.width / width) * height)
      else
        Size(width, height)
    else
      var width := win.width;
      var height := (1.0 / aspect) * width;
      if height > win.height then
        Size((win.height / height) * width, win.height)
      else
        Size(width, height)
  }

  /** For a picture given by its pixels: width * pixel height == height * pixel width. */
  lemma FitKeepsPixelRatio(p: Pixels, win: Size)
    requires IsDecoded(p) && ValidWindow(win)
    ensures Fit(Aspect(p), win).width * p.height as real == Fit(Aspect(p), win).height * p.width as real
  {
  }

  /** A portrait picture whose full-height rectangle fits keeps the window height. */
  lemma PortraitFitKeepsHeight(aspect: real, win: Size)
    requires 0.0 < aspect < 1.0 && ValidWindow(win)
    requires aspect * win.height <= win.width
    ensures Fit(aspect, win) == Size(aspect * win.height, win.height)
  {
  }

  /** A square or landscape picture whose full-width rectangle fits keeps the window width. */
  lemma LandscapeFitKeepsWidth(aspect: real, win: Size)
    requires aspect >= 1.0 && ValidWindow(win)
    requires win.width / aspect <= win.height
    ensures Fit(aspect, win) == Size(win.width, win.width / aspect)
  {
  }

  /** A window with a zero side gives a zero-area rectangle. */
  lemma FitOfEmptyWindow(aspect: real, win: Size)
    requires aspect > 0.0 && ValidWindow(win)
    requires win.width == 0.0 || win.height == 0.0
    ensures Fit(aspect, win) == Size(0.0, 0.0)
  {
  }

  /**
   * No rectangle with the picture's aspect ratio that fits in the window is
   * larger than the fitted one: it is the largest such rectangle.
   */
  lemma FitIsLargest(aspect: real, win: Size, other: Size)
    requires aspect > 0.0 && ValidWindow(win)
    requires 0.0 <= other.height && other.width == aspect * other.height
    requires other.width <= win.width && other.height <= win.height
    ensures other.width <= Fit(aspect, win).width
    ensures other.height <= Fit(aspect, win).height
  {
  }

  /**
   * A square picture fills a square window; a 16:9 picture in a 500x500
   * window keeps the width; in an 800x300 window it is limited by the height.
   */
  lemma FitExamples()
    ensures Fit(1.0, Size(500.0, 500.0)) == Size(500.0, 500.0)
    ensures Fit(16.0 / 9.0, Size(500.0, 500.0)) == Size(500.0, 281.25)
    ensures Fit(16.0 / 9.0, Size(800.0, 300.0)) == Size(1600.0 / 3.0, 300.0)
  {
  }
}
