/**
  A coordinate-based reference for the 2x magnifier: the window of every
  source pixel is read directly from the image with border replication,
  the pixel's row and column class pick the rule, and the destination is
  the rows of the resulting 2x2 blocks. The scan in module Scan is proved
  to write exactly this.
 */
module Reference {
  import opened Colors
  import opened Rules

  /** `src` is a `w` by `h` image stored as `h` rows of `w` pixels. */
  predicate IsImage(src: seq<seq<Color>>, w: nat, h: nat)
  {
    |src| == h && forall j :: 0 <= j < h ==> |src[j]| == w
  }

  /** The nearest index of `0 .. n-1` to `i`. */
  function Clamp(i: int, n: nat): (k: nat)
    requires n > 0
    ensures k < n
    ensures 0 <= i < n ==> k == i
    ensures i < 0 ==> k == 0
    ensures n <= i ==> k == n - 1
  {
    if i < 0 then 0 else if i >= n then n - 1 else i
  }

  /** Border replication reads the index of the image nearest to the one
      asked for: no index of `0 .. n-1` is closer to `i` than `Clamp(i, n)`. */
  lemma ClampNearest(i: int, n: nat, j: int)
    requires 0 <= j < n
    ensures Abs(i - Clamp(i, n)) <= Abs(i - j)
  {
  }

  /** The source pixel at column `i`, row `j`, replicating the border for
      positions outside the image. */
  function Pixel(src: seq<seq<Color>>, w: nat, h: nat, i: int, j: int): Color
    requires IsImage(src, w, h) && w > 0 && h > 0
  {
    src[Clamp(j, h)][Clamp(i, w)]
  }

  /** The 3x3 neighbourhood of pixel (x, y), replicated at the borders. */
  function WindowAt(src: seq<seq<Color>>, w: nat, h: nat, x: nat, y: nat): (win: Window)
    requires IsImage(src, w, h) && x < w && y < h
    ensures win.c5 == src[y][x]
  {
    Window(Pixel(src, w, h, x - 1, y - 1), Pixel(src, w, h, x, y - 1), Pixel(src, w, h, x + 1, y - 1),
           Pixel(src, w, h, x - 1, y),     Pixel(src, w, h, x, y),     Pixel(src, w, h, x + 1, y),
           Pixel(src, w, h, x - 1, y + 1), Pixel(src, w, h, x, y + 1), Pixel(src, w, h, x + 1, y + 1))
  }

  /** The row class of row `y` of an image `h` rows high; a single row is
      a first row. */
  function RowOf(y: nat, h: nat): RowClass
  {
    if y == 0 then FirstRow else if y < h - 1 then MiddleRow else LastRow
  }

  /** The column class of column `x` of an image `w` columns wide; a single
      column is a first column. */
  function ColumnOf(x: nat, w: nat): ColumnClass
  {
    if x == 0 then FirstColumn else if x < w - 1 then InnerColumn else LastColumn
  }

  /** The block the magnifier produces for source pixel (x, y): the rule
      of its row and column class applied to its window, with both
      pass-wide references `c0` and `cT` set to the pixel at (0, 0). */
  function BlockAt(src: seq<seq<Color>>, w: nat, h: nat, x: nat, y: nat): Block
    requires IsImage(src, w, h) && x < w && y < h
  {
    RuleFor(RowOf(y, h), ColumnOf(x, w))(WindowAt(src, w, h, x, y), src[0][0], src[0][0])
  }

  /** `win` holds the true neighbourhood of pixel (x, y) in every slot the
      rule of the pixel's class reads: the centre and the slot to the
      right always, the row above except on the first row, the row below
      except on the last row of a taller image, the column to the left
      except on the first column. Slots outside that set may be stale. */
  predicate Agrees(src: seq<seq<Color>>, w: nat, h: nat, x: nat, y: nat, win: Window)
    requires IsImage(src, w, h) && x < w && y < h
  {
    var full := WindowAt(src, w, h, x, y);
    var above, below := 0 < y, y == 0 || y < h - 1;
    && win.c5 == full.c5 && win.c6 == full.c6
    && (above ==> win.c8 == full.c8 && win.c9 == full.c9)
    && (below ==> win.c2 == full.c2 && win.c3 == full.c3)
    && (0 < x ==> win.c4 == full.c4)
    && (0 < x && above ==> win.c7 == full.c7)
    && (0 < x && below ==> win.c1 == full.c1)
  }

  /** Moving one column right keeps a window in step with the image: the
      old centre column becomes the left column, the old right column the
      centre, and the new right column is read from column `x + 2` of the
      rows the class reads. */
  lemma {:induction false} ShiftAgrees(src: seq<seq<Color>>, w: nat, h: nat, x: nat, y: nat, win: Window, next: Window)
    requires IsImage(src, w, h) && x + 2 < w && y < h
    requires Agrees(src, w, h, x, y, win)
    requires next.c4 == win.c5 && next.c5 == win.c6 && next.c6 == src[y][x + 2]
    requires 0 < y ==> next.c7 == win.c8 && next.c8 == win.c9 && next.c9 == src[y - 1][x + 2]
    requires y == 0 || y < h - 1 ==> next.c1 == win.c2 && next.c2 == win.c3 && next.c3 == src[Clamp(y + 1, h)][x + 2]
    ensures Agrees(src, w, h, x + 1, y, next)
  {
    var full, full' := WindowAt(src, w, h, x, y), WindowAt(src, w, h, x + 1, y);
    assert full'.c4 == full.c5 && full'.c5 == full.c6;
    assert 0 < y ==> full'.c7 == full.c8 && full'.c8 == full.c9;
    assert y == 0 || y < h - 1 ==> full'.c1 == full.c2 && full'.c2 == full.c3;
  }

  /** The rule of a pixel's class gives the pixel's block on any window
      that agrees with its neighbourhood on the slots the rule reads. */
  lemma {:induction false} AgreeingWindowGivesBlock(src: seq<seq<Color>>, w: nat, h: nat, x: nat, y: nat, win: Window)
    requires IsImage(src, w, h) && x < w && y < h
    requires Agrees(src, w, h, x, y, win)
    ensures RuleFor(RowOf(y, h), ColumnOf(x, w))(win, src[0][0], src[0][0]) == BlockAt(src, w, h, x, y)
  {
    var full := WindowAt(src, w, h, x, y);
    var c0 := src[0][0];
    match (RowOf(y, h), ColumnOf(x, w))
    case (FirstRow, FirstColumn) =>
      assert FirstRowFirst(win, c0, c0) == FirstRowFirst(full, c0, c0);
    case (FirstRow, InnerColumn) =>
      assert FirstRowInner(win, c0, c0) == FirstRowInner(full, c0, c0);
    case (FirstRow, LastColumn) =>
      assert FirstRowLast(win, c0, c0) == FirstRowLast(full, c0, c0);
    case (MiddleRow, FirstColumn) =>
      assert MiddleRowFirst(win, c0, c0) == MiddleRowFirst(full, c0, c0);
    case (MiddleRow, InnerColumn) =>
      assert win == full;
    case (MiddleRow, LastColumn) =>
      assert MiddleRowLast(win, c0, c0) == MiddleRowLast(full, c0, c0);
    case (LastRow, FirstColumn) =>
      LastRowFirstIgnoresC7(win, full.c7, c0, c0);
      assert LastRowFirst(win.(c7 := full.c7), c0, c0) == LastRowFirst(full, c0, c0);
    case (LastRow, InnerColumn) =>
      assert LastRowInner(win, c0, c0) == LastRowInner(full, c0, c0);
    case (LastRow, LastColumn) =>
  }

  /** The first `2 n` pixels of destination row `2 y`: the top halves of
      the blocks of source row `y`. */
  function TopPrefix(src: seq<seq<Color>>, w: nat, h: nat, y: nat, n: nat): (r: seq<Color>)
    requires IsImage(src, w, h) && y < h && n <= w
    ensures |r| == 2 * n
  {
    if n == 0 then []
    else
      var k := BlockAt(src, w, h, n - 1, y);
      TopPrefix(src, w, h, y, n - 1) + [k.tl, k.tr]
  }

  /** The first `2 n` pixels of destination row `2 y + 1`. */
  function BottomPrefix(src: seq<seq<Color>>, w: nat, h: nat, y: nat, n: nat): (r: seq<Color>)
    requires IsImage(src, w, h) && y < h && n <= w
    ensures |r| == 2 * n
  {
    if n == 0 then []
    else
      var k := BlockAt(src, w, h, n - 1, y);
      BottomPrefix(src, w, h, y, n - 1) + [k.bl, k.br]
  }

  /** Destination rows `0 .. 2 n - 1`, from source rows `0 .. n - 1`. */
  function Rows(src: seq<seq<Color>>, w: nat, h: nat, n: nat): (r: seq<seq<Color>>)
    requires IsImage(src, w, h) && n <= h
    ensures |r| == 2 * n
  {
    if n == 0 then []
    else Rows(src, w, h, n - 1) + [TopPrefix(src, w, h, n - 1, w), BottomPrefix(src, w, h, n - 1, w)]
  }

  /** The whole destination image, `2 h` rows of `2 w` pixels. */
  function Scaled(src: seq<seq<Color>>, w: nat, h: nat): seq<seq<Color>>
    requires IsImage(src, w, h)
  {
    Rows(src, w, h, h)
  }

  /** One more source row appends its two destination rows. */
  lemma RowsStep(src: seq<seq<Color>>, w: nat, h: nat, n: nat, top: seq<Color>, bottom: seq<Color>)
    requires IsImage(src, w, h) && n < h
    requires top == TopPrefix(src, w, h, n, w) && bottom == BottomPrefix(src, w, h, n, w)
    ensures Rows(src, w, h, n + 1) == Rows(src, w, h, n) + [top, bottom]
  {
  }

  /** Columns `2 x`, `2 x + 1` of a top prefix hold the top of block x. */
  lemma {:induction false} TopPrefixAt(src: seq<seq<Color>>, w: nat, h: nat, y: nat, n: nat, x: nat)
    requires IsImage(src, w, h) && y < h && x < n <= w
    ensures var r, k := TopPrefix(src, w, h, y, n), BlockAt(src, w, h, x, y);
            r[2 * x] == k.tl && r[2 * x + 1] == k.tr
  {
    if x < n - 1 {
      TopPrefixAt(src, w, h, y, n - 1, x);
    }
  }

  /** Columns `2 x`, `2 x + 1` of a bottom prefix hold the bottom of block x. */
  lemma {:induction false} BottomPrefixAt(src: seq<seq<Color>>, w: nat, h: nat, y: nat, n: nat, x: nat)
    requires IsImage(src, w, h) && y < h && x < n <= w
    ensures var r, k := BottomPrefix(src, w, h, y, n), BlockAt(src, w, h, x, y);
            r[2 * x] == k.bl && r[2 * x + 1] == k.br
  {
    if x < n - 1 {
      BottomPrefixAt(src, w, h, y, n - 1, x);
    }
  }

  /** Destination rows `2 y` and `2 y + 1` are the top and bottom halves of
      source row `y`. */
  lemma {:induction false} RowsAt(src: seq<seq<Color>>, w: nat, h: nat, n: nat, y: nat)
    requires IsImage(src, w, h) && y < n <= h
    ensures Rows(src, w, h, n)[2 * y] == TopPrefix(src, w, h, y, w)
    ensures Rows(src, w, h, n)[2 * y + 1] == BottomPrefix(src, w, h, y, w)
  {
    if y < n - 1 {
      RowsAt(src, w, h, n - 1, y);
    }
  }

  /** The destination is a `2 w` by `2 h` image. */
  lemma {:induction false} ScaledIsImage(src: seq<seq<Color>>, w: nat, h: nat)
    requires IsImage(src, w, h)
    ensures IsImage(Scaled(src, w, h), 2 * w, 2 * h)
  {
    var dst := Scaled(src, w, h);
    forall j | 0 <= j < 2 * h
      ensures |dst[j]| == 2 * w
    {
      RowsAt(src, w, h, h, j / 2);
    }
  }

  /** The block of source pixel (x, y) occupies destination columns
      `2 x`, `2 x + 1` of destination rows `2 y`, `2 y + 1`. */
  lemma {:induction false} ScaledBlock(src: seq<seq<Color>>, w: nat, h: nat, x: nat, y: nat)
    requires IsImage(src, w, h) && x < w && y < h
    ensures var dst, k := Scaled(src, w, h), BlockAt(src, w, h, x, y);
            && |dst| == 2 * h && |dst[2 * y]| == 2 * w && |dst[2 * y + 1]| == 2 * w
            && dst[2 * y][2 * x] == k.tl && dst[2 * y][2 * x + 1] == k.tr
            && dst[2 * y + 1][2 * x] == k.bl && dst[2 * y + 1][2 * x + 1] == k.br
  {
    RowsAt(src, w, h, h, y);
    TopPrefixAt(src, w, h, y, w, x);
    BottomPrefixAt(src, w, h, y, w, x);
  }

  /** Every sub-pixel is the source pixel itself or one fixed orthogonal
      neighbour: the top-left the pixel above, the top-right the pixel to
      the right, the bottom-left the pixel to the left, the bottom-right
      the pixel below; never a diagonal one. */
  lemma {:induction false} SubPixelSources(src: seq<seq<Color>>, w: nat, h: nat, x: nat, y: nat)
    requires IsImage(src, w, h) && x < w && y < h
    ensures var k, s := BlockAt(src, w, h, x, y), src[y][x];
            && (k.tl == s || (0 < y && k.tl == src[y - 1][x]))
            && (k.tr == s || (x + 1 < w && k.tr == src[y][x + 1]))
            && (k.bl == s || (0 < x && k.bl == src[y][x - 1]))
            && (k.br == s || (y + 1 < h && k.br == src[y + 1][x]))
  {
    var win := WindowAt(src, w, h, x, y);
    assert Orthogonal(win, BlockAt(src, w, h, x, y));
  }

  /** The outer ring of the destination copies the nearest source pixel:
      the top row, the bottom row, the left column and the right column. */
  lemma {:induction false} OuterRingCopies(src: seq<seq<Color>>, w: nat, h: nat, x: nat, y: nat)
    requires IsImage(src, w, h) && x < w && y < h
    ensures var k, s := BlockAt(src, w, h, x, y), src[y][x];
            && (y == 0 ==> k.tl == s && k.tr == s)
            && (y == h - 1 ==> k.bl == s && k.br == s)
            && (x == 0 ==> k.tl == s && k.bl == s)
            && (x == w - 1 ==> k.tr == s && k.br == s)
  {
    var win := WindowAt(src, w, h, x, y);
    if h == 1 {
      assert win.c2 == win.c5;
    }
    if w == 1 {
      assert win.c6 == win.c5;
    }
  }

  /** An image one pixel high is plain 2x2 pixel doubling: the row below is
      the row itself. */
  lemma {:induction false} SingleRowDoubles(src: seq<seq<Color>>, w: nat, x: nat)
    requires IsImage(src, w, 1) && x < w
    ensures BlockAt(src, w, 1, x, 0) == Centre(src[0][x])
  {
    assert WindowAt(src, w, 1, x, 0).c2 == src[0][x];
  }

  /** Where every pixel is equal (as a colour) to every other, for
      instance an image that is uniform or fully transparent, each source
      pixel becomes a 2x2 block of its own colour. */
  lemma {:induction false} EqualImageDoubles(src: seq<seq<Color>>, w: nat, h: nat, x: nat, y: nat)
    requires IsImage(src, w, h) && x < w && y < h
    requires forall i, j, i', j' :: 0 <= j < h && 0 <= i < w && 0 <= j' < h && 0 <= i' < w ==>
                                     Equal(src[j][i], src[j'][i'])
    ensures BlockAt(src, w, h, x, y) == Centre(src[y][x])
  {
    var win := WindowAt(src, w, h, x, y);
    assert Flat(win);
    FlatKeepsCentre(win, src[0][0], src[0][0]);
  }
}
