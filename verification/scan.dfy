/**
  The scan of `image_scale2x_rgba`: one pass over the source rows, first
  row, middle rows, last row, each emitting two destination rows through
  two write cursors while a 3x3 window of colour variables slides one
  column to the right per source pixel.

  Each cursor is modelled by the sequence of pixels written through it;
  a row section writes its upper destination row through `dst0` and its
  lower one through `dst1`, and the next section starts where `dst1`
  stopped (`dstIt = dst1`), so the destination is the concatenation of
  those sequences exactly when every one of them holds `2 w` pixels.
  The window variables live for the whole pass, as in the source, and are
  handed from section to section.
 */
module Scan {
  import opened Colors
  import opened Rules
  import opened Reference

  /** Every window variable starts out default-constructed: all nine slots
      hold the one colour whose 32-bit view is 0xff000000 (`Default`). */
  function InitialWindow(): (win: Window)
    ensures Flat(win) && Pack(win.c5) == 0xff00_0000
  {
    var d := Color(0, 0, 0, 0xff);
    Window(d, d, d, d, d, d, d, d, d)
  }

  /** Each block of the scan, computed by the rule of its section on the
      window variables as they stand, is the reference block of its pixel. */
  method FirstRowFirstStep(src: seq<seq<Color>>, w: nat, h: nat, x: nat, y: nat, win: Window, c0: Color, cT: Color,
    top0: seq<Color>, bottom0: seq<Color>) returns (top: seq<Color>, bottom: seq<Color>)
    requires IsImage(src, w, h) && x < w && y < h && x == 0 && y == 0
    requires c0 == src[0][0] && cT == c0 && Agrees(src, w, h, x, y, win)
    requires top0 == TopPrefix(src, w, h, y, x) && bottom0 == BottomPrefix(src, w, h, y, x)
    ensures top == TopPrefix(src, w, h, y, x + 1) && bottom == BottomPrefix(src, w, h, y, x + 1)
  {
    var k := FirstRowFirst(win, c0, cT);
    AgreeingWindowGivesBlock(src, w, h, x, y, win);
    top := top0 + [k.tl, k.tr];
    bottom := bottom0 + [k.bl, k.br];
  }

  method FirstRowInnerStep(src: seq<seq<Color>>, w: nat, h: nat, x: nat, y: nat, win: Window, c0: Color, cT: Color,
    top0: seq<Color>, bottom0: seq<Color>) returns (top: seq<Color>, bottom: seq<Color>)
    requires IsImage(src, w, h) && x < w && y < h && 0 < x < w - 1 && y == 0
    requires c0 == src[0][0] && cT == c0 && Agrees(src, w, h, x, y, win)
    requires top0 == TopPrefix(src, w, h, y, x) && bottom0 == BottomPrefix(src, w, h, y, x)
    ensures top == TopPrefix(src, w, h, y, x + 1) && bottom == BottomPrefix(src, w, h, y, x + 1)
  {
    var k := FirstRowInner(win, c0, cT);
    AgreeingWindowGivesBlock(src, w, h, x, y, win);
    top := top0 + [k.tl, k.tr];
    bottom := bottom0 + [k.bl, k.br];
  }

  method FirstRowLastStep(src: seq<seq<Color>>, w: nat, h: nat, x: nat, y: nat, win: Window, c0: Color, cT: Color,
    top0: seq<Color>, bottom0: seq<Color>) returns (top: seq<Color>, bottom: seq<Color>)
    requires IsImage(src, w, h) && x < w && y < h && 0 < x == w - 1 && y == 0
    requires c0 == src[0][0] && cT == c0 && Agrees(src, w, h, x, y, win)
    requires top0 == TopPrefix(src, w, h, y, x) && bottom0 == BottomPrefix(src, w, h, y, x)
    ensures top == TopPrefix(src, w, h, y, x + 1) && bottom == BottomPrefix(src, w, h, y, x + 1)
  {
    var k := FirstRowLast(win, c0, cT);
    AgreeingWindowGivesBlock(src, w, h, x, y, win);
    top := top0 + [k.tl, k.tr];
    bottom := bottom0 + [k.bl, k.br];
  }

  method MiddleRowFirstStep(src: seq<seq<Color>>, w: nat, h: nat, x: nat, y: nat, win: Window, c0: Color, cT: Color,
    top0: seq<Color>, bottom0: seq<Color>) returns (top: seq<Color>, bottom: seq<Color>)
    requires IsImage(src, w, h) && x < w && y < h && x == 0 && 0 < y < h - 1
    requires c0 == src[0][0] && cT == c0 && Agrees(src, w, h, x, y, win)
    requires top0 == TopPrefix(src, w, h, y, x) && bottom0 == BottomPrefix(src, w, h, y, x)
    ensures top == TopPrefix(src, w, h, y, x + 1) && bottom == BottomPrefix(src, w, h, y, x + 1)
  {
    var k := MiddleRowFirst(win, c0, cT);
    AgreeingWindowGivesBlock(src, w, h, x, y, win);
    top := top0 + [k.tl, k.tr];
    bottom := bottom0 + [k.bl, k.br];
  }

  method MiddleRowInnerStep(src: seq<seq<Color>>, w: nat, h: nat, x: nat, y: nat, win: Window, c0: Color, cT: Color,
    top0: seq<Color>, bottom0: seq<Color>) returns (top: seq<Color>, bottom: seq<Color>)
    requires IsImage(src, w, h) && x < w && y < h && 0 < x < w - 1 && 0 < y < h - 1
    requires c0 == src[0][0] && cT == c0 && Agrees(src, w, h, x, y, win)
    requires top0 == TopPrefix(src, w, h, y, x) && bottom0 == BottomPrefix(src, w, h, y, x)
    ensures top == TopPrefix(src, w, h, y, x + 1) && bottom == BottomPrefix(src, w, h, y, x + 1)
  {
    var k := MiddleRowInner(win, c0);
    AgreeingWindowGivesBlock(src, w, h, x, y, win);
    top := top0 + [k.tl, k.tr];
    bottom := bottom0 + [k.bl, k.br];
  }

  method MiddleRowLastStep(src: seq<seq<Color>>, w: nat, h: nat, x: nat, y: nat, win: Window, c0: Color, cT: Color,
    top0: seq<Color>, bottom0: seq<Color>) returns (top: seq<Color>, bottom: seq<Color>)
    requires IsImage(src, w, h) && x < w && y < h && 0 < x == w - 1 && 0 < y < h - 1
    requires c0 == src[0][0] && cT == c0 && Agrees(src, w, h, x, y, win)
    requires top0 == TopPrefix(src, w, h, y, x) && bottom0 == BottomPrefix(src, w, h, y, x)
    ensures top == TopPrefix(src, w, h, y, x + 1) && bottom == BottomPrefix(src, w, h, y, x + 1)
  {
    var k := MiddleRowLast(win, c0, cT);
    AgreeingWindowGivesBlock(src, w, h, x, y, win);
    top := top0 + [k.tl, k.tr];
    bottom := bottom0 + [k.bl, k.br];
  }

  method LastRowFirstStep(src: seq<seq<Color>>, w: nat, h: nat, x: nat, y: nat, win: Window, c0: Color, cT: Color,
    top0: seq<Color>, bottom0: seq<Color>) returns (top: seq<Color>, bottom: seq<Color>)
    requires IsImage(src, w, h) && x < w && y < h && x == 0 && 0 < y == h - 1
    requires c0 == src[0][0] && cT == c0 && Agrees(src, w, h, x, y, win)
    requires top0 == TopPrefix(src, w, h, y, x) && bottom0 == BottomPrefix(src, w, h, y, x)
    ensures top == TopPrefix(src, w, h, y, x + 1) && bottom == BottomPrefix(src, w, h, y, x + 1)
  {
    var k := LastRowFirst(win, c0, cT);
    AgreeingWindowGivesBlock(src, w, h, x, y, win);
    top := top0 + [k.tl, k.tr];
    bottom := bottom0 + [k.bl, k.br];
  }

  method LastRowInnerStep(src: seq<seq<Color>>, w: nat, h: nat, x: nat, y: nat, win: Window, c0: Color, cT: Color,
    top0: seq<Color>, bottom0: seq<Color>) returns (top: seq<Color>, bottom: seq<Color>)
    requires IsImage(src, w, h) && x < w && y < h && 0 < x < w - 1 && 0 < y == h - 1
    requires c0 == src[0][0] && cT == c0 && Agrees(src, w, h, x, y, win)
    requires top0 == TopPrefix(src, w, h, y, x) && bottom0 == BottomPrefix(src, w, h, y, x)
    ensures top == TopPrefix(src, w, h, y, x + 1) && bottom == BottomPrefix(src, w, h, y, x + 1)
  {
    var k := LastRowInner(win, c0, cT);
    AgreeingWindowGivesBlock(src, w, h, x, y, win);
    top := top0 + [k.tl, k.tr];
    bottom := bottom0 + [k.bl, k.br];
  }

  /** The first row: `c5`, `c6` from row 0, `c2`, `c3` from row 1, or from
      row 0 again when the image is one row high. */
  method FirstRowPass(src: seq<seq<Color>>, w: nat, h: nat, c0: Color, cT: Color, win: Window)
    returns (top: seq<Color>, bottom: seq<Color>, next: Window)
    requires IsImage(src, w, h) && 0 < w && 0 < h
    requires c0 == src[0][0] && cT == c0
    ensures |top| == 2 * w && |bottom| == 2 * w
    ensures top == TopPrefix(src, w, h, 0, w) && bottom == BottomPrefix(src, w, h, 0, w)
  {
    var c7, c8, c9,
        c4, c5, c6,
        c1, c2, c3 := win.c7, win.c8, win.c9,
                      win.c4, win.c5, win.c6,
                      win.c1, win.c2, win.c3;
    var y1 := if h > 1 then 1 else 0;
    c5 := src[0][0];
    c2 := src[y1][0];
    if w > 1 {
      c6 := src[0][1];
      c3 := src[y1][1];
    } else {
      c6 := c5;
      c3 := c2;
    }
    top, bottom := FirstRowFirstStep(src, w, h, 0, 0, Window(c7, c8, c9, c4, c5, c6, c1, c2, c3),
                                     c0, cT, [], []);
    top, bottom, next := FirstRowInnerRun(src, w, h, c0, cT, Window(c7, c8, c9, c4, c5, c6, c1, c2, c3),
                                          top, bottom);
    if w > 1 {
      c7, c8, c9,
      c4, c5, c6,
      c1, c2, c3 := next.c7, next.c8, next.c9,
                    next.c4, next.c5, next.c6,
                    next.c1, next.c2, next.c3;
      c4 := c5; c5 := c6;
      c1 := c2; c2 := c3;
      top, bottom := FirstRowLastStep(src, w, h, w - 1, 0, Window(c7, c8, c9, c4, c5, c6, c1, c2, c3),
                                      c0, cT, top, bottom);
      next := Window(c7, c8, c9, c4, c5, c6, c1, c2, c3);
    }
  }

  /** The inner columns `1 .. w - 2` of the first row. */
  method FirstRowInnerRun(src: seq<seq<Color>>, w: nat, h: nat, c0: Color, cT: Color, win: Window,
                          top0: seq<Color>, bottom0: seq<Color>)
    returns (top: seq<Color>, bottom: seq<Color>, next: Window)
    requires IsImage(src, w, h) && 0 < w && 0 < h
    requires c0 == src[0][0] && cT == c0
    requires Agrees(src, w, h, 0, 0, win)
    requires top0 == TopPrefix(src, w, h, 0, 1) && bottom0 == BottomPrefix(src, w, h, 0, 1)
    ensures w == 1 ==> top == top0 && bottom == bottom0 && Agrees(src, w, h, 0, 0, next)
    ensures 1 < w ==> Agrees(src, w, h, w - 2, 0, next)
    ensures 1 < w ==> top == TopPrefix(src, w, h, 0, w - 1) && bottom == BottomPrefix(src, w, h, 0, w - 1)
  {
    var c7, c8, c9,
        c4, c5, c6,
        c1, c2, c3 := win.c7, win.c8, win.c9,
                      win.c4, win.c5, win.c6,
                      win.c1, win.c2, win.c3;
    var y1 := if h > 1 then 1 else 0;
    assert y1 == Clamp(1, h);
    top, bottom := top0, bottom0;
    var x := 0;
    var loopX := w - 2;
    while loopX > 0
      invariant x + loopX == w - 2 && x < w && (w > 1 ==> 0 <= loopX)
      invariant Agrees(src, w, h, x, 0, Window(c7, c8, c9, c4, c5, c6, c1, c2, c3))
      invariant top == TopPrefix(src, w, h, 0, x + 1) && bottom == BottomPrefix(src, w, h, 0, x + 1)
    {
      var prev := Window(c7, c8, c9, c4, c5, c6, c1, c2, c3);
      c4 := c5; c5 := c6; c6 := src[0][x + 2];
      c1 := c2; c2 := c3; c3 := src[y1][x + 2];
      ShiftAgrees(src, w, h, x, 0, prev, Window(c7, c8, c9, c4, c5, c6, c1, c2, c3));
      x := x + 1;
      top, bottom := FirstRowInnerStep(src, w, h, x, 0, Window(c7, c8, c9, c4, c5, c6, c1, c2, c3),
                                       c0, cT, top, bottom);
      loopX := loopX - 1;
    }
    next := Window(c7, c8, c9, c4, c5, c6, c1, c2, c3);
  }

  /** A middle row `y`: `c8`, `c9` from row `y - 1`, `c5`, `c6` from row
      `y`, `c2`, `c3` from row `y + 1`. */
  method MiddleRowPass(src: seq<seq<Color>>, w: nat, h: nat, y: nat, c0: Color, cT: Color, win: Window)
    returns (top: seq<Color>, bottom: seq<Color>, next: Window)
    requires IsImage(src, w, h) && 0 < w && 0 < y < h - 1
    requires c0 == src[0][0] && cT == c0
    ensures |top| == 2 * w && |bottom| == 2 * w
    ensures top == TopPrefix(src, w, h, y, w) && bottom == BottomPrefix(src, w, h, y, w)
  {
    var c7, c8, c9,
        c4, c5, c6,
        c1, c2, c3 := win.c7, win.c8, win.c9,
                      win.c4, win.c5, win.c6,
                      win.c1, win.c2, win.c3;
    c8 := src[y - 1][0];
    c5 := src[y][0];
    c2 := src[y + 1][0];
    if w > 1 {
      c9 := src[y - 1][1];
      c6 := src[y][1];
      c3 := src[y + 1][1];
    } else {
      c9 := c8;
      c6 := c5;
      c3 := c2;
    }
    top, bottom := MiddleRowFirstStep(src, w, h, 0, y, Window(c7, c8, c9, c4, c5, c6, c1, c2, c3),
                                      c0, cT, [], []);
    top, bottom, next := MiddleRowInnerRun(src, w, h, y, c0, cT, Window(c7, c8, c9, c4, c5, c6, c1, c2, c3),
                                           top, bottom);
    if w > 1 {
      c7, c8, c9,
      c4, c5, c6,
      c1, c2, c3 := next.c7, next.c8, next.c9,
                    next.c4, next.c5, next.c6,
                    next.c1, next.c2, next.c3;
      c7 := c8; c8 := c9;
      c4 := c5; c5 := c6;
      c1 := c2; c2 := c3;
      top, bottom := MiddleRowLastStep(src, w, h, w - 1, y, Window(c7, c8, c9, c4, c5, c6, c1, c2, c3),
                                       c0, cT, top, bottom);
      next := Window(c7, c8, c9, c4, c5, c6, c1, c2, c3);
    }
  }

  /** The inner columns `1 .. w - 2` of middle row `y`. */
  method MiddleRowInnerRun(src: seq<seq<Color>>, w: nat, h: nat, y: nat, c0: Color, cT: Color, win: Window,
                           top0: seq<Color>, bottom0: seq<Color>)
    returns (top: seq<Color>, bottom: seq<Color>, next: Window)
    requires IsImage(src, w, h) && 0 < w && 0 < y < h - 1
    requires c0 == src[0][0] && cT == c0
    requires Agrees(src, w, h, 0, y, win)
    requires top0 == TopPrefix(src, w, h, y, 1) && bottom0 == BottomPrefix(src, w, h, y, 1)
    ensures w == 1 ==> top == top0 && bottom == bottom0 && Agrees(src, w, h, 0, y, next)
    ensures 1 < w ==> Agrees(src, w, h, w - 2, y, next)
    ensures 1 < w ==> top == TopPrefix(src, w, h, y, w - 1) && bottom == BottomPrefix(src, w, h, y, w - 1)
  {
    var c7, c8, c9,
        c4, c5, c6,
        c1, c2, c3 := win.c7, win.c8, win.c9,
                      win.c4, win.c5, win.c6,
                      win.c1, win.c2, win.c3;
    top, bottom := top0, bottom0;
    var x := 0;
    var loopX := w - 2;
    while loopX > 0
      invariant x + loopX == w - 2 && x < w && (w > 1 ==> 0 <= loopX)
      invariant Agrees(src, w, h, x, y, Window(c7, c8, c9, c4, c5, c6, c1, c2, c3))
      invariant top == TopPrefix(src, w, h, y, x + 1) && bottom == BottomPrefix(src, w, h, y, x + 1)
    {
      var prev := Window(c7, c8, c9, c4, c5, c6, c1, c2, c3);
      c7 := c8; c8 := c9; c9 := src[y - 1][x + 2];
      c4 := c5; c5 := c6; c6 := src[y][x + 2];
      c1 := c2; c2 := c3; c3 := src[y + 1][x + 2];
      ShiftAgrees(src, w, h, x, y, prev, Window(c7, c8, c9, c4, c5, c6, c1, c2, c3));
      x := x + 1;
      top, bottom := MiddleRowInnerStep(src, w, h, x, y, Window(c7, c8, c9, c4, c5, c6, c1, c2, c3),
                                        c0, cT, top, bottom);
      loopX := loopX - 1;
    }
    next := Window(c7, c8, c9, c4, c5, c6, c1, c2, c3);
  }

  /** The last row up to, not including, its final block: `c8`, `c9` from
      row `h - 2` and `c5`, `c6` from row `h - 1`. The first block reads a
      `c7` left over from an earlier row. */
  method LastRowBody(src: seq<seq<Color>>, w: nat, h: nat, c0: Color, cT: Color, win: Window)
    returns (top: seq<Color>, bottom: seq<Color>, next: Window)
    requires IsImage(src, w, h) && 0 < w && 1 < h
    requires c0 == src[0][0] && cT == c0
    ensures var n := if w == 1 then 1 else w - 1;
            top == TopPrefix(src, w, h, h - 1, n) && bottom == BottomPrefix(src, w, h, h - 1, n)
    ensures next.c6 == src[h - 1][w - 1] && next.c9 == src[h - 2][w - 1]
  {
    var c7, c8, c9,
        c4, c5, c6,
        c1, c2, c3 := win.c7, win.c8, win.c9,
                      win.c4, win.c5, win.c6,
                      win.c1, win.c2, win.c3;
    var y := h - 1;
    c8 := src[y - 1][0];
    c5 := src[y][0];
    if w > 1 {
      c9 := src[y - 1][1];
      c6 := src[y][1];
    } else {
      c9 := c8;
      c6 := c5;
    }
    top, bottom := LastRowFirstStep(src, w, h, 0, y, Window(c7, c8, c9, c4, c5, c6, c1, c2, c3),
                                    c0, cT, [], []);
    top, bottom, next := LastRowInnerRun(src, w, h, c0, cT, Window(c7, c8, c9, c4, c5, c6, c1, c2, c3),
                                         top, bottom);
  }

  /** The inner columns `1 .. w - 2` of the last row. */
  method LastRowInnerRun(src: seq<seq<Color>>, w: nat, h: nat, c0: Color, cT: Color, win: Window,
                         top0: seq<Color>, bottom0: seq<Color>)
    returns (top: seq<Color>, bottom: seq<Color>, next: Window)
    requires IsImage(src, w, h) && 0 < w && 1 < h
    requires c0 == src[0][0] && cT == c0
    requires Agrees(src, w, h, 0, h - 1, win)
    requires top0 == TopPrefix(src, w, h, h - 1, 1) && bottom0 == BottomPrefix(src, w, h, h - 1, 1)
    ensures w == 1 ==> top == top0 && bottom == bottom0 && Agrees(src, w, h, 0, h - 1, next)
    ensures 1 < w ==> Agrees(src, w, h, w - 2, h - 1, next)
    ensures 1 < w ==> top == TopPrefix(src, w, h, h - 1, w - 1) && bottom == BottomPrefix(src, w, h, h - 1, w - 1)
  {
    var c7, c8, c9,
        c4, c5, c6,
        c1, c2, c3 := win.c7, win.c8, win.c9,
                      win.c4, win.c5, win.c6,
                      win.c1, win.c2, win.c3;
    var y := h - 1;
    top, bottom := top0, bottom0;
    var x := 0;
    var loopX := w - 2;
    while loopX > 0
      invariant x + loopX == w - 2 && x < w && (w > 1 ==> 0 <= loopX)
      invariant Agrees(src, w, h, x, y, Window(c7, c8, c9, c4, c5, c6, c1, c2, c3))
      invariant top == TopPrefix(src, w, h, y, x + 1) && bottom == BottomPrefix(src, w, h, y, x + 1)
    {
      var prev := Window(c7, c8, c9, c4, c5, c6, c1, c2, c3);
      c7 := c8; c8 := c9; c9 := src[y - 1][x + 2];
      c4 := c5; c5 := c6; c6 := src[y][x + 2];
      ShiftAgrees(src, w, h, x, y, prev, Window(c7, c8, c9, c4, c5, c6, c1, c2, c3));
      x := x + 1;
      top, bottom := LastRowInnerStep(src, w, h, x, y, Window(c7, c8, c9, c4, c5, c6, c1, c2, c3),
                                      c0, cT, top, bottom);
      loopX := loopX - 1;
    }
    next := Window(c7, c8, c9, c4, c5, c6, c1, c2, c3);
  }

  /** The final block of the last row: shift the window once more and
      write. The shift leaves `c6` equal to the new `c5`, so whatever the
      window held the block is the right-most pixel, twice per cursor. */
  method LastRowFinal(c0: Color, cT: Color, win: Window) returns (top: seq<Color>, bottom: seq<Color>, next: Window)
    ensures top == [win.c6, win.c6] && bottom == [win.c6, win.c6]
  {
    var c7, c8, c9,
        c4, c5, c6,
        c1, c2, c3 := win.c7, win.c8, win.c9,
                      win.c4, win.c5, win.c6,
                      win.c1, win.c2, win.c3;
    c4 := c5; c5 := c6;
    c7 := c8; c8 := c9;
    next := Window(c7, c8, c9, c4, c5, c6, c1, c2, c3);
    top, bottom := LastRowLastWrites(next, c0, cT).0, LastRowLastWrites(next, c0, cT).1;
  }

  /** The last row as the source writes it: the final block follows with
      no `w > 1` guard, so a one-pixel-wide image gets four pixels through
      each cursor, two more than its destination rows hold; the lower
      cursor then runs two pixels past the end of the destination. */
  method LastRowPassAsWritten(src: seq<seq<Color>>, w: nat, h: nat, c0: Color, cT: Color, win: Window)
    returns (top: seq<Color>, bottom: seq<Color>, next: Window)
    requires IsImage(src, w, h) && 0 < w && 1 < h
    requires c0 == src[0][0] && cT == c0
    ensures w > 1 ==> top == TopPrefix(src, w, h, h - 1, w) && bottom == BottomPrefix(src, w, h, h - 1, w)
    ensures w == 1 ==> |top| == 2 * w + 2 && |bottom| == 2 * w + 2
    ensures w == 1 ==> var s := src[h - 1][0];
                       top == TopPrefix(src, w, h, h - 1, w) + [s, s] &&
                       bottom == BottomPrefix(src, w, h, h - 1, w) + [s, s]
  {
    top, bottom, next := LastRowBody(src, w, h, c0, cT, win);
    var t, b;
    t, b, next := LastRowFinal(c0, cT, next);
    top := top + t;
    bottom := bottom + b;
  }

  /** The last row with the final block guarded by `w > 1`, as the first
      and middle rows guard theirs: exactly `2 w` pixels per cursor. */
  method LastRowPass(src: seq<seq<Color>>, w: nat, h: nat, c0: Color, cT: Color, win: Window)
    returns (top: seq<Color>, bottom: seq<Color>, next: Window)
    requires IsImage(src, w, h) && 0 < w && 1 < h
    requires c0 == src[0][0] && cT == c0
    ensures |top| == 2 * w && |bottom| == 2 * w
    ensures top == TopPrefix(src, w, h, h - 1, w) && bottom == BottomPrefix(src, w, h, h - 1, w)
  {
    top, bottom, next := LastRowBody(src, w, h, c0, cT, win);
    if w > 1 {
      var t, b;
      t, b, next := LastRowFinal(c0, cT, next);
      assert [BlockAt(src, w, h, w - 1, h - 1).tl, BlockAt(src, w, h, w - 1, h - 1).tr] == t;
      top := top + t;
      bottom := bottom + b;
    }
  }

  /** The middle rows `1 .. h - 2`, each appending its two destination
      rows. */
  method MiddleRows(src: seq<seq<Color>>, w: nat, h: nat, c0: Color, cT: Color, win: Window,
                    dst0: seq<seq<Color>>) returns (dst: seq<seq<Color>>, next: Window)
    requires IsImage(src, w, h) && 0 < w && 0 < h
    requires c0 == src[0][0] && cT == c0
    requires dst0 == Rows(src, w, h, 1)
    ensures h == 1 ==> dst == dst0
    ensures 1 < h ==> dst == Rows(src, w, h, h - 1)
  {
    dst, next := dst0, win;
    var y := 1;
    var loopY := h - 2;
    while loopY > 0
      invariant y + loopY == h - 1 && 1 <= y <= h
      invariant h > 1 ==> y <= h - 1
      invariant dst == Rows(src, w, h, y)
    {
      var top, bottom;
      top, bottom, next := MiddleRowPass(src, w, h, y, c0, cT, next);
      RowsStep(src, w, h, y, top, bottom);
      dst := dst + [top, bottom];
      loopY := loopY - 1;
      y := y + 1;
    }
  }

  /** `image_scale2x_rgba`: nothing is written for an empty image;
      otherwise `c0` and `cT` are fixed to pixel (0, 0) for the whole pass
      and the row sections write, in order, every row of the magnified
      image. */
  method Scale2x(src: seq<seq<Color>>, w: nat, h: nat) returns (dst: seq<seq<Color>>)
    requires IsImage(src, w, h)
    ensures w == 0 || h == 0 ==> dst == []
    ensures 0 < w && 0 < h ==> dst == Scaled(src, w, h)
  {
    if w == 0 || h == 0 {
      return [];
    }
    var c0 := src[0][0];
    var cT := c0;
    var win := InitialWindow();

    var top, bottom;
    top, bottom, win := FirstRowPass(src, w, h, c0, cT, win);
    assert Rows(src, w, h, 1) == Rows(src, w, h, 0) + [top, bottom];
    dst := [top, bottom];

    dst, win := MiddleRows(src, w, h, c0, cT, win, dst);

    if h > 1 {
      top, bottom, win := LastRowPass(src, w, h, c0, cT, win);
      assert Rows(src, w, h, h) == Rows(src, w, h, h - 1) + [top, bottom];
      dst := dst + [top, bottom];
    }
  }
}
