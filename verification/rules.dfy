/**
  The per-pixel decision rules of the 2x magnifier, one per row class
  (first, middle, last) and column class (first, inner, last), each
  written branch for branch over the nine window slots

      c7 c8 c9
      c4 c5 c6      c5 is the source pixel being magnified
      c1 c2 c3

  together with the pass-wide references `c0` and `cT`. A rule reads only
  the slots its case has; the others may hold anything.
 */
module Rules {
  import opened Colors
  import opened Heuristic

  datatype Window = Window(c7: Color, c8: Color, c9: Color,
                           c4: Color, c5: Color, c6: Color,
                           c1: Color, c2: Color, c3: Color)

  /** The 2x2 destination block of one source pixel: top-left, top-right,
      bottom-left, bottom-right. */
  datatype Block = Block(tl: Color, tr: Color, bl: Color, br: Color)

  function Centre(c: Color): Block
  {
    Block(c, c, c, c)
  }

  /** Every slot of the window is equal (as colours) to the centre. */
  predicate Flat(w: Window)
  {
    && Equal(w.c7, w.c5) && Equal(w.c8, w.c5) && Equal(w.c9, w.c5)
    && Equal(w.c4, w.c5) && Equal(w.c6, w.c5)
    && Equal(w.c1, w.c5) && Equal(w.c2, w.c5) && Equal(w.c3, w.c5)
  }

  /** Which neighbour each sub-pixel of a block may copy: the top-left the
      one above, the top-right the one to the right, the bottom-left the
      one to the left, the bottom-right the one below; never a diagonal. */
  predicate Orthogonal(w: Window, k: Block)
  {
    && (k.tl == w.c5 || k.tl == w.c8)
    && (k.tr == w.c5 || k.tr == w.c6)
    && (k.bl == w.c5 || k.bl == w.c4)
    && (k.br == w.c5 || k.br == w.c2)
  }

  /** First row, first column. */
  function FirstRowFirst(w: Window, c0: Color, cT: Color): (k: Block)
    ensures Orthogonal(w, k)
    ensures k.tl == w.c5 && k.tr == w.c5 && k.bl == w.c5
    ensures Equal(w.c6, w.c5) || Equal(w.c2, w.c5) ==> k == Centre(w.c5)
  {
    var c5, c6, c2, c3 := w.c5, w.c6, w.c2, w.c3;
    if Equal(c6, c5) || Equal(c2, c5) then Centre(c5)
    else
      Block(c5, c5, c5,
        if !IsSameOrDiffLessThan(c2, c6, c5)
           || (Equal(c3, c5) && IsSameOrDiffLessThan(c2, c0, c5))
           || (Equal(c3, c5) && Equal(cT, c5) && IsSameOrDiffLessThan(c2, cT, c5) && IsSameOrDiffLessThan(c6, cT, c5))
        then c5 else c2)
  }

  /** First row, inner column. */
  function FirstRowInner(w: Window, c0: Color, cT: Color): (k: Block)
    ensures Orthogonal(w, k)
    ensures k.tl == w.c5 && k.tr == w.c5
    ensures Equal(w.c2, w.c5) ==> k == Centre(w.c5)
  {
    var c4, c5, c6, c1, c2, c3 := w.c4, w.c5, w.c6, w.c1, w.c2, w.c3;
    if IsSameOrDiffLessThan(c4, c6, c5) || Equal(c2, c5) then Centre(c5)
    else
      Block(c5, c5,
        if !IsSameOrDiffLessThan(c4, c2, c5)
           || (Equal(c1, c5) && IsSameOrDiffLessThan(c4, c0, c5))
           || (Equal(c1, c5) && Equal(cT, c5) && IsSameOrDiffLessThan(c4, cT, c5) && IsSameOrDiffLessThan(c2, c3, c5))
        then c5 else c4,
        if !IsSameOrDiffLessThan(c2, c6, c5)
           || (Equal(c3, c5) && IsSameOrDiffLessThan(c2, c0, c5))
           || (Equal(c3, c5) && Equal(cT, c5) && IsSameOrDiffLessThan(c2, c1, c5) && IsSameOrDiffLessThan(c6, cT, c5))
        then c5 else c2)
  }

  /** First row, last column. */
  function FirstRowLast(w: Window, c0: Color, cT: Color): (k: Block)
    ensures Orthogonal(w, k)
    ensures k.tl == w.c5 && k.tr == w.c5 && k.br == w.c5
    ensures Equal(w.c2, w.c5) ==> k == Centre(w.c5)
  {
    var c4, c5, c1, c2 := w.c4, w.c5, w.c1, w.c2;
    if Equal(c4, c5) || Equal(c2, c5) then Centre(c5)
    else
      Block(c5, c5,
        if !IsSameOrDiffLessThan(c4, c2, c5)
           || (Equal(c1, c5) && IsSameOrDiffLessThan(c4, c0, c5))
           || (Equal(c1, c5) && Equal(cT, c5) && IsSameOrDiffLessThan(c4, cT, c5) && IsSameOrDiffLessThan(c2, cT, c5))
        then c5 else c4,
        c5)
  }

  /** Middle row, first column. */
  function MiddleRowFirst(w: Window, c0: Color, cT: Color): (k: Block)
    ensures Orthogonal(w, k)
    ensures k.tl == w.c5 && k.bl == w.c5
    ensures Equal(w.c6, w.c5) ==> k == Centre(w.c5)
  {
    var c8, c9, c5, c6, c2, c3 := w.c8, w.c9, w.c5, w.c6, w.c2, w.c3;
    if Equal(c6, c5) || IsSameOrDiffLessThan(c2, c8, c5) then Centre(c5)
    else
      Block(c5,
        if !IsSameOrDiffLessThan(c6, c8, c5)
           || (Equal(c9, c5) && IsSameOrDiffLessThan(c6, c0, c5))
           || (Equal(c9, c5) && Equal(cT, c5) && IsSameOrDiffLessThan(c6, c3, c5) && IsSameOrDiffLessThan(c8, cT, c5))
        then c5 else c6,
        c5,
        if !IsSameOrDiffLessThan(c2, c6, c5)
           || (Equal(c3, c5) && IsSameOrDiffLessThan(c2, c0, c5))
           || (Equal(c3, c5) && Equal(cT, c5) && IsSameOrDiffLessThan(c2, cT, c5) && IsSameOrDiffLessThan(c6, c9, c5))
        then c5 else c2)
  }

  /** Middle row, inner column: the only case with the full window, and
      the only one that does not consult `cT`. */
  function MiddleRowInner(w: Window, c0: Color): (k: Block)
    ensures Orthogonal(w, k)
  {
    var c7, c8, c9, c4, c5, c6, c1, c2, c3 := w.c7, w.c8, w.c9, w.c4, w.c5, w.c6, w.c1, w.c2, w.c3;
    if || IsSameOrDiffLessThan(c4, c6, c5)
       || IsSameOrDiffLessThan(c2, c8, c5)
       || ((NotEqual(c4, c5) && NotEqual(c2, c5) && NotEqual(c6, c5) && NotEqual(c8, c5))
           && ((IsSameOrDiffLessThan(c7, c3, c5) && NotEqual(c1, c5) && NotEqual(c9, c5))
               || (IsSameOrDiffLessThan(c1, c9, c5) && NotEqual(c7, c5) && NotEqual(c3, c5))))
    then Centre(c5)
    else
      Block(
        if !IsSameOrDiffLessThan(c8, c4, c5)
           || (Equal(c7, c5) && IsSameOrDiffLessThan(c8, c0, c5))
           || (Equal(c7, c5) && Equal(c3, c5) && IsSameOrDiffLessThan(c8, c9, c5) && IsSameOrDiffLessThan(c4, c1, c5))
        then c5 else c8,
        if !IsSameOrDiffLessThan(c6, c8, c5)
           || (Equal(c9, c5) && IsSameOrDiffLessThan(c6, c0, c5))
           || (Equal(c9, c5) && Equal(c1, c5) && IsSameOrDiffLessThan(c6, c3, c5) && IsSameOrDiffLessThan(c8, c7, c5))
        then c5 else c6,
        if !IsSameOrDiffLessThan(c4, c2, c5)
           || (Equal(c1, c5) && IsSameOrDiffLessThan(c4, c0, c5))
           || (Equal(c1, c5) && Equal(c9, c5) && IsSameOrDiffLessThan(c4, c7, c5) && IsSameOrDiffLessThan(c2, c3, c5))
        then c5 else c4,
        if !IsSameOrDiffLessThan(c2, c6, c5)
           || (Equal(c3, c5) && IsSameOrDiffLessThan(c2, c0, c5))
           || (Equal(c3, c5) && Equal(c7, c5) && IsSameOrDiffLessThan(c2, c1, c5) && IsSameOrDiffLessThan(c6, c9, c5))
        then c5 else c2)
  }

  /** Middle row, last column. */
  function MiddleRowLast(w: Window, c0: Color, cT: Color): (k: Block)
    ensures Orthogonal(w, k)
    ensures k.tr == w.c5 && k.br == w.c5
  {
    var c7, c8, c4, c5, c1, c2 := w.c7, w.c8, w.c4, w.c5, w.c1, w.c2;
    if Equal(c4, c5) || IsSameOrDiffLessThan(c2, c8, c5) then Centre(c5)
    else
      Block(
        if !IsSameOrDiffLessThan(c8, c4, c5)
           || (Equal(c7, c5) && IsSameOrDiffLessThan(c8, c0, c5))
           || (Equal(c7, c5) && Equal(cT, c5) && IsSameOrDiffLessThan(c8, cT, c5) && IsSameOrDiffLessThan(c4, c1, c5))
        then c5 else c8,
        c5,
        if !IsSameOrDiffLessThan(c4, c2, c5)
           || (Equal(c1, c5) && IsSameOrDiffLessThan(c4, c0, c5))
           || (Equal(c1, c5) && Equal(cT, c5) && IsSameOrDiffLessThan(c4, c7, c5) && IsSameOrDiffLessThan(c2, cT, c5))
        then c5 else c4,
        c5)
  }

  /** Last row, first column. At this point the scan has not assigned
      `c7` in the current row: it still holds whatever an earlier row, or
      the default constructor, left there. */
  function LastRowFirst(w: Window, c0: Color, cT: Color): (k: Block)
    ensures Orthogonal(w, k)
    ensures k.tl == w.c5 && k.bl == w.c5 && k.br == w.c5
    ensures Equal(w.c6, w.c5) ==> k == Centre(w.c5)
  {
    var c7, c8, c9, c5, c6 := w.c7, w.c8, w.c9, w.c5, w.c6;
    Block(c5,
      if Equal(c6, c5) || Equal(c8, c5) then c5
      else if !IsSameOrDiffLessThan(c6, c8, c5)
           || (Equal(c9, c5) && IsSameOrDiffLessThan(c6, c0, c5))
           || (Equal(c9, c5) && Equal(cT, c5) && IsSameOrDiffLessThan(c6, cT, c5) && IsSameOrDiffLessThan(c8, c7, c5))
      then c5 else c6,
      c5, c5)
  }

  /** Last row, inner column. */
  function LastRowInner(w: Window, c0: Color, cT: Color): (k: Block)
    ensures Orthogonal(w, k)
    ensures k.bl == w.c5 && k.br == w.c5
  {
    var c7, c8, c9, c4, c5, c6 := w.c7, w.c8, w.c9, w.c4, w.c5, w.c6;
    if IsSameOrDiffLessThan(c4, c6, c5) || Equal(c8, c5) then Centre(c5)
    else
      Block(
        if !IsSameOrDiffLessThan(c8, c4, c5)
           || (Equal(c7, c5) && IsSameOrDiffLessThan(c8, c0, c5))
           || (Equal(c7, c5) && Equal(cT, c5) && IsSameOrDiffLessThan(c8, c9, c5) && IsSameOrDiffLessThan(c4, cT, c5))
        then c5 else c8,
        if !IsSameOrDiffLessThan(c6, c8, c5)
           || (Equal(c9, c5) && IsSameOrDiffLessThan(c6, c0, c5))
           || (Equal(c9, c5) && Equal(cT, c5) && IsSameOrDiffLessThan(c6, cT, c5) && IsSameOrDiffLessThan(c8, c7, c5))
        then c5 else c6,
        c5, c5)
  }

  /** The writes of the last block of the last row, to the upper and the
      lower destination row, once the window has been shifted. Unlike the
      other rules its else branch writes a single pixel to the lower row;
      the scan never takes that branch, because the shift leaves `c6`
      equal to the new `c5`. */
  function LastRowLastWrites(w: Window, c0: Color, cT: Color): (r: (seq<Color>, seq<Color>))
    ensures |r.0| == 2
    ensures |r.1| == 2 <==> Equal(w.c6, w.c5) || Equal(w.c8, w.c5)
    ensures Equal(w.c6, w.c5) ==> r == ([w.c5, w.c5], [w.c5, w.c5])
  {
    var c7, c8, c4, c5, c6, c1 := w.c7, w.c8, w.c4, w.c5, w.c6, w.c1;
    if Equal(c6, c5) || Equal(c8, c5) then ([c5, c5], [c5, c5])
    else
      ([if !IsSameOrDiffLessThan(c8, c4, c5)
           || (Equal(c7, c5) && IsSameOrDiffLessThan(c8, c0, c5))
           || (Equal(c7, c5) && Equal(cT, c5) && IsSameOrDiffLessThan(c8, cT, c5) && IsSameOrDiffLessThan(c4, c1, c5))
        then c5 else c8,
        c5],
       [c5])
  }

  /** Where a source pixel lies among the rows of the image. */
  datatype RowClass = FirstRow | MiddleRow | LastRow

  /** Where a source pixel lies among the columns of the image. */
  datatype ColumnClass = FirstColumn | InnerColumn | LastColumn

  /** A decision rule: window, `c0`, `cT` to block. */
  type Rule = (Window, Color, Color) -> Block

  /** The rule for each of the nine cases. The last column of the last row
      yields its centre: once the window has been shifted for that block,
      `c6` equals `c5` and `LastRowLastWrites` has no other outcome. */
  function RuleFor(row: RowClass, col: ColumnClass): Rule
  {
    match (row, col)
    case (FirstRow, FirstColumn) => FirstRowFirst
    case (FirstRow, InnerColumn) => FirstRowInner
    case (FirstRow, LastColumn) => FirstRowLast
    case (MiddleRow, FirstColumn) => MiddleRowFirst
    case (MiddleRow, InnerColumn) => (w: Window, c0: Color, cT: Color) => MiddleRowInner(w, c0)
    case (MiddleRow, LastColumn) => MiddleRowLast
    case (LastRow, FirstColumn) => LastRowFirst
    case (LastRow, InnerColumn) => LastRowInner
    case (LastRow, LastColumn) => (w: Window, c0: Color, cT: Color) => Centre(w.c5)
  }

  /** The stale `c7` read by the last-row first-column rule never decides
      its result: the disjunct that reads it also demands `cT == c5` and
      that `c6` pass the test against `cT`, which makes `c6` equal to `c5`,
      and that case was settled before. */
  lemma {:induction false} LastRowFirstIgnoresC7(w: Window, c7: Color, c0: Color, cT: Color)
    ensures LastRowFirst(w.(c7 := c7), c0, cT) == LastRowFirst(w, c0, cT)
  {
    var c5, c6 := w.c5, w.c6;
    if Equal(cT, c5) && IsSameOrDiffLessThan(c6, cT, c5) {
      PassingJoinsClass(c6, cT, c5);
    }
  }

  /** A window whose slots are all equal to its centre is magnified to the
      centre colour by every rule. */
  lemma {:induction false} FlatKeepsCentre(w: Window, c0: Color, cT: Color)
    requires Flat(w)
    ensures FirstRowFirst(w, c0, cT) == Centre(w.c5)
    ensures FirstRowInner(w, c0, cT) == Centre(w.c5)
    ensures FirstRowLast(w, c0, cT) == Centre(w.c5)
    ensures MiddleRowFirst(w, c0, cT) == Centre(w.c5)
    ensures MiddleRowInner(w, c0) == Centre(w.c5)
    ensures MiddleRowLast(w, c0, cT) == Centre(w.c5)
    ensures LastRowFirst(w, c0, cT) == Centre(w.c5)
    ensures LastRowInner(w, c0, cT) == Centre(w.c5)
    ensures LastRowLastWrites(w, c0, cT) == ([w.c5, w.c5], [w.c5, w.c5])
  {
    EqualIsEquivalence(w.c4, w.c5, w.c6);
    EqualIsEquivalence(w.c6, w.c5, w.c6);
    EqualIsEquivalence(w.c2, w.c5, w.c8);
    EqualIsEquivalence(w.c8, w.c5, w.c8);
  }
}
