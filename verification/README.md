# 2x RGBA magnifier (`image_scale2x_rgba`)

A Dafny model of the edge-directed 2x pixel-art magnifier that forms the
upscaling stage of the RotSprite rotation in
`src/doc/algorithm/rotsprite.rgba.cpp.h`. For every source pixel the
magnifier writes a 2x2 block into the destination. Each sub-pixel is the
source pixel itself or one of its orthogonal neighbours. The choice is made
by comparing colours in a sliding 3x3 window `c7 c8 c9 / c4 c5 c6 / c1 c2 c3`
around the centre `c5`.

The model has five modules, leaves first:

- `Colors` (`colors.dfy`): the `MyColor` union as a four-channel datatype.
  It has the little-endian 32-bit view (`Pack`/`Unpack`), the
  default-constructed colour, the transparency-aware `==` and `!=`, and the
  channel distance `-`.
- `Heuristic` (`heuristic.dfy`): `isSameOrDiffLessThan` and its laws.
- `Rules` (`rules.dfy`): the decision rule of each of the nine row x column
  cases, written branch for branch over a `Window` value. The module also
  holds the table `RuleFor` that picks the rule of a case.
- `Reference` (`reference.dfy`): a coordinate-based definition of the
  output. The window of pixel (x, y) is read from the image with border
  replication, and the rule of its class gives its block. The destination
  is the rows of those blocks.
- `Scan` (`scan.dfy`): the imperative scan as the source performs it. It
  has the first-row section, the middle-row loop and the last-row section.
  Each section has a first column, an inner-column loop and a last column.
  The nine window variables live for the whole pass, and what a cursor
  writes is a sequence of pixels. With the final last-row block guarded by
  `w > 1` (see Findings), `Scale2x` is proved to produce exactly
  `Reference.Scaled`.

The model settles three subtle spots of the scan:

1. The last-row first-column case reads `c7` before the current row has
   assigned it. `Rules.LastRowFirstIgnoresC7` proves the stale value never
   decides the result.
2. After the last shift of the last row, `c6` equals `c5`. The guard of the
   final block therefore always holds, and its else branch is dead
   (`Scan.LastRowFinal`).
3. The final block of the last row has no `src_w > 1` guard. See Findings.

`isSameOrDiffLessThan` (lines 160-165) is symmetric in its first two
arguments, because the distance is (`Heuristic.Symmetric`).

`Equal` is defined as "the same colour, or both fully transparent".
`Colors.EqualIsWordCompare` proves that this agrees with the source's
comparison of the 32-bit words. `(a | other.a) == 0` is modelled as "both
alpha bytes are zero", which is the same for bytes.

## Model

| member | source | states |
|---|---|---|
| Colors.Pack | src/doc/algorithm/rotsprite.rgba.cpp.h:38-41 | No ensures: the word view of the union, red in the low byte and alpha in the high byte. Its laws are `Colors.UnpackPack`, `Colors.PackUnpack` and `Colors.PackInjective` |
| Colors.Unpack | src/doc/algorithm/rotsprite.rgba.cpp.h:38-41 | No ensures: the four bytes of a word. It inverts `Pack` in both directions (`Colors.UnpackPack`, `Colors.PackUnpack`) |
| Colors.UnpackPack | src/doc/algorithm/rotsprite.rgba.cpp.h:38-41 | Reading the 32-bit view of a colour back as four bytes gives the colour again |
| Colors.PackUnpack | src/doc/algorithm/rotsprite.rgba.cpp.h:38-41 | Every 32-bit word is the view of the colour its four bytes form |
| Colors.PackInjective | src/doc/algorithm/rotsprite.rgba.cpp.h:38-41 | Two colours have the same 32-bit view exactly when they are the same colour |
| Colors.Default | src/doc/algorithm/rotsprite.rgba.cpp.h:44-46 | The default colour's word is 0xff000000, and that word unpacks to opaque black |
| Colors.Equal | src/doc/algorithm/rotsprite.rgba.cpp.h:105-107 | No ensures: `operator==`. `Colors.EqualIsWordCompare` ties it to the word compare, and `Colors.EqualIsEquivalence` proves it an equivalence |
| Colors.NotEqual | src/doc/algorithm/rotsprite.rgba.cpp.h:109-111 | No ensures: `operator!=`. `Colors.EqualIsWordCompare` proves it is exactly the negation of `==` |
| Colors.EqualIsWordCompare | src/doc/algorithm/rotsprite.rgba.cpp.h:105-111 | `==` holds exactly when the words match or both alphas are zero; `!=` holds exactly when the words differ and the alphas are not both zero; `!=` is the negation of `==` |
| Colors.EqualIsEquivalence | src/doc/algorithm/rotsprite.rgba.cpp.h:105-107 | `==` is reflexive, symmetric and transitive |
| Colors.Distance | src/doc/algorithm/rotsprite.rgba.cpp.h:113-119 | The distance is zero exactly when the colours are equal under `==` |
| Colors.DistanceBounds | src/doc/algorithm/rotsprite.rgba.cpp.h:113-119 | Between unequal colours the distance is the sum of the absolute channel differences and is positive; it never exceeds 4 * 255 |
| Colors.DistanceSymmetric | src/doc/algorithm/rotsprite.rgba.cpp.h:113-119 | The distance does not depend on argument order |
| Heuristic.IsSameOrDiffLessThan | src/doc/algorithm/rotsprite.rgba.cpp.h:163-165 | No ensures: the decision primitive. Its laws are `Heuristic.SamePasses`, `Heuristic.Symmetric`, `Heuristic.Degenerates` and `Heuristic.PassingJoinsClass` |
| Heuristic.SamePasses | src/doc/algorithm/rotsprite.rgba.cpp.h:163-165 | The test passes whenever `a == b` |
| Heuristic.Symmetric | src/doc/algorithm/rotsprite.rgba.cpp.h:160-165 | Swapping `a` and `b` never changes the test |
| Heuristic.Degenerates | src/doc/algorithm/rotsprite.rgba.cpp.h:163-165 | When `b == c`, the test is exactly `a == b` |
| Heuristic.PassingJoinsClass | src/doc/algorithm/rotsprite.rgba.cpp.h:163-165 | When `b == c` and the test passes, `a == c` |
| Rules.FirstRowFirst | src/doc/algorithm/rotsprite.rgba.cpp.h:204-218 | Only the bottom-right sub-pixel can differ from the centre, and then it is `c2`; a flat right or lower neighbour gives a plain copy |
| Rules.FirstRowInner | src/doc/algorithm/rotsprite.rgba.cpp.h:226-247 | The top row is the centre; the bottom-left is centre or `c4`, the bottom-right centre or `c2`; `c2 == c5` gives a plain copy |
| Rules.FirstRowLast | src/doc/algorithm/rotsprite.rgba.cpp.h:255-268 | Only the bottom-left can differ, and then it is `c4`; `c2 == c5` gives a plain copy |
| Rules.MiddleRowFirst | src/doc/algorithm/rotsprite.rgba.cpp.h:297-320 | The left column is the centre; the top-right is centre or `c6`, the bottom-right centre or `c2`; `c6 == c5` gives a plain copy |
| Rules.MiddleRowInner | src/doc/algorithm/rotsprite.rgba.cpp.h:330-370 | Each sub-pixel is the centre or its orthogonal neighbour (`c8`, `c6`, `c4`, `c2`), never a diagonal |
| Rules.MiddleRowLast | src/doc/algorithm/rotsprite.rgba.cpp.h:381-403 | The right column is the centre; the top-left is centre or `c8`, the bottom-left centre or `c4` |
| Rules.LastRowFirst | src/doc/algorithm/rotsprite.rgba.cpp.h:426-439 | Only the top-right can differ, and then it is `c6`; `c6 == c5` gives a plain copy |
| Rules.LastRowInner | src/doc/algorithm/rotsprite.rgba.cpp.h:447-467 | The bottom row is the centre; the top-left is centre or `c8`, the top-right centre or `c6` |
| Rules.LastRowLastWrites | src/doc/algorithm/rotsprite.rgba.cpp.h:474-488 | Two pixels go to the upper row. The lower row gets two exactly when the guard holds, and one otherwise. When `c6 == c5` all four are the centre |
| Rules.RuleFor | src/doc/algorithm/rotsprite.rgba.cpp.h:204-488 | No ensures: the choice among the nine row x column sections. `Reference.AgreeingWindowGivesBlock` and the scan's step methods show that each section runs its rule |
| Rules.LastRowFirstIgnoresC7 | src/doc/algorithm/rotsprite.rgba.cpp.h:426-437 | Whatever `c7` holds, the last-row first-column block is the same |
| Rules.FlatKeepsCentre | src/doc/algorithm/rotsprite.rgba.cpp.h:204-488 | On a window whose slots all equal the centre, every rule copies the centre |
| Reference.Clamp | src/doc/algorithm/rotsprite.rgba.cpp.h:190-202 | The result is an index inside the image. An index already inside is kept; one before the start becomes the first index, and one past the end the last. `Reference.ClampNearest` proves the result is the nearest index |
| Reference.ClampNearest | src/doc/algorithm/rotsprite.rgba.cpp.h:190-202 | Border replication reads the nearest row or column: no index inside the image is closer to the requested one than the clamped index |
| Reference.WindowAt | src/doc/algorithm/rotsprite.rgba.cpp.h:175-177 | The centre slot of a pixel's window is the pixel |
| Reference.BlockAt | src/doc/algorithm/rotsprite.rgba.cpp.h:204-488 | No ensures: the block of a pixel, computed by the rule of its section on its replicated window. `Reference.SubPixelSources`, `Reference.OuterRingCopies` and `Scan.Scale2x` state what it is |
| Reference.AgreeingWindowGivesBlock | src/doc/algorithm/rotsprite.rgba.cpp.h:182-184 | Slots a case never reads, left over from earlier pixels or rows, do not change its block |
| Reference.ShiftAgrees | src/doc/algorithm/rotsprite.rgba.cpp.h:322-329 | Shifting the window one column right and reading the new right column keeps it in step with the image's neighbourhood of the next pixel |
| Reference.TopPrefixAt | src/doc/algorithm/rotsprite.rgba.cpp.h:186-188 | Columns `2x` and `2x+1` of an upper destination row hold the top of block x |
| Reference.BottomPrefixAt | src/doc/algorithm/rotsprite.rgba.cpp.h:186-188 | Columns `2x` and `2x+1` of a lower destination row hold the bottom of block x |
| Reference.RowsAt | src/doc/algorithm/rotsprite.rgba.cpp.h:274-276 | Destination rows `2y` and `2y+1` are the two halves of source row y |
| Reference.RowsStep | src/doc/algorithm/rotsprite.rgba.cpp.h:405 | One more source row appends exactly its two destination rows, as `dstIt = dst1` starts the next section |
| Reference.ScaledIsImage | src/doc/algorithm/rotsprite.rgba.cpp.h:168 | The destination is `2w` by `2h` |
| Reference.ScaledBlock | src/doc/algorithm/rotsprite.rgba.cpp.h:168-188 | The block of pixel (x, y) sits at destination (2x..2x+1, 2y..2y+1) |
| Reference.SubPixelSources | src/doc/algorithm/rotsprite.rgba.cpp.h:204-488 | Top-left is the pixel or the one above; top-right the pixel or the one to the right; bottom-left the pixel or the one to the left; bottom-right the pixel or the one below |
| Reference.OuterRingCopies | src/doc/algorithm/rotsprite.rgba.cpp.h:204-488 | The first and last destination rows and columns copy the nearest source pixel |
| Reference.SingleRowDoubles | src/doc/algorithm/rotsprite.rgba.cpp.h:190 | A one-row image is plain 2x2 pixel doubling |
| Reference.EqualImageDoubles | src/doc/algorithm/rotsprite.rgba.cpp.h:204-488 | When all pixels are equal under `==`, every pixel becomes a block of its own colour |
| Scan.InitialWindow | src/doc/algorithm/rotsprite.rgba.cpp.h:182-184 | All nine window variables start as one colour whose 32-bit view is 0xff000000, so the window is flat |
| Scan.FirstRowFirstStep | src/doc/algorithm/rotsprite.rgba.cpp.h:204-218 | The first block of the first row, written through both cursors, extends them by the reference block |
| Scan.FirstRowInnerStep | src/doc/algorithm/rotsprite.rgba.cpp.h:226-247 | An inner block of the first row extends both cursors by the reference block |
| Scan.FirstRowLastStep | src/doc/algorithm/rotsprite.rgba.cpp.h:255-268 | The last block of the first row extends both cursors by the reference block |
| Scan.MiddleRowFirstStep | src/doc/algorithm/rotsprite.rgba.cpp.h:297-320 | The first block of a middle row extends both cursors by the reference block |
| Scan.MiddleRowInnerStep | src/doc/algorithm/rotsprite.rgba.cpp.h:330-370 | An inner block of a middle row extends both cursors by the reference block |
| Scan.MiddleRowLastStep | src/doc/algorithm/rotsprite.rgba.cpp.h:381-403 | The last block of a middle row extends both cursors by the reference block |
| Scan.LastRowFirstStep | src/doc/algorithm/rotsprite.rgba.cpp.h:426-439 | The first block of the last row, despite the stale `c7`, extends both cursors by the reference block |
| Scan.LastRowInnerStep | src/doc/algorithm/rotsprite.rgba.cpp.h:447-467 | An inner block of the last row extends both cursors by the reference block |
| Scan.FirstRowPass | src/doc/algorithm/rotsprite.rgba.cpp.h:186-272 | The first row writes `2w` pixels through each cursor, and they are destination rows 0 and 1 |
| Scan.FirstRowInnerRun | src/doc/algorithm/rotsprite.rgba.cpp.h:220-248 | The inner-column loop of the first row keeps the window on the current pixel and the cursors equal to the reference prefixes |
| Scan.MiddleRowPass | src/doc/algorithm/rotsprite.rgba.cpp.h:274-405 | Middle row y writes `2w` pixels through each cursor, and they are destination rows `2y` and `2y+1` |
| Scan.MiddleRowInnerRun | src/doc/algorithm/rotsprite.rgba.cpp.h:322-371 | The inner-column loop of a middle row keeps the window and cursors in step with the reference |
| Scan.MiddleRows | src/doc/algorithm/rotsprite.rgba.cpp.h:274-406 | After the middle-row loop the destination holds rows `0 .. 2h-3` |
| Scan.LastRowBody | src/doc/algorithm/rotsprite.rgba.cpp.h:408-468 | Before its final block the last row has written the reference prefixes, and the window holds the last column |
| Scan.LastRowInnerRun | src/doc/algorithm/rotsprite.rgba.cpp.h:441-468 | The inner-column loop of the last row keeps the window and cursors in step with the reference |
| Scan.LastRowFinal | src/doc/algorithm/rotsprite.rgba.cpp.h:470-488 | After the last shift the final block is the right-most pixel, twice through each cursor, whatever the window held |
| Scan.LastRowPassAsWritten | src/doc/algorithm/rotsprite.rgba.cpp.h:408-489 | As written: with `w > 1` the last row is correct; with `w == 1` each cursor gets 4 pixels instead of 2, and the extra two repeat the pixel |
| Scan.LastRowPass | src/doc/algorithm/rotsprite.rgba.cpp.h:408-489 | With the final block guarded by `w > 1`, the last row writes exactly `2w` pixels per cursor, the reference rows `2h-2` and `2h-1` |
| Scan.Scale2x | src/doc/algorithm/rotsprite.rgba.cpp.h:167-490 | An empty image writes nothing; otherwise the scan writes exactly the reference magnification, row by row |

## Left out

- The library accessors `LockImageBits`, `ImageIterator`, `get_pixel_fast`, `gfx::Rect` and `SrcIter` (lines 5-27, 132-136, 168-169) are not modelled. The source is a sequence of rows, and each cursor is the sequence of pixels written through it.
- The byte-pointer constructor, `operator<<(const uint8_t*&)`, `copy`, `applyTo` and the union views `rg` and `x[]` (lines 40, 42, 52-61, 77-88, 95-103, 121-129) are not modelled. The scan does not use them.
- The image is given as colours. The 32-bit words that `get_pixel_fast` returns (line 179, through the int constructor at lines 48-50) correspond one-to-one to colours through `Pack`/`Unpack` (`Colors.UnpackPack`, `Colors.PackUnpack`). The copy constructor and assignments (lines 63-75) are value semantics on `Color`.
- The `IMG_BITCOUNT == 24` branch (lines 29-36) is not modelled, because the build fixes 32 bits per pixel.
- `REVERSE_IMG`, `nextLine` and `prevLine` (lines 138-158) are not modelled. `REVERSE_IMG` is 0, and `nextLine` only means the next destination row.
- Union aliasing and byte order are not modelled. Colours are four channels, and the 32-bit view assumes little-endian packing.
- Where the surplus pixels of the one-column overrun land in memory is not modelled. The model counts them instead (see Findings).
- `c0` and `cT` are parameters of the row sections, required equal to pixel (0, 0); `Scale2x` sets them that way, as lines 179-180 do.
- Scan.Scale2x: with the final block guarded by `w > 1` (see Findings), the model proves the corrected scan. The as-written last-row section is `Scan.LastRowPassAsWritten`.

## Findings

| source | as written | input that shows it | evidently intended | confidence | as-written member | corrected member |
|---|---|---|---|---|---|---|
| src/doc/algorithm/rotsprite.rgba.cpp.h:470-488 | The final block of the last row runs without the `src_w > 1` guard that lines 250 and 373 give the first and middle rows. | A 1x2 image (`src_w == 1`, `src_h == 2`): the last row writes 4 pixels through each cursor into destination rows 2 pixels wide. The upper cursor's two surplus pixels land on destination row `2h-1` and overwrite the `[s, s]` that line 439 wrote there with the same colour, so the image inside the rectangle is unchanged. The lower cursor's two surplus writes (lines 476 and 488) fall 2 pixels past the rectangle locked at line 168. | The final block only when `src_w > 1`, so each cursor gets exactly `2 * src_w` pixels | not executed | Scan.LastRowPassAsWritten | Scan.LastRowPass |
