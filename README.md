# Screensavers for a 128x64 monochrome OLED, in Dafny

This project models the three screensavers of a MicroPython handheld:
matrix rain, a bouncing sprite over twinkling stars, and a scrolling
marquee with a sine wave. Each one comes in two forms:

- a **blocking** form, `run_screensaver`, which loops until an exit pin
  changes;
- a **non-blocking** form, `init_state` / `draw_step`, which draws one
  frame per call and returns the new state tuple.

Both forms draw through an SSD1306-like display object. In the model that
object is `Display.Surface`. Its methods (`Fill`, `Pixel`, `Line`, `Text`,
`Blit`, `Show`) append a `DrawCmd` to a log. So every frame is specified as
the exact list of drawing calls it makes, in order.

Modules:

- `Common`: `_clamp`, the frame interval `1000 // _clamp(fps, lo, hi)`,
  ASCII `strip()`, and the centred label position.
- `Display`: the drawing commands, the surface, and the shape every frame
  has. That shape is `WellFramed`: it clears first, shows last, and only
  paints in between.
- `Xorshift`: the 32-bit xorshift round `(13, 17, 5)` shared by
  `_RNG.rand` and `_rng32`, and `Draws(s, n)`, which is `n` rounds.
- `Rain`: the per-column rain step shared by both matrix files. It covers
  the head, the random trail, the fall, and recycling a column.
- `Matrix`, `MatrixNb`: the blocking screensaver object and the
  array-based `draw_step`.
- `Bounce`, `BounceNb`: the sprite physics, the star fields, the twinkle
  patterns, and the frames.
- `Marquee`, `MarqueeNb`: the sine tables, the outlined text, the two
  wrap-around copies, and the scroll/phase update.

The state that the source updates in place is modelled imperatively:

- the matrix `_RNG` object and the screensaver's `heads` list become the
  classes `Matrix.Rng` and `Matrix.MatrixScreensaver`, and `heads` is an
  `array<Column>`;
- the non-blocking matrix `cols` list is an array that `MatrixNb.DrawStep`
  updates in place;
- the blocking bounce and marquee loops become `BounceScreensaver` and
  `MarqueeScreensaver` objects with one `Frame` method per loop iteration.

Every loop is a `method` proved against a pure function of its inputs. The
properties are lemmas about those functions. For example, the rain never
paints outside its lane or into the text band, and the generator never
leaves or reaches zero. The sprite stays strictly inside its box forever.
The marquee's x stays in its scroll window and the phase counts frames
modulo 64.

Python's `& 63` and `& 1` on integers are Dafny's Euclidean `% 64` and
`% 2`. Python's `//` with a positive divisor is Dafny's `/`. A `None`
username or message is modelled as the empty string.

## Model

| member | source | states |
|---|---|---|
| Common.Clamp | software/lib/screensaver_matrix.py:23-24 | the result lies in `[lo, hi]` when `lo <= hi`; a value already in range is returned unchanged; the result is always `v`, `lo` or `hi` |
| Common.Strip | software/lib/screensaver_matrix.py:51 | the result is a slice `s[i..j]` with only whitespace before `i` and after `j`; it is empty or starts and ends with a non-space; it is empty exactly when the input is all whitespace |
| Common.StripKeepsTrimmed | software/lib/screensaver_matrix.py:51 | a string with no leading or trailing space is left unchanged by strip |
| Common.StripIdempotent | software/lib/screensaver_marquee.py:49 | stripping twice is stripping once |
| Common.LabelX | software/lib/screensaver_matrix.py:52-53 | the label x is never negative; a name that fits is centred (equal margins left and right); a name wider than the screen starts at 0 |
| Common.FrameInterval | software/lib/screensaver_matrix.py:57 | `1000 // _clamp(fps, lo, hi)` lies between `1000 // hi` and `1000 // lo` |
| Common.FrameIntervalAntitone | software/lib/screensaver_bounce.py:82 | a higher requested fps never gives a longer frame interval |
| Xorshift.Value | software/lib/screensaver_matrix_nb.py:10 | a generator word read as an integer is below 2^32 |
| Xorshift.ZeroIsFixed | software/lib/screensaver_matrix_nb.py:5-10 | zero is a fixed point of the xorshift round |
| Xorshift.Rng32NonZero | software/lib/screensaver_matrix_nb.py:5-10 | a non-zero word never maps to zero |
| Xorshift.DrawsAdd | software/lib/screensaver_matrix_nb.py:23-27 | `a` draws followed by `b` draws are `a + b` draws |
| Xorshift.DrawsShift | software/lib/screensaver_matrix.py:12-19 | one draw followed by `n` draws is `n + 1` draws |
| Xorshift.Rng32 | software/lib/screensaver_matrix_nb.py:5-10 | one xorshift round `(13, 17, 5)` on a 32-bit word, the step of both `_rng32` and `_RNG.rand`; `ZeroIsFixed` and `Rng32NonZero` state that it maps zero, and only zero, to zero |
| Xorshift.Draws | software/lib/screensaver_matrix_nb.py:23-27 | `n` successive rounds; `DrawsAdd` and `DrawsShift` state how draws compose |
| Xorshift.DrawsNonZero | software/lib/screensaver_matrix.py:8-19 | a non-zero generator word stays non-zero forever; by `SeedWordZero`, `_RNG` starts from a non-zero word unless its seed is a non-zero multiple of 2^32 |
| Xorshift.DrawsFromZero | software/lib/screensaver_matrix_nb.py:5-10 | a zero word stays zero however many draws are taken |
| Rain.Pick | software/lib/screensaver_matrix.py:20-21 | `rint(n)` lies in `[0, n)` |
| Rain.Spawned | software/lib/screensaver_matrix.py:43-48 | a new column has length 6..23, speed 1..3, gap 6..23 and a start in `(-H, 0]` |
| Rain.SpawnedAfter | software/lib/screensaver_matrix_nb.py:23-28 | column `i` is drawn from the word after the `4i` draws of the earlier columns |
| Rain.InitialColumns | software/lib/screensaver_matrix.py:42-48 | one column per lane, each in range and starting above or at the top |
| Rain.Respawn | software/lib/screensaver_matrix.py:120-124 | a recycled column is in range, its head is between `-(H // 2) - 7` and `-8`, and recycling takes exactly 4 draws |
| Rain.HeadCmds | software/lib/screensaver_matrix.py:91-98 | the head is drawn exactly when `head_y + 2 >= 0` and `head_y < bottom_y - 1`; it is a line in lane column `x + 1` clipped to `[0, bottom_y - 2]`, then a pixel at `x + 2` on the last row of that line |
| Rain.TrailEnd | software/lib/screensaver_matrix.py:102 | the trail ends at the smaller of `bottom_y - 2` and `head_y + length` |
| Rain.TrailDraws | software/lib/screensaver_matrix.py:103-114 | the trail takes exactly one draw per row from `head_y + 3` to the trail end |
| Rain.TrailPixels | software/lib/screensaver_matrix.py:100-114 | every trail command is a lit pixel in lane columns `x + 1 .. x + 2`, between the first trail row and the trail end (the link pixel included) |
| Rain.RowPixels | software/lib/screensaver_matrix.py:106-113 | one trail row lights only pixels of its lane, on its row or the next row inside the trail |
| Rain.LinkBit | software/lib/screensaver_matrix.py:113 | the link pixel's offset `(r >> 7) & 1` is bit 7 of the draw |
| Rain.Advance | software/lib/screensaver_matrix.py:116-128 | a column keeps its statistics and falls by its speed, or it is recycled with a head above the screen; ranges are kept; it takes 4 draws exactly when it recycles |
| Rain.HeadInLane | software/lib/screensaver_matrix.py:91-98 | the head paints only lane columns `x + 1 .. x + 2`, above the text band |
| Rain.StepColumnDraws | software/lib/screensaver_matrix.py:100-124 | the trail and the recycle together take `DrawsPerColumn` draws |
| Rain.StepColumn | software/lib/screensaver_matrix.py:85-128 | one column step moves the column to a successor, takes `DrawsPerColumn` draws and paints only its own lane above the band |
| Rain.Sweep | software/lib/screensaver_matrix.py:85-128 | sweeping `n` lanes yields `n` new columns |
| Rain.SweepAdvancesLane | software/lib/screensaver_matrix.py:116-128 | after a sweep, lane `j` holds a successor of its old column |
| Rain.SweepAdvances | software/lib/screensaver_matrix.py:116-128 | after a sweep, every lane holds a successor of its old column |
| Rain.SweepInLanes | software/lib/screensaver_matrix.py:85-114 | the rain of `n` lanes paints only x from 1 to `4n - 2`, never at or below `bottom_y - 1` |
| Rain.SweepPaints | software/lib/screensaver_matrix.py:85-114 | the rain neither clears nor shows the display |
| Rain.SweepDraws | software/lib/screensaver_matrix.py:85-128 | a sweep takes exactly the sum of the per-column draw counts |
| Rain.RowCmds | software/lib/screensaver_matrix.py:106-113 | one trail row's pixels from its draw; `RowPixels` keeps them in the lane and `LinkBit` names the bit tested |
| Rain.Trail | software/lib/screensaver_matrix.py:100-114 | the trail rows top to bottom, one draw per row; `TrailDraws` counts the draws and `TrailPixels` keeps the pixels in the lane above the band |
| Rain.DrawHead | software/lib/screensaver_matrix.py:91-98 | the head drawing calls are exactly `HeadCmds` |
| Rain.DrawRow | software/lib/screensaver_matrix.py:106-113 | one trail row's drawing calls are exactly `RowCmds` |
| Matrix.SeedWord | software/lib/screensaver_matrix.py:8-11 | the seed with 0 replaced by 1, then masked to 32 bits; `Rng.constructor` stores it |
| Matrix.SeedWordZero | software/lib/screensaver_matrix.py:8-11 | the first word is 0 exactly when the seed is a non-zero multiple of 2^32 |
| Matrix.FrameCmds | software/lib/screensaver_matrix.py:81-139 | clear, the 32-lane sweep, the label, show; `FrameShape` proves it well framed with the rain off the label band |
| Matrix.Rng.constructor | software/lib/screensaver_matrix.py:8-11 | the state is the seed masked to 32 bits, with 0 replaced by 1 |
| Matrix.Rng.Rand | software/lib/screensaver_matrix.py:12-19 | the new state is one xorshift round of the old state and is the value returned |
| Matrix.Rng.Rint | software/lib/screensaver_matrix.py:20-21 | one round is taken and the result, in `[0, n)`, is the new state modulo `n` |
| Matrix.FrameTime | software/lib/screensaver_matrix.py:57 | the frame interval lies between 16 and 100 ms |
| Matrix.LabelCmds | software/lib/screensaver_matrix.py:130-137 | no label for an empty name; otherwise the name at `(tx, 56)`, followed by the 7-pixel cursor line at `tx + 8 * len + 1` exactly when the blink is on and that column is left of `W - 1` |
| Matrix.CursorBlinks | software/lib/screensaver_matrix.py:133 | the cursor state flips every 700 ms |
| Matrix.LabelPaints | software/lib/screensaver_matrix.py:130-137 | the label only paints |
| Matrix.FrameShape | software/lib/screensaver_matrix.py:81-139 | a frame is well framed, and its rain stays in lanes 1..126 above the username band |
| Matrix.MatrixScreensaver.constructor | software/lib/screensaver_matrix.py:33-57 | 32 columns spawned from the seed word, the generator advanced by 128 draws, the stripped name at its centred x, and the clamped frame interval |
| Matrix.MatrixScreensaver.SpawnAll | software/lib/screensaver_matrix.py:42-48 | the column array is `InitialColumns` of the generator state, which advances by 4 draws per column |
| Matrix.MatrixScreensaver.NewColumn | software/lib/screensaver_matrix.py:44-47 | one column is spawned with 4 draws |
| Matrix.MatrixScreensaver.Frame | software/lib/screensaver_matrix.py:81-139 | the frame's calls are exactly `FrameCmds` of the old columns and generator; the columns and generator become the sweep's result |
| Matrix.MatrixScreensaver.DrawColumns | software/lib/screensaver_matrix.py:85-128 | the column loop draws the sweep's commands and stores its columns and generator state |
| Matrix.MatrixScreensaver.DrawLane | software/lib/screensaver_matrix.py:86-128 | one iteration extends the sweep by lane `i` |
| Matrix.MatrixScreensaver.DrawLabel | software/lib/screensaver_matrix.py:130-137 | the label calls are exactly `LabelCmds` |
| Matrix.MatrixScreensaver.DrawColumn | software/lib/screensaver_matrix.py:86-128 | one column's calls, new column and generator state are `StepColumn`'s |
| Matrix.MatrixScreensaver.Recycle | software/lib/screensaver_matrix.py:120-124 | recycling gives `Respawn` of the generator state |
| Matrix.MatrixScreensaver.DrawTrail | software/lib/screensaver_matrix.py:100-114 | the trail loop's calls and generator state are `Trail`'s |
| MatrixNb.StartWord | software/lib/screensaver_matrix_nb.py:22 | the first word `(seed ^ 0x5EED)` masked to 32 bits; `StuckSeed` shows the seed that gives 0 |
| MatrixNb.FrameCmds | software/lib/screensaver_matrix_nb.py:38-80 | clear, the sweep of all lanes, show; `FrameShape` proves it well framed with the rain in its lanes |
| MatrixNb.Lanes | software/lib/screensaver_matrix_nb.py:19-20 | the lane count is `width // 4` (0 for a non-positive width) |
| MatrixNb.InitState | software/lib/screensaver_matrix_nb.py:12-29 | the columns are `InitialColumns` of `(seed ^ 0x5EED)`, and the returned word is that word after 4 draws per lane |
| MatrixNb.Spawn | software/lib/screensaver_matrix_nb.py:24-28 | one column of `init_state` is `Spawned` from the word, and it takes 4 draws |
| MatrixNb.DrawStep | software/lib/screensaver_matrix_nb.py:31-81 | the calls are exactly `FrameCmds`; the column array and the returned word are the sweep's result, with `bottom_y = height - bottom_guard` |
| MatrixNb.DrawLanes | software/lib/screensaver_matrix_nb.py:40-78 | the lane loop draws the sweep's commands and updates the array in place |
| MatrixNb.StepLane | software/lib/screensaver_matrix_nb.py:40-78 | one iteration extends the sweep by lane `i` |
| MatrixNb.StepColumnAt | software/lib/screensaver_matrix_nb.py:41-78 | one column's calls, new column and word are `StepColumn`'s |
| MatrixNb.AdvanceColumn | software/lib/screensaver_matrix_nb.py:66-78 | the fall-and-recycle of one column is `Advance` |
| MatrixNb.Recycle | software/lib/screensaver_matrix_nb.py:68-73 | recycling is `Respawn` |
| MatrixNb.DrawTrail | software/lib/screensaver_matrix_nb.py:53-64 | the trail loop's calls and word are `Trail`'s |
| MatrixNb.FrameShape | software/lib/screensaver_matrix_nb.py:38-80 | a frame is well framed; the rain paints x from 1 to `4n - 2` above `bottom_y - 1` |
| MatrixNb.Run | software/lib/screensaver_matrix_nb.py:31-81 | any number of calls keeps the number of columns |
| MatrixNb.StepKeepsRanges | software/lib/screensaver_matrix_nb.py:66-78 | after one call every column is in range; a column that does not recycle has moved down; a recycled one restarts between `-(height // 2) - 7` and `-8` |
| MatrixNb.RunKeepsRanges | software/lib/screensaver_matrix_nb.py:31-81 | over any number of calls the columns stay in range |
| MatrixNb.StuckSeed | software/lib/screensaver_matrix_nb.py:22-28 | the seed `0x5EED` gives the word 0, and then every column is `[0, 6, 1, 6]` |
| MatrixNb.ZeroWordStays | software/lib/screensaver_matrix_nb.py:53-73 | from word 0 a call returns word 0 |
| Bounce.Mix16 | software/lib/screensaver_bounce.py:47-49 | one round of the 16-bit mixer `(7, 9, 8)`; `StarAt` reduces its output into the field |
| Bounce.Mixes | software/lib/screensaver_bounce.py:44-52 | `n` mixer rounds; `TwinklePoints` takes star `i` from round `i + 1` |
| Bounce.TwinkleCmds | software/lib/screensaver_bounce.py:58-61 | the pixels lit in a phase, in star order; `TwinkleAlternates`, `TwinkleCount` and `TwinkleCovers` state which stars and how many |
| Bounce.StarAt | software/lib/screensaver_bounce.py:44-52 | every star lies on the `w` x `h` field |
| Bounce.TwinklePoints | software/lib/screensaver_bounce.py:41-53 | `count` stars, star `i` taken from the `i + 1`-th LFSR state |
| Bounce.TwinklePhase | software/lib/screensaver_bounce.py:57 | the phase is 0 or 1 |
| Bounce.TwinkleToggles | software/lib/screensaver_bounce.py:57 | the phase flips every 250 ms |
| Bounce.TwinkleAlternates | software/lib/screensaver_bounce.py:58-61 | phase `p` lights exactly the stars with index of parity `p`, in order |
| Bounce.TwinkleCount | software/lib/screensaver_bounce.py:58-61 | phase `p` lights `(n + 1 - p) // 2` of `n` stars |
| Bounce.TwinkleCovers | software/lib/screensaver_bounce.py:58-61 | the two phases together light every star once |
| Bounce.TwinklePaints | software/lib/screensaver_bounce.py:58-61 | twinkles are lit pixels only |
| Bounce.DrawStars | software/lib/screensaver_bounce.py:58-61 | the star loop's calls are exactly `TwinkleCmds` |
| Bounce.DrawTwinkles | software/lib/screensaver_bounce.py:55-61 | the calls are the twinkles of the phase of `t` |
| Bounce.Reflect | software/lib/screensaver_bounce.py:112-121 | the sprite moves by `v` when the step reaches no wall; otherwise the velocity flips and the position is unchanged; a position strictly between the walls stays strictly between them |
| Bounce.Move | software/lib/screensaver_bounce.py:111-121 | `Reflect` on each axis; `MovesInBox` proves it keeps the sprite in its box |
| Bounce.Moves | software/lib/screensaver_bounce.py:111-121 | the motion after `k` frames; `MovesInBox` and `BounceForever` bound it |
| Bounce.MovesInBox | software/lib/screensaver_bounce.py:111-121 | a diagonal unit motion strictly inside the box stays inside it for any number of frames |
| Bounce.BounceForever | software/lib/screensaver_bounce.py:111-121 | from `(8, 8)` the sprite stays within x 1..103 and y 1..29, so it never overlaps the name row |
| Bounce.NameCmds | software/lib/screensaver_bounce.py:129-131 | no name for an empty name; otherwise the erasing shadow at `(tx + 1, 57)`, then the name at `(tx, 56)` |
| Bounce.FrameCmds | software/lib/screensaver_bounce.py:123-132 | clear, twinkles, sprite, name, show; `FrameShape` proves it well framed |
| Bounce.FrameShape | software/lib/screensaver_bounce.py:123-132 | a frame is well framed, and the sprite blit comes right after the twinkles |
| Bounce.BounceScreensaver.constructor | software/lib/screensaver_bounce.py:73-87 | start at `(8, 8)` with velocity `(1, 1)`; 18 stars on the 128x56 field; the stripped, centred name; the frame interval clamped to 8..60 fps |
| Bounce.BounceScreensaver.Frame | software/lib/screensaver_bounce.py:111-132 | the motion becomes `Move` of the old motion, and the frame's calls are `FrameCmds` of the new motion |
| Bounce.BounceScreensaver.Physics | software/lib/screensaver_bounce.py:111-121 | the motion becomes `Move` of the old motion, within `W - 24` and `max_y = 30` |
| Bounce.BounceScreensaver.DrawScene | software/lib/screensaver_bounce.py:123-132 | the drawing calls are exactly `FrameCmds` |
| BounceNb.Star | software/lib/screensaver_bounce_nb.py:54-59 | a star lies on the field above the bottom 8 rows |
| BounceNb.StarField | software/lib/screensaver_bounce_nb.py:53-59 | `stars_count` stars, all above the bottom 8 rows |
| BounceNb.Initial | software/lib/screensaver_bounce_nb.py:37-61 | the sprite at `(8, 8)` moving `(1, 1)`, the star field and the word after two draws per star; `InitialInBox` and `ZeroSeedFrozen` are about it |
| BounceNb.InitState | software/lib/screensaver_bounce_nb.py:37-61 | the state is `Initial`: `(8, 8)` moving `(1, 1)`, the star field, and the word after two draws per star |
| BounceNb.Step | software/lib/screensaver_bounce_nb.py:63-83 | the motion becomes `Move` within `width - 16` and `max_y`; stars and sprite are kept; the word takes one draw |
| BounceNb.Phase | software/lib/screensaver_bounce_nb.py:84 | the phase is 0 or 1, and it is 1 exactly when bit 3 of the word is set |
| BounceNb.PhaseBit | software/lib/screensaver_bounce_nb.py:84 | `(s >> 3) & 1` is `Phase(s)` |
| BounceNb.FrameCmds | software/lib/screensaver_bounce_nb.py:79-92 | clear, the stars lit in the word's phase, the sprite, show; `FrameShape` proves it well framed |
| BounceNb.Run | software/lib/screensaver_bounce_nb.py:63-93 | the state after `k` calls; `RunKeepsBox` and `RunWord` state what it keeps |
| BounceNb.DrawStep | software/lib/screensaver_bounce_nb.py:63-93 | the returned state is `Step`, and the calls are exactly `FrameCmds` of it |
| BounceNb.RunKeepsBox | software/lib/screensaver_bounce_nb.py:63-93 | over `k` calls the stars and sprite are kept, the word takes `k` draws, and a motion inside the box stays there |
| BounceNb.InitialInBox | software/lib/screensaver_bounce_nb.py:49-50 | on a large enough screen the sprite stays in x 1..`width - 17`, and vx stays ±1 |
| BounceNb.ZeroSeedFrozen | software/lib/screensaver_bounce_nb.py:43-59 | seed 0 puts every star at `(0, 0)` and fixes the phase at 0 forever |
| BounceNb.PhaseOfZero | software/lib/screensaver_bounce_nb.py:83-84 | word 0 gives phase 0 |
| BounceNb.RunWord | software/lib/screensaver_bounce_nb.py:83 | after `k` calls the word has taken `k` draws |
| BounceNb.FrameShape | software/lib/screensaver_bounce_nb.py:79-92 | a frame is well framed |
| Marquee.SinTable | software/lib/screensaver_marquee.py:9-19 | the table has 64 entries, all in -5..5 |
| Marquee.Wave | software/lib/screensaver_marquee.py:21-22 | the offset is bounded by any bound of the table |
| Marquee.WavePeriodic | software/lib/screensaver_marquee.py:21-22 | the wave depends only on `(i + phase) mod 64` |
| Marquee.OutlineCmds | software/lib/screensaver_marquee.py:24-33 | the halo in colour 0, then the text in colour 1; `OutlineOrder` lists the nine calls and `OutlineNear` bounds them |
| Marquee.OutlineOrder | software/lib/screensaver_marquee.py:24-33 | the outline is the 8 erasing neighbours, in `dx`-major order, followed by the text |
| Marquee.ColumnCells | software/lib/screensaver_marquee.py:28-31 | one `dx` column of the halo, skipping the centre |
| Marquee.OutlineNear | software/lib/screensaver_marquee.py:24-33 | 9 text calls of the same text, all within one pixel of `(x, y)`; the first 8 erase, the last is the foreground at `(x, y)` |
| Marquee.DrawOutlinedText | software/lib/screensaver_marquee.py:24-33 | the calls are exactly the outline |
| Marquee.SelectMessage | software/lib/screensaver_marquee.py:49 | a non-empty message is used stripped; otherwise the stripped username; otherwise "HELLO" |
| Marquee.ScrollText | software/lib/screensaver_marquee.py:49-52 | the selected message followed by the 4-space gap |
| Marquee.CharCmds | software/lib/screensaver_marquee.py:105-109 | one character outlined at its wave offset when visible; `CharBetweenBars` keeps it between the bars |
| Marquee.CopyCmds | software/lib/screensaver_marquee.py:104-109 | the characters of one copy in order; `CopyBetweenBars` keeps them between the bars |
| Marquee.CopyBetweenBars | software/lib/screensaver_marquee.py:93-109 | every character of a copy is a one-letter text call near the baseline, strictly between the two bars |
| Marquee.CharBetweenBars | software/lib/screensaver_marquee.py:104-109 | the same for one character |
| Marquee.CopyIfPaints | software/lib/screensaver_marquee.py:98-109 | a copy draws text strictly between the bars |
| Marquee.FrameCmds | software/lib/screensaver_marquee.py:90-123 | clear, bars, the two copies, show; `FrameShape` proves it well framed |
| Marquee.FrameShape | software/lib/screensaver_marquee.py:90-123 | a frame is well framed |
| Marquee.BodyPaints | software/lib/screensaver_marquee.py:92-109 | the bars and copies only paint |
| Marquee.Scroll | software/lib/screensaver_marquee.py:111-121 | x moves left one pixel and, while running, wraps by `text_px` exactly when it reaches `-text_px`; without looping, a wrap stops the screensaver with the phase unchanged; otherwise the phase advances exactly on even x |
| Marquee.ScrollWindow | software/lib/screensaver_marquee.py:111-117 | while running, x stays in `(-text_px, W]`, and a wrap lands on 0 |
| Marquee.ScrollCountdown | software/lib/screensaver_marquee.py:111-117 | from 0, x counts down one pixel per frame |
| Marquee.ScrollPeriod | software/lib/screensaver_marquee.py:111-117 | in endless mode x returns to 0 after exactly `text_px` frames |
| Marquee.MarqueeScreensaver.constructor | software/lib/screensaver_marquee.py:45-62 | the scroll text, its pixel width `8 * len`, x = 128, phase 0, and the clamped frame interval |
| Marquee.MarqueeScreensaver.Frame | software/lib/screensaver_marquee.py:90-123 | the calls are exactly `FrameCmds` of the old x and phase; x, phase and whether to go on are `Scroll`'s |
| Marquee.MarqueeScreensaver.Advance | software/lib/screensaver_marquee.py:111-121 | x, phase and whether to go on are `Scroll`'s |
| Marquee.DrawScene | software/lib/screensaver_marquee.py:90-109 | the calls are the frame without its final show |
| Marquee.DrawCopies | software/lib/screensaver_marquee.py:98-109 | the two copies' calls, in order |
| Marquee.DrawCopyIf | software/lib/screensaver_marquee.py:99-109 | copy `k` is drawn exactly when visible |
| Marquee.DrawCopy | software/lib/screensaver_marquee.py:104-109 | a copy's calls, character by character |
| Marquee.DrawChar | software/lib/screensaver_marquee.py:105-109 | a character is outlined at its wave offset exactly when visible |
| MarqueeNb.SinTable | software/lib/screensaver_marquee_nb.py:8-12 | the table has 64 entries, all in -3..3 |
| MarqueeNb.Spaces | software/lib/screensaver_marquee_nb.py:16 | `" " * n` is `max(0, n)` spaces |
| MarqueeNb.InitState | software/lib/screensaver_marquee_nb.py:14-28 | the scroll text is the stripped message, or "HELLO" when the message is empty, followed by the gap; the pixel width is `8 * len`; x = width, phase 0, baseline `height // 2 - 4`, bars on with margin 10 |
| MarqueeNb.CharCmds | software/lib/screensaver_marquee_nb.py:46-54 | one character outlined at its wave offset when `-char_w <= cx < W`; `CharNearBaseline` bounds it |
| MarqueeNb.CopyCmds | software/lib/screensaver_marquee_nb.py:45-54 | the characters of one copy in order; `CopyNearBaseline` bounds them |
| MarqueeNb.CopyNearBaseline | software/lib/screensaver_marquee_nb.py:41-54 | every character is a one-letter text call within 4 rows of the baseline and within the screen's width plus the halo |
| MarqueeNb.CharNearBaseline | software/lib/screensaver_marquee_nb.py:46-54 | the same for one character |
| MarqueeNb.BodyPaints | software/lib/screensaver_marquee_nb.py:35-54 | the bars and copies only paint |
| MarqueeNb.FrameCmds | software/lib/screensaver_marquee_nb.py:34-62 | clear, bars, the two copies, show; `FrameShape` proves it well framed |
| MarqueeNb.FrameShape | software/lib/screensaver_marquee_nb.py:34-62 | a frame is well framed |
| MarqueeNb.Advance | software/lib/screensaver_marquee_nb.py:56-60 | only x and the phase change; x moves left by the speed and wraps by `text_px` exactly when it is at or past `-text_px`; the phase is `(phase + 1) mod 64` |
| MarqueeNb.AdvanceWindow | software/lib/screensaver_marquee_nb.py:56-60 | with speed between 1 and `text_px`, x stays in `(-text_px, width]` |
| MarqueeNb.RunWindow | software/lib/screensaver_marquee_nb.py:30-63 | over `k` calls only x and the phase change, the phase is the start plus `k` mod 64, and x stays in the window |
| MarqueeNb.Run | software/lib/screensaver_marquee_nb.py:30-63 | the state after `k` calls; `RunWindow` states what it keeps |
| MarqueeNb.InitialWindow | software/lib/screensaver_marquee_nb.py:22-24 | from a fresh state, x stays in the window forever and the phase is the call count mod 64 |
| MarqueeNb.DrawStep | software/lib/screensaver_marquee_nb.py:30-63 | the calls are exactly `FrameCmds` of the incoming state, and the result is `Advance` of it |
| MarqueeNb.DrawScene | software/lib/screensaver_marquee_nb.py:34-54 | the calls are the frame without its final show |
| MarqueeNb.DrawCopies | software/lib/screensaver_marquee_nb.py:41-54 | the two copies' calls, in order |
| MarqueeNb.DrawCopyIf | software/lib/screensaver_marquee_nb.py:43-54 | copy `k` is drawn exactly when visible |
| MarqueeNb.DrawCopy | software/lib/screensaver_marquee_nb.py:45-54 | a copy's calls, character by character |
| MarqueeNb.DrawChar | software/lib/screensaver_marquee_nb.py:46-54 | a character is outlined at its wave offset exactly when `-char_w <= cx < W` |

## Left out

- Exit pins, debouncing, `time.ticks_ms`, sleeps and the frame pacing
  loop are left out. They are I/O and clocks. The blocking screensavers
  are modelled as one `Frame` call per drawn frame, and the elapsed or
  current time that a frame uses is a parameter.
- The `try`/`except` around pin reads and `ticks_ms` is left out, and so
  are the default seeds taken from the clock. Seeds are parameters.
- Pixel contents of `framebuf`, the 8x8 font, the sprite bitmaps, `blit`
  and `show` are not modelled. A frame is modelled as its list of drawing
  calls.
- `strip()` removes the ASCII whitespace: the space, `\t` to `\r`, and
  `\x1c` to `\x1f`. It does not remove non-ASCII whitespace such as
  `\x85`, `\xa0` or U+2000 onwards, which Python's `str.strip()` also
  removes.
- MatrixNb.InitState: the seed is taken as a 32-bit word. Only its low 32
  bits matter after `& 0xFFFFFFFF`, but a seed of a wider integer is not
  modelled.
- BounceNb.InitState: the seed is taken as a 32-bit word, as above. It
  also requires a positive width and a height above 8 when there are
  stars. A zero size makes the source's `%` raise; negative sizes are
  not modelled.
- Bounce.TwinklePoints: the LFSR seed is a 16-bit word. It requires a
  positive field size when there are stars. A zero size makes `%` raise;
  negative sizes are not modelled.
- MatrixNb.InitState requires a positive height. A zero height makes
  `s % height` raise; negative heights are not modelled.
- MatrixNb.DrawStep requires a display at least 2 pixels tall. The source
  fails only when a column recycles with `height // 2 == 0`.
- BounceNb.DrawStep computes the physics and the new word before drawing.
  The draw order of the calls is the same as the source's.
- The non-blocking twinkle test `((i ^ phase) & 1) == 0` is modelled as
  `(i + phase) % 2 == 0`. These agree for a phase of 0 or 1.
- The marquee sine tables are passed to the drawing functions as a
  parameter. They are the same constants.
- Marquee.MarqueeScreensaver.Frame: when a non-looping marquee stops, the
  source shows the frame and returns before the phase update. The model
  shows the frame once, as its last call, and reports that it stopped.
- MarqueeNb.AdvanceWindow: the window is proved only for a speed between 1
  and `text_px` on a screen of non-negative width. A larger speed, or a
  negative or zero one, is modelled by `Advance` but can leave the window.
- MarqueeNb.RunWindow assumes a starting phase in 0..63, which every
  state built by `init_state` has.
- MarqueeNb: the `draw_bars` flag is modelled as a field, although
  `init_state` always sets it.
- Common.LabelX requires an even screen width. Every caller passes the
  fixed width 128.
