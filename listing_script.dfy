/** `main.py`, the script that lists products on the phone: the decisions it
    takes between taps. The taps, screenshots, OCR and image measures, the
    random draws and the shell are not modelled; what they yield enters as
    parameters (a random draw as a value in the range it is drawn from, a
    polling loop as the sequence of observations it made before its
    timeout, the device shell as a function from command to output). */
module ListingScript {
  import opened Values
  import opened Text

  // ---------------------------------------------------------------------
  // Region lookups

  /** `get_price_for_region(row_data, region)`; `None` for no region. */
  function PriceForRegion(row: Dict, region: Option<string>): Value
  {
    if region == Some("HK") then Get(row, "HKPrice", VStr(""))
    else if region == Some("MY") then Get(row, "MYPrice", VStr(""))
    else if region == Some("SG") then Get(row, "SGPrice", VStr(""))
    else Get(row, "HKPrice", VStr(""))
  }

  /** `get_title_for_region(row_data, region)` */
  function TitleForRegion(row: Dict, region: Option<string>): Value
  {
    if region == Some("HK") then Get(row, "ProductNameCn", VStr(""))
    else if region == Some("MY") || region == Some("SG") then Get(row, "ProductNameEn", VStr(""))
    else Get(row, "ProductNameEn", Get(row, "ProductNameCn", VStr("")))
  }

  /** Each market reads its own price column, and every other region
      (including none) reads Hong Kong's. Hong Kong gets the Chinese title,
      Malaysia and Singapore the English one, and every other region the
      English one when the row has it and the Chinese one otherwise. A
      missing column reads as the empty string. */
  lemma RegionLookupSpec(row: Dict, region: Option<string>)
    ensures region != Some("MY") && region != Some("SG") ==> PriceForRegion(row, region) == PriceForRegion(row, Some("HK"))
    ensures region == Some("MY") ==> PriceForRegion(row, region) == Get(row, "MYPrice", VStr(""))
    ensures region == Some("SG") ==> PriceForRegion(row, region) == Get(row, "SGPrice", VStr(""))
    ensures TitleForRegion(row, Some("MY")) == TitleForRegion(row, Some("SG"))
    ensures region != Some("HK") && "ProductNameEn" in row ==> TitleForRegion(row, region) == row["ProductNameEn"]
    ensures region != Some("HK") && region != Some("MY") && region != Some("SG") && "ProductNameEn" !in row ==>
      TitleForRegion(row, region) == TitleForRegion(row, Some("HK"))
  {
  }

  // ---------------------------------------------------------------------
  // Taps

  function Min(a: real, b: real): real
  {
    if a <= b then a else b
  }

  function Max(a: real, b: real): real
  {
    if a >= b then a else b
  }

  function Abs(a: real): real
  {
    if a >= 0.0 then a else -a
  }

  /** What `random.uniform(a, b)` may return: a value between the two
      bounds, in whichever order they come. */
  predicate Between(v: real, a: real, b: real)
  {
    Min(a, b) <= v <= Max(a, b)
  }

  /** `int(r)` on a float: truncation toward zero. */
  function Trunc(r: real): int
  {
    if r >= 0.0 then r.Floor else -((-r).Floor)
  }

  /** `percent_to_pixels(x_pct, y_pct)` on a screen of `width` by `height`
      pixels. */
  function PercentToPixels(x: real, y: real, width: int, height: int): (int, int)
  {
    (Trunc(x * width as real), Trunc(y * height as real))
  }

  lemma MulMono(a: real, b: real, c: real)
    requires a <= b && c >= 0.0
    ensures a * c <= b * c
  {
  }

  /** One axis: a fraction of a size in pixels, truncated. */
  lemma TruncScaled(x: real, size: nat)
    requires 0.0 <= x <= 1.0
    ensures 0 <= Trunc(x * size as real) <= size
    ensures Trunc(x * size as real) as real <= x * size as real < Trunc(x * size as real) as real + 1.0
  {
    MulMono(0.0, x, size as real);
    MulMono(x, 1.0, size as real);
    var p := x * size as real;
    assert 0.0 <= p <= size as real;
    assert Trunc(p) == p.Floor;
  }

  /** A point given in fractions of the screen lands on a pixel of the
      screen: each coordinate is the fraction times the size, rounded
      down. */
  lemma PercentToPixelsSpec(x: real, y: real, width: nat, height: nat)
    requires 0.0 <= x <= 1.0 && 0.0 <= y <= 1.0
    ensures var (px, py) := PercentToPixels(x, y, width, height);
      0 <= px <= width && 0 <= py <= height &&
      px as real <= x * width as real < px as real + 1.0 &&
      py as real <= y * height as real < py as real + 1.0
  {
    TruncScaled(x, width);
    TruncScaled(y, height);
  }

  /** The point `click_with_jitter` taps, in fractions of the screen: the
      target moved by the drawn offsets `dx`, `dy` and clamped into
      `[0, 1]`. */
  function JitterPoint(x: real, y: real, jitter: real, dx: real, dy: real): (real, real)
    requires Between(dx, -jitter, jitter) && Between(dy, -jitter, jitter)
  {
    (Max(0.0, Min(1.0, x + dx)), Max(0.0, Min(1.0, y + dy)))
  }

  /** The tap is always on the screen; for a target on the screen it is no
      further from the target than the jitter, and it is the unclamped point
      whenever that is on the screen. */
  lemma JitterPointSpec(x: real, y: real, jitter: real, dx: real, dy: real)
    requires Between(dx, -jitter, jitter) && Between(dy, -jitter, jitter)
    ensures var (px, py) := JitterPoint(x, y, jitter, dx, dy);
      0.0 <= px <= 1.0 && 0.0 <= py <= 1.0 &&
      (0.0 <= x <= 1.0 ==> Abs(px - x) <= Abs(jitter)) &&
      (0.0 <= y <= 1.0 ==> Abs(py - y) <= Abs(jitter)) &&
      (0.0 <= x + dx <= 1.0 ==> px == x + dx) &&
      (0.0 <= y + dy <= 1.0 ==> py == y + dy)
  {
  }

  /** A rectangle in fractions of the screen. */
  datatype Rect = Rect(xMin: real, xMax: real, yMin: real, yMax: real)

  /** `max_offset_x` and `max_offset_y` of `click_random_in_rect`: a fifth
      of the size, and no more than the distance from the centre to an
      edge. */
  function MaxOffset(lo: real, hi: real): real
  {
    var c := (lo + hi) / 2.0;
    Min(Min((hi - lo) * 0.2, hi - c), c - lo)
  }

  /** The point `click_random_in_rect` taps: the centre moved by the drawn
      offsets `ox`, `oy`, then clamped into the rectangle. */
  function RectPoint(r: Rect, ox: real, oy: real): (real, real)
    requires Between(ox, -MaxOffset(r.xMin, r.xMax), MaxOffset(r.xMin, r.xMax))
    requires Between(oy, -MaxOffset(r.yMin, r.yMax), MaxOffset(r.yMin, r.yMax))
  {
    var cx := (r.xMin + r.xMax) / 2.0;
    var cy := (r.yMin + r.yMax) / 2.0;
    (Max(r.xMin, Min(r.xMax, cx + ox)), Max(r.yMin, Min(r.yMax, cy + oy)))
  }

  /** For a well-formed rectangle the moved centre is already inside it, so
      the safety clamp never changes it, and it is within a fifth of the
      size of the centre. */
  lemma RectPointInside(r: Rect, ox: real, oy: real)
    requires r.xMin <= r.xMax && r.yMin <= r.yMax
    requires Between(ox, -MaxOffset(r.xMin, r.xMax), MaxOffset(r.xMin, r.xMax))
    requires Between(oy, -MaxOffset(r.yMin, r.yMax), MaxOffset(r.yMin, r.yMax))
    ensures var cx, cy := (r.xMin + r.xMax) / 2.0, (r.yMin + r.yMax) / 2.0;
      r.xMin <= cx + ox <= r.xMax && r.yMin <= cy + oy <= r.yMax &&
      RectPoint(r, ox, oy) == (cx + ox, cy + oy) &&
      Abs(ox) <= (r.xMax - r.xMin) * 0.2 && Abs(oy) <= (r.yMax - r.yMin) * 0.2
  {
  }

  // ---------------------------------------------------------------------
  // Content score

  /** The combined score of `check_region_content_loaded` from the edge
      density, the variance of the value channel and the entropy of the
      grey histogram. */
  function ContentScore(edgeDensity: real, colorVariance: real, entropy: real): real
  {
    Min(edgeDensity * 10.0, 1.0) * 0.3 + Min(colorVariance / 1000.0, 1.0) * 0.3 + Min(entropy / 8.0, 1.0) * 0.4
  }

  /** On measures that cannot be negative the score lies in `[0, 1]`, and
      it reaches 1 once every measure is saturated. */
  lemma ContentScoreBounds(e: real, v: real, h: real)
    requires e >= 0.0 && v >= 0.0 && h >= 0.0
    ensures 0.0 <= ContentScore(e, v, h) <= 1.0
    ensures e >= 0.1 && v >= 1000.0 && h >= 8.0 ==> ContentScore(e, v, h) == 1.0
  {
  }

  /** More edges, more variance or more entropy never lower the score. */
  lemma ContentScoreMonotone(e: real, v: real, h: real, e': real, v': real, h': real)
    requires e <= e' && v <= v' && h <= h'
    ensures ContentScore(e, v, h) <= ContentScore(e', v', h')
  {
  }

  /** One pass of the polling loop: skipped (no screenshot, an empty region
      or a failed measure), or the count of confident OCR detections (0
      without OCR) and the three image measures. */
  datatype Sample =
    | Skipped
    | Measured(textCount: int, edgeDensity: real, colorVariance: real, entropy: real)

  function ScoreOf(s: Sample): real
    requires s.Measured?
  {
    ContentScore(s.edgeDensity, s.colorVariance, s.entropy)
  }

  /** A pass that ends the loop with "loaded". */
  predicate Passes(s: Sample, threshold: real)
  {
    s.Measured? && (s.textCount >= 2 || ScoreOf(s) > threshold)
  }

  /** `check_region_content_loaded` over the passes made before the timeout,
      with the best score so far: two confident detections end it with their
      count, a score above the threshold with that score, and a timeout with
      the best score. */
  function ContentCheck(samples: seq<Sample>, threshold: real, best: real): (real, bool)
  {
    if |samples| == 0 then (best, false)
    else match samples[0]
      case Skipped => ContentCheck(samples[1..], threshold, best)
      case Measured(n, e, v, h) =>
        if n >= 2 then (n as real, true)
        else if ContentScore(e, v, h) > threshold then (ContentScore(e, v, h), true)
        else ContentCheck(samples[1..], threshold, Max(best, ContentScore(e, v, h)))
  }

  /** The check says "loaded" exactly when some pass qualifies, and then
      reports a detection count of at least 2 or a score above the
      threshold. Otherwise it reports the running maximum: no pass scored
      more, and it is at most the threshold (or the starting value). */
  lemma {:induction false} ContentCheckSpec(samples: seq<Sample>, threshold: real, best: real)
    ensures var (score, loaded) := ContentCheck(samples, threshold, best);
      (loaded <==> exists i :: 0 <= i < |samples| && Passes(samples[i], threshold)) &&
      (loaded ==> score >= 2.0 || score > threshold) &&
      (!loaded ==>
        best <= score <= Max(best, threshold) &&
        forall i :: 0 <= i < |samples| && samples[i].Measured? ==> ScoreOf(samples[i]) <= score)
    decreases |samples|
  {
    if |samples| > 0 {
      var rest := samples[1..];
      assert forall i :: 1 <= i < |samples| ==> samples[i] == rest[i - 1];
      match samples[0]
      case Skipped =>
        ContentCheckSpec(rest, threshold, best);
        var (score, loaded) := ContentCheck(rest, threshold, best);
        if loaded {
          var i :| 0 <= i < |rest| && Passes(rest[i], threshold);
          assert Passes(samples[i + 1], threshold);
        }
      case Measured(n, e, v, h) =>
        if n < 2 && ContentScore(e, v, h) <= threshold {
          var b := Max(best, ContentScore(e, v, h));
          ContentCheckSpec(rest, threshold, b);
          var (score, loaded) := ContentCheck(rest, threshold, b);
          if loaded {
            var i :| 0 <= i < |rest| && Passes(rest[i], threshold);
            assert Passes(samples[i + 1], threshold);
          }
        }
    }
  }

  /** The polling loop of `check_region_content_loaded`, with the best
      score starting at 0. */
  method CheckRegionContentLoaded(samples: seq<Sample>, threshold: real) returns (score: real, loaded: bool)
    ensures (score, loaded) == ContentCheck(samples, threshold, 0.0)
  {
    var best := 0.0;
    var i := 0;
    assert samples[0..] == samples;
    while i < |samples|
      invariant 0 <= i <= |samples|
      invariant ContentCheck(samples[i..], threshold, best) == ContentCheck(samples, threshold, 0.0)
    {
      assert samples[i..][1..] == samples[i + 1..];
      match samples[i] {
        case Skipped =>
        case Measured(n, e, v, h) =>
          if n >= 2 {
            return n as real, true;
          }
          var combined := ContentScore(e, v, h);
          if combined > threshold {
            return combined, true;
          }
          best := Max(best, combined);
      }
      i := i + 1;
    }
    return best, false;
  }

  // ---------------------------------------------------------------------
  // Retrying once

  /** What one retry-once block does, in order. */
  datatype Step = Check(passed: bool) | RetryAction

  /** The retry-once blocks of the listing phases: check; on failure, one
      retry action (a tap on the retry area, or the previous steps again)
      and a second check; fail only when that fails too. `first` and
      `second` are the outcomes the two checks would have. */
  function RetryOnce(first: bool, second: bool): (r: (bool, seq<Step>))
    ensures r.0 <==> first || second
    ensures 1 <= |r.1| <= 3 && r.1[|r.1| - 1] == Check(r.0)
    ensures forall i :: 0 <= i < |r.1| && r.1[i] == RetryAction ==> 0 < i < |r.1| - 1 && r.1[i - 1] == Check(false)
    ensures r.1[0] == Check(first)
  {
    if first then (true, [Check(true)]) else (second, [Check(false), RetryAction, Check(second)])
  }

  // ---------------------------------------------------------------------
  // Draft cleanup

  /** `DRAFT_GRID['positions']` */
  const DraftPositions: seq<Rect> := [
    Rect(0.050, 0.431, 0.158, 0.330), Rect(0.506, 0.892, 0.159, 0.330), Rect(0.047, 0.428, 0.383, 0.550)]

  const ManageButton: Rect := Rect(0.803, 0.958, 0.136, 0.151)

  const DeleteButton: Rect := Rect(0.050, 0.953, 0.909, 0.955)

  datatype DraftOutcome = DraftsCleared | NoDrafts

  /** The draft slots wholly above the delete button, in order. */
  function SafeSlots(positions: seq<Rect>, deleteTop: real): seq<Rect>
  {
    if |positions| == 0 then []
    else
      var last := positions[|positions| - 1];
      SafeSlots(positions[..|positions| - 1], deleteTop) + (if last.yMax < deleteTop then [last] else [])
  }

  /** Exactly the slots whose bottom edge is above the delete button are
      tapped, each once, in order; the configured slots all qualify. */
  lemma {:induction false} SafeSlotsSpec(positions: seq<Rect>, deleteTop: real)
    ensures |SafeSlots(positions, deleteTop)| <= |positions|
    ensures forall r :: r in SafeSlots(positions, deleteTop) <==> r in positions && r.yMax < deleteTop
    ensures (forall i :: 0 <= i < |positions| ==> positions[i].yMax < deleteTop) ==> SafeSlots(positions, deleteTop) == positions
    decreases |positions|
  {
    if |positions| > 0 {
      var init := positions[..|positions| - 1];
      var last := positions[|positions| - 1];
      var prev := SafeSlots(init, deleteTop);
      SafeSlotsSpec(init, deleteTop);
      assert positions == init + [last];
      assert SafeSlots(positions, deleteTop) == prev + (if last.yMax < deleteTop then [last] else []);
      forall r
        ensures r in SafeSlots(positions, deleteTop) <==> r in positions && r.yMax < deleteTop
      {
        assert r in positions <==> r in init || r == last;
      }
    }
  }

  /** The configured slots are all above the delete button. */
  lemma DefaultSlotsSafe()
    ensures SafeSlots(DraftPositions, DeleteButton.yMin) == DraftPositions
  {
    SafeSlotsSpec(DraftPositions, DeleteButton.yMin);
  }

  /** `clear_drafts()`, given whether the draft page (its delete button)
      showed: the rectangles tapped, in order, and the outcome. */
  method ClearDrafts(positions: seq<Rect>, deleteButton: Rect, pageLoaded: bool) returns (outcome: DraftOutcome, tapped: seq<Rect>)
    ensures var safe := SafeSlots(positions, deleteButton.yMin);
      outcome == (if pageLoaded && |safe| > 0 then DraftsCleared else NoDrafts) &&
      tapped == [ManageButton] + (if pageLoaded then safe else []) + (if outcome == DraftsCleared then [deleteButton] else [])
  {
    tapped := [ManageButton];
    if !pageLoaded {
      return NoDrafts, tapped;
    }
    var deleteZoneTop := deleteButton.yMin;
    var selected := 0;
    var i := 0;
    while i < |positions|
      invariant 0 <= i <= |positions|
      invariant tapped == [ManageButton] + SafeSlots(positions[..i], deleteZoneTop)
      invariant selected == |SafeSlots(positions[..i], deleteZoneTop)|
    {
      assert positions[..i + 1][..i] == positions[..i];
      if positions[i].yMax < deleteZoneTop {
        tapped := tapped + [positions[i]];
        selected := selected + 1;
      }
      i := i + 1;
    }
    assert positions[..i] == positions;
    if selected == 0 {
      return NoDrafts, tapped;
    }
    tapped := tapped + [deleteButton];
    return DraftsCleared, tapped;
  }

  // ---------------------------------------------------------------------
  // The image grid

  datatype Grid = Grid(left: real, top: real, right: real, bottom: real, columns: nat, rows: nat, skipFirst: bool)

  /** `IMAGE_GRID`: three columns, five rows, the camera tile first. */
  const ImageGrid: Grid := Grid(0.033, 0.198, 1.012, 0.940, 3, 5, true)

  /** The column and row of image `i`, counted past the camera tile. */
  function GridCell(g: Grid, i: nat): (nat, nat)
    requires g.columns > 0
  {
    var realIdx := if g.skipFirst then i + 1 else i;
    (realIdx % g.columns, realIdx / g.columns)
  }

  /** Cells are row-major, the column is in range, the camera tile is never
      chosen, and different images get different cells. */
  lemma GridCellSpec(g: Grid, i: nat, j: nat)
    requires g.columns > 0
    ensures var (c, r) := GridCell(g, i);
      c < g.columns && r * g.columns + c == (if g.skipFirst then i + 1 else i) &&
      (g.skipFirst ==> (c, r) != (0, 0))
    ensures i != j ==> GridCell(g, i) != GridCell(g, j)
  {
    var (ci, ri) := GridCell(g, i);
    var (cj, rj) := GridCell(g, j);
    if (ci, ri) == (cj, rj) {
      assert ri * g.columns + ci == rj * g.columns + cj;
    }
  }

  /** The centre of image `i`'s cell. */
  function CellCenter(g: Grid, i: nat): (real, real)
    requires g.columns > 0 && g.rows > 0
  {
    var cell := GridCell(g, i);
    var cellW := (g.right - g.left) / g.columns as real;
    var cellH := (g.bottom - g.top) / g.rows as real;
    (g.left + (cell.0 as real + 0.5) * cellW, g.top + (cell.1 as real + 0.5) * cellH)
  }

  /** The centre of a cell inside the grid lies inside the grid's
      rectangle; with the camera tile skipped the grid holds
      `columns * rows - 1` images. */
  lemma CellCenterInside(g: Grid, i: nat)
    requires g.columns > 0 && g.rows > 0 && g.left <= g.right && g.top <= g.bottom
    requires (if g.skipFirst then i + 1 else i) < g.columns * g.rows
    ensures var (x, y) := CellCenter(g, i); g.left <= x <= g.right && g.top <= y <= g.bottom
  {
    var (c, r) := GridCell(g, i);
    GridCellSpec(g, i, i);
    RowInRange(r, c, g.columns, g.rows);
    CenterOnAxis(g.left, g.right, c, g.columns);
    CenterOnAxis(g.top, g.bottom, r, g.rows);
  }

  lemma RowInRange(r: nat, c: nat, columns: nat, rows: nat)
    requires r * columns + c < columns * rows
    ensures r < rows
  {
  }

  /** The centre of cell `k` of `n` equal cells between `lo` and `hi`. */
  lemma CenterOnAxis(lo: real, hi: real, k: nat, n: nat)
    requires lo <= hi && k < n
    ensures lo <= lo + (k as real + 0.5) * ((hi - lo) / n as real) <= hi
  {
    var w := (hi - lo) / n as real;
    assert w * n as real == hi - lo;
    assert w >= 0.0;
    MulMono(0.0, k as real + 0.5, w);
    MulMono(k as real + 0.5, n as real, w);
  }

  /** The grid loop of `select_images(num_images)`: the cell centres it taps
      (before jitter), one per image, in order. */
  method SelectImagePoints(g: Grid, numImages: int) returns (points: seq<(real, real)>)
    requires g.columns > 0 && g.rows > 0
    ensures |points| == if numImages > 0 then numImages else 0
    ensures forall i :: 0 <= i < |points| ==> points[i] == CellCenter(g, i)
  {
    points := [];
    var i := 0;
    while i < numImages
      invariant 0 <= i <= (if numImages > 0 then numImages else 0) && |points| == i
      invariant forall k :: 0 <= k < i ==> points[k] == CellCenter(g, k)
    {
      var realIdx := if g.skipFirst then i + 1 else i;
      var col, row := realIdx % g.columns, realIdx / g.columns;
      var cellW := (g.right - g.left) / g.columns as real;
      var cellH := (g.bottom - g.top) / g.rows as real;
      var point := (g.left + (col as real + 0.5) * cellW, g.top + (row as real + 0.5) * cellH);
      assert point == CellCenter(g, i) by {
        var cell := GridCell(g, i);
        assert cell.0 == col && cell.1 == row;
        assert CellCenter(g, i).0 == g.left + (cell.0 as real + 0.5) * cellW;
        assert CellCenter(g, i).1 == g.top + (cell.1 as real + 0.5) * cellH;
        assert point.0 == CellCenter(g, i).0;
        assert point.1 == CellCenter(g, i).1;
      }
      points := points + [point];
      i := i + 1;
    }
  }

  // ---------------------------------------------------------------------
  // Choosing the images to push

  /** One entry of the product folder: its name, whether it is a file, and
      its resolved path as `str()` of a `WindowsPath` writes it (the images
      live under `D:\Carousell_Auto\data`). */
  datatype DirEntry = DirEntry(name: string, isFile: bool, resolved: string)

  /** The position of the last `.` in `s`. */
  function LastDot(s: string): (r: Option<nat>)
    ensures r.Some? ==> r.value < |s| && s[r.value] == '.' && '.' !in s[r.value + 1..]
    ensures r.None? ==> '.' !in s
  {
    if |s| == 0 then None
    else if s[|s| - 1] == '.' then Some(|s| - 1)
    else
      var r := LastDot(s[..|s| - 1]);
      assert r.Some? ==> s[r.value + 1..] == s[..|s| - 1][r.value + 1..] + [s[|s| - 1]];
      r
  }

  /** `Path.suffix`: from the last dot on, unless that dot starts or ends
      the name. */
  function Suffix(name: string): string
  {
    match LastDot(name)
    case Some(i) => if 0 < i < |name| - 1 then name[i..] else ""
    case None => ""
  }

  const ImageExtensions: set<string> := {".jpg", ".jpeg", ".png", ".webp"}

  predicate IsImage(e: DirEntry)
  {
    e.isFile && Lower(Suffix(e.name)) in ImageExtensions
  }

  /** The paths `set.add` keeps: the resolved path of every entry `keep`
      accepts, unless an equal `WindowsPath` is already in the set, in the
      order first seen. */
  function KeptPaths(entries: seq<DirEntry>, keep: DirEntry -> bool): seq<string>
  {
    if |entries| == 0 then []
    else
      var seen := KeptPaths(entries[..|entries| - 1], keep);
      var e := entries[|entries| - 1];
      if keep(e) && !HasPath(seen, e.resolved) then seen + [e.resolved] else seen
  }

  /** The image paths of the folder, each once. */
  function ImagePaths(entries: seq<DirEntry>): seq<string>
  {
    KeptPaths(entries, IsImage)
  }

  /** No two of the paths are equal as `WindowsPath`s. */
  predicate DistinctPaths(xs: seq<string>)
  {
    forall i, j :: 0 <= i < j < |xs| ==> !SamePath(xs[i], xs[j])
  }

  /** The set holds no two equal paths, only paths of entries kept, and a
      path equal to that of every entry kept. */
  lemma {:induction false} KeptPathsSpec(entries: seq<DirEntry>, keep: DirEntry -> bool)
    ensures DistinctPaths(KeptPaths(entries, keep))
    ensures forall p :: p in KeptPaths(entries, keep) ==> exists k :: 0 <= k < |entries| && keep(entries[k]) && entries[k].resolved == p
    ensures forall k :: 0 <= k < |entries| && keep(entries[k]) ==> HasPath(KeptPaths(entries, keep), entries[k].resolved)
    decreases |entries|
  {
    if |entries| > 0 {
      var init := entries[..|entries| - 1];
      var e := entries[|entries| - 1];
      var seen := KeptPaths(init, keep);
      var r := KeptPaths(entries, keep);
      KeptPathsSpec(init, keep);
      assert forall i :: 0 <= i < |seen| ==> r[i] == seen[i];
      forall p | p in seen
        ensures exists k :: 0 <= k < |entries| && keep(entries[k]) && entries[k].resolved == p
      {
        var k :| 0 <= k < |init| && keep(init[k]) && init[k].resolved == p;
        assert entries[k] == init[k];
      }
      forall k | 0 <= k < |entries| && keep(entries[k])
        ensures HasPath(r, entries[k].resolved)
      {
        if k < |init| {
          assert init[k] == entries[k];
          var i :| 0 <= i < |seen| && SamePath(seen[i], init[k].resolved);
          assert r[i] == seen[i];
        } else if !HasPath(seen, e.resolved) {
          assert r[|seen|] == e.resolved;
        } else {
          var i :| 0 <= i < |seen| && SamePath(seen[i], e.resolved);
          assert r[i] == seen[i];
        }
      }
    }
  }

  /** The image paths are the image entries' paths, no two equal, and every
      image entry's path is equal to one of them. */
  lemma ImagePathsSpec(entries: seq<DirEntry>)
    ensures DistinctPaths(ImagePaths(entries))
    ensures forall p :: p in ImagePaths(entries) ==> exists k :: 0 <= k < |entries| && IsImage(entries[k]) && entries[k].resolved == p
    ensures forall k :: 0 <= k < |entries| && IsImage(entries[k]) ==> HasPath(ImagePaths(entries), entries[k].resolved)
  {
    KeptPathsSpec(entries, IsImage);
  }

  /** The directory loop of `clear_and_push_images`. */
  method CollectImages(entries: seq<DirEntry>) returns (found: seq<string>)
    ensures found == ImagePaths(entries)
  {
    found := [];
    var i := 0;
    while i < |entries|
      invariant 0 <= i <= |entries|
      invariant found == KeptPaths(entries[..i], IsImage)
    {
      assert entries[..i + 1][..i] == entries[..i];
      var item := entries[i];
      if item.isFile {
        var ext := Lower(Suffix(item.name));
        if ext in ImageExtensions && !HasPath(found, item.resolved) {
          found := found + [item.resolved];
        }
      }
      i := i + 1;
    }
    assert entries[..i] == entries;
  }

  // ---------------------------------------------------------------------
  // `WindowsPath` equality and order

  /** Two `WindowsPath`s are equal, and hash alike, when their texts agree
      after lower-casing. */
  predicate SamePath(a: string, b: string)
  {
    Lower(a) == Lower(b)
  }

  /** `p` equals a path of `seen`. */
  predicate HasPath(seen: seq<string>, p: string)
  {
    exists i :: 0 <= i < |seen| && SamePath(seen[i], p)
  }

  /** What `WindowsPath` comparisons look at: the lower-cased path cut at
      every `\`. */
  function PathKey(p: string): seq<string>
  {
    Split(Lower(p), '\\')
  }

  /** `a < b` on strings: character by character, a proper prefix first. */
  predicate StrLess(a: string, b: string)
    decreases |a|
  {
    if |a| == 0 then |b| > 0
    else |b| > 0 && (a[0] < b[0] || (a[0] == b[0] && StrLess(a[1..], b[1..])))
  }

  /** `a < b` on lists of strings: item by item, a proper prefix first. */
  predicate PartsLess(a: seq<string>, b: seq<string>)
    decreases |a|
  {
    if |a| == 0 then |b| > 0
    else |b| > 0 && (StrLess(a[0], b[0]) || (a[0] == b[0] && PartsLess(a[1..], b[1..])))
  }

  /** `a < b` on `WindowsPath`s: the components compared in order, each
      lower-cased. */
  predicate PathLess(a: string, b: string)
  {
    PartsLess(PathKey(a), PathKey(b))
  }

  lemma {:induction false} StrLessIrreflexive(a: string)
    ensures !StrLess(a, a)
    decreases |a|
  {
    if |a| > 0 {
      StrLessIrreflexive(a[1..]);
    }
  }

  lemma {:induction false} StrLessTotal(a: string, b: string)
    ensures a == b || StrLess(a, b) || StrLess(b, a)
    decreases |a|
  {
    if |a| > 0 && |b| > 0 && a[0] == b[0] {
      StrLessTotal(a[1..], b[1..]);
      if a[1..] == b[1..] {
        assert a == [a[0]] + a[1..] && b == [b[0]] + b[1..];
      }
    }
  }

  lemma {:induction false} StrLessTransitive(a: string, b: string, c: string)
    requires StrLess(a, b) && StrLess(b, c)
    ensures StrLess(a, c)
    decreases |a|
  {
    if |a| > 0 && a[0] == b[0] && b[0] == c[0] {
      StrLessTransitive(a[1..], b[1..], c[1..]);
    }
  }

  lemma {:induction false} PartsLessIrreflexive(a: seq<string>)
    ensures !PartsLess(a, a)
    decreases |a|
  {
    if |a| > 0 {
      StrLessIrreflexive(a[0]);
      PartsLessIrreflexive(a[1..]);
    }
  }

  lemma {:induction false} PartsLessTotal(a: seq<string>, b: seq<string>)
    ensures a == b || PartsLess(a, b) || PartsLess(b, a)
    decreases |a|
  {
    if |a| > 0 && |b| > 0 {
      StrLessTotal(a[0], b[0]);
      if a[0] == b[0] {
        PartsLessTotal(a[1..], b[1..]);
        if a[1..] == b[1..] {
          assert a == [a[0]] + a[1..] && b == [b[0]] + b[1..];
        }
      }
    }
  }

  lemma {:induction false} PartsLessTransitive(a: seq<string>, b: seq<string>, c: seq<string>)
    requires PartsLess(a, b) && PartsLess(b, c)
    ensures PartsLess(a, c)
    decreases |a|
  {
    if |a| > 0 {
      if StrLess(a[0], b[0]) && StrLess(b[0], c[0]) {
        StrLessTransitive(a[0], b[0], c[0]);
      } else if a[0] == b[0] && b[0] == c[0] {
        PartsLessTransitive(a[1..], b[1..], c[1..]);
      }
    }
  }

  /** No path sorts before itself. */
  lemma PathLessIrreflexive(a: string)
    ensures !PathLess(a, a)
  {
    PartsLessIrreflexive(PathKey(a));
  }

  /** Two paths that are not equal as `WindowsPath`s are ordered one way or
      the other. */
  lemma PathLessTotal(a: string, b: string)
    ensures SamePath(a, b) || PathLess(a, b) || PathLess(b, a)
  {
    PartsLessTotal(PathKey(a), PathKey(b));
    if PathKey(a) == PathKey(b) {
      SplitJoin(Lower(a), '\\');
      SplitJoin(Lower(b), '\\');
    }
  }

  lemma PathLessTransitive(a: string, b: string, c: string)
    requires PathLess(a, b) && PathLess(b, c)
    ensures PathLess(a, c)
  {
    PartsLessTransitive(PathKey(a), PathKey(b), PathKey(c));
  }

  /** Equal paths sort alike. */
  lemma SamePathSameOrder(a: string, b: string, c: string)
    requires SamePath(a, b)
    ensures PathLess(a, c) == PathLess(b, c) && PathLess(c, a) == PathLess(c, b)
  {
    assert PathKey(a) == PathKey(b);
  }

  // ---------------------------------------------------------------------
  // `sorted`

  predicate Sorted(xs: seq<string>)
  {
    forall i, j :: 0 <= i < j < |xs| ==> !PathLess(xs[j], xs[i])
  }

  function Insert(x: string, xs: seq<string>): seq<string>
  {
    if |xs| == 0 then [x]
    else if PathLess(xs[0], x) then [xs[0]] + Insert(x, xs[1..])
    else [x] + xs
  }

  /** `sorted(paths)` */
  function Sort(xs: seq<string>): seq<string>
  {
    if |xs| == 0 then [] else Insert(xs[0], Sort(xs[1..]))
  }

  lemma {:induction false} InsertMultiset(x: string, xs: seq<string>)
    ensures multiset(Insert(x, xs)) == multiset(xs) + multiset{x}
    decreases |xs|
  {
    if |xs| > 0 && PathLess(xs[0], x) {
      InsertMultiset(x, xs[1..]);
      assert xs == [xs[0]] + xs[1..];
    }
  }

  /** Putting `a` in front of a sorted list whose items all sort after it
      keeps it sorted; the same for no two equal paths. */
  lemma Cons(a: string, t: seq<string>)
    ensures Sorted(t) && (forall j :: 0 <= j < |t| ==> !PathLess(t[j], a)) ==> Sorted([a] + t)
    ensures DistinctPaths(t) && !HasPath(t, a) ==> DistinctPaths([a] + t)
  {
    var r := [a] + t;
    assert forall j :: 0 < j < |r| ==> r[j] == t[j - 1];
  }

  lemma {:induction false} InsertSorted(x: string, xs: seq<string>)
    requires Sorted(xs)
    ensures Sorted(Insert(x, xs))
    decreases |xs|
  {
    if |xs| > 0 {
      if PathLess(xs[0], x) {
        var tail := xs[1..];
        InsertSorted(x, tail);
        InsertMultiset(x, tail);
        var t := Insert(x, tail);
        forall j | 0 <= j < |t|
          ensures !PathLess(t[j], xs[0])
        {
          assert t[j] in multiset(t);
          if t[j] == x {
            if PathLess(x, xs[0]) {
              PathLessTransitive(x, xs[0], x);
              PathLessIrreflexive(x);
            }
          } else {
            assert t[j] in tail;
            var k :| 0 <= k < |tail| && tail[k] == t[j];
            assert xs[k + 1] == t[j];
          }
        }
        Cons(xs[0], t);
      } else {
        forall j | 0 <= j < |xs|
          ensures !PathLess(xs[j], x)
        {
          if PathLess(xs[j], x) && j > 0 {
            PathLessTotal(xs[0], xs[j]);
            if SamePath(xs[0], xs[j]) {
              SamePathSameOrder(xs[0], xs[j], x);
            } else {
              PathLessTransitive(xs[0], xs[j], x);
            }
          }
        }
        Cons(x, xs);
      }
    }
  }

  lemma {:induction false} InsertDistinct(x: string, xs: seq<string>)
    requires DistinctPaths(xs) && !HasPath(xs, x)
    ensures DistinctPaths(Insert(x, xs))
    decreases |xs|
  {
    if |xs| > 0 {
      if PathLess(xs[0], x) {
        var tail := xs[1..];
        assert DistinctPaths(tail);
        assert !HasPath(tail, x) by {
          forall i | 0 <= i < |tail|
            ensures !SamePath(tail[i], x)
          {
            assert tail[i] == xs[i + 1];
          }
        }
        InsertDistinct(x, tail);
        InsertMultiset(x, tail);
        var t := Insert(x, tail);
        assert !HasPath(t, xs[0]) by {
          forall i | 0 <= i < |t|
            ensures !SamePath(t[i], xs[0])
          {
            assert t[i] in multiset(t);
            if t[i] != x {
              assert t[i] in tail;
              var k :| 0 <= k < |tail| && tail[k] == t[i];
              assert xs[k + 1] == t[i];
            }
          }
        }
        Cons(xs[0], t);
      } else {
        Cons(x, xs);
      }
    }
  }

  /** `sorted` returns its input reordered, in order, and keeps a list
      without equal paths so. */
  lemma SortSpec(xs: seq<string>)
    ensures multiset(Sort(xs)) == multiset(xs)
    ensures Sorted(Sort(xs))
    ensures DistinctPaths(xs) ==> DistinctPaths(Sort(xs))
  {
    SortMultiset(xs);
    SortSorted(xs);
    if DistinctPaths(xs) {
      SortDistinct(xs);
    }
  }

  lemma {:induction false} SortMultiset(xs: seq<string>)
    ensures multiset(Sort(xs)) == multiset(xs)
    decreases |xs|
  {
    if |xs| > 0 {
      SortMultiset(xs[1..]);
      InsertMultiset(xs[0], Sort(xs[1..]));
      assert xs == [xs[0]] + xs[1..];
    }
  }

  lemma {:induction false} SortSorted(xs: seq<string>)
    ensures Sorted(Sort(xs))
    decreases |xs|
  {
    if |xs| > 0 {
      SortSorted(xs[1..]);
      InsertSorted(xs[0], Sort(xs[1..]));
    }
  }

  lemma {:induction false} SortDistinct(xs: seq<string>)
    requires DistinctPaths(xs)
    ensures DistinctPaths(Sort(xs))
    decreases |xs|
  {
    if |xs| > 0 {
      var rest := Sort(xs[1..]);
      assert DistinctPaths(xs[1..]);
      SortDistinct(xs[1..]);
      assert !HasPath(rest, xs[0]) by {
        SortMultiset(xs[1..]);
        forall i | 0 <= i < |rest|
          ensures !SamePath(rest[i], xs[0])
        {
          assert rest[i] in multiset(xs[1..]);
          var k :| 0 <= k < |xs[1..]| && xs[1..][k] == rest[i];
          assert xs[k + 1] == rest[i];
        }
      }
      InsertDistinct(xs[0], rest);
    }
  }

  /** A path `d:\<name>` with no further `\` splits into the drive and the
      name. */
  lemma DriveSplit(l: string)
    requires |l| > 3 && l[..3] == "d:\\" && '\\' !in l[3..]
    ensures Split(l, '\\') == ["d:", l[3..]]
  {
    assert l[2] == '\\' && '\\' !in l[..2];
    var f := Find(l, '\\');
    assert f == Some(2);
    assert l[..2] == l[..3][..2] == "d:";
    assert Find(l[3..], '\\').None?;
    assert Split(l[3..], '\\') == [l[3..]];
    assert Split(l, '\\') == [l[..2]] + Split(l[3..], '\\');
  }

  /** Lower-casing the three example paths. */
  lemma LowerExamples()
    ensures Lower("D:\\a.jpg") == "d:\\a.jpg"
    ensures Lower("D:\\B.jpg") == "d:\\b.jpg"
    ensures Lower("D:\\A.jpg") == "d:\\a.jpg"
  {
  }

  /** `B.jpg` comes before `a.jpg` in code-point order, ... */
  lemma CodePointExample()
    ensures StrLess("D:\\B.jpg", "D:\\a.jpg")
  {
    var a, b := "D:\\a.jpg", "D:\\B.jpg";
    assert StrLess(b[2..], a[2..]) by {
      assert b[2..][0] == '\\' == a[2..][0] && b[2..][1..] == b[3..] && a[2..][1..] == a[3..];
      assert b[3] < a[3];
    }
    assert b[0] == a[0] && b[1..][1..] == b[2..] && a[1..][1..] == a[2..];
  }

  /** ... but `a.jpg` comes first as a `WindowsPath`, and `A.jpg` and
      `a.jpg` are one path. */
  lemma WindowsPathExample()
    ensures PathLess("D:\\a.jpg", "D:\\B.jpg") && !PathLess("D:\\B.jpg", "D:\\a.jpg")
    ensures SamePath("D:\\A.jpg", "D:\\a.jpg")
  {
    var a, b := "D:\\a.jpg", "D:\\B.jpg";
    LowerExamples();
    DriveSplit("d:\\a.jpg");
    DriveSplit("d:\\b.jpg");
    assert PartsLess(["d:", "a.jpg"], ["d:", "b.jpg"]);
    PathLessIrreflexive(a);
    if PathLess(b, a) {
      PathLessTransitive(a, b, a);
    }
  }

  /** So `sorted` puts `a.jpg` before `B.jpg`. */
  lemma SortExample()
    ensures Sort(["D:\\B.jpg", "D:\\a.jpg"]) == ["D:\\a.jpg", "D:\\B.jpg"]
  {
    var a, b := "D:\\a.jpg", "D:\\B.jpg";
    WindowsPathExample();
    assert Sort([a]) == [a];
    assert Sort([b, a]) == Insert(b, [a]) == [a] + Insert(b, []);
  }

  /** `lst[:n]` */
  function PySlice<T>(xs: seq<T>, n: int): seq<T>
  {
    if n >= 0 then (if n >= |xs| then xs else xs[..n])
    else if |xs| + n <= 0 then [] else xs[..|xs| + n]
  }

  /** `sorted(list(all_files_set))[:max_images]` */
  function SelectedImages(entries: seq<DirEntry>, maxImages: int): seq<string>
  {
    PySlice(Sort(ImagePaths(entries)), maxImages)
  }

  /** A sorted list without equal paths is strictly increasing. */
  lemma StrictlySorted(s: seq<string>)
    requires Sorted(s) && DistinctPaths(s)
    ensures forall i, j :: 0 <= i < j < |s| ==> PathLess(s[i], s[j])
  {
    forall i, j | 0 <= i < j < |s|
      ensures PathLess(s[i], s[j])
    {
      PathLessTotal(s[i], s[j]);
    }
  }

  /** Cutting a strictly increasing list after `n` items leaves out only
      paths that sort after every path kept. */
  lemma CutKeepsFirst(s: seq<string>, n: nat, p: string, q: string)
    requires n <= |s|
    requires forall i, j :: 0 <= i < j < |s| ==> PathLess(s[i], s[j])
    requires HasPath(s, p) && !HasPath(s[..n], p) && q in s[..n]
    ensures PathLess(q, p)
  {
    var j :| 0 <= j < |s| && SamePath(s[j], p);
    assert forall i :: 0 <= i < n ==> s[..n][i] == s[i];
    assert j >= n;
    var i :| 0 <= i < n && s[i] == q;
    SamePathSameOrder(s[j], p, q);
  }

  /** The images chosen are image entries of the folder, in strictly
      increasing `WindowsPath` order, as many as there are different images
      (up to `max_images`), and the cap keeps the first ones: every image
      entry whose path was not chosen sorts after every image chosen. */
  lemma SelectedImagesSpec(entries: seq<DirEntry>, maxImages: int)
    ensures var r := SelectedImages(entries, maxImages);
      var all := ImagePaths(entries);
      (maxImages >= 0 ==> |r| == if maxImages < |all| then maxImages else |all|) &&
      (forall i, j :: 0 <= i < j < |r| ==> PathLess(r[i], r[j])) &&
      (forall p :: p in r ==> exists k :: 0 <= k < |entries| && IsImage(entries[k]) && entries[k].resolved == p) &&
      (forall k, q :: 0 <= k < |entries| && IsImage(entries[k]) && !HasPath(r, entries[k].resolved) && q in r ==>
        PathLess(q, entries[k].resolved))
  {
    var all := ImagePaths(entries);
    ImagePathsSpec(entries);
    SortSpec(all);
    var s := Sort(all);
    var r := SelectedImages(entries, maxImages);
    assert |s| == |all| by {
      assert |multiset(s)| == |multiset(all)|;
    }
    assert r == s[..|r|];
    StrictlySorted(s);
    forall p | p in r
      ensures p in all
    {
      assert p in multiset(s);
    }
    forall k, q | 0 <= k < |entries| && IsImage(entries[k]) && !HasPath(r, entries[k].resolved) && q in r
      ensures PathLess(q, entries[k].resolved)
    {
      var p := entries[k].resolved;
      var m :| 0 <= m < |all| && SamePath(all[m], p);
      assert all[m] in multiset(s);
      CutKeepsFirst(s, |r|, p, q);
    }
  }

  /** Keeps the items `ok` accepts, in order. */
  function Filter(xs: seq<string>, ok: string -> bool): seq<string>
  {
    if |xs| == 0 then []
    else Filter(xs[..|xs| - 1], ok) + (if ok(xs[|xs| - 1]) then [xs[|xs| - 1]] else [])
  }

  lemma {:induction false} FilterSpec(xs: seq<string>, ok: string -> bool)
    ensures |Filter(xs, ok)| <= |xs|
    ensures forall x :: x in Filter(xs, ok) <==> x in xs && ok(x)
    decreases |xs|
  {
    if |xs| > 0 {
      FilterSpec(xs[..|xs| - 1], ok);
      assert xs == xs[..|xs| - 1] + [xs[|xs| - 1]];
    }
  }

  /** `clear_and_push_images(folder_name, max_images)`, given whether the
      folder exists, its entries and which pushes succeed: the files pushed
      and the number of images found. */
  method ClearAndPushImages(folderExists: bool, entries: seq<DirEntry>, maxImages: int, pushes: string -> bool)
    returns (pushed: seq<string>, found: int)
    ensures !folderExists ==> pushed == [] && found == 0
    ensures folderExists ==>
      var files := SelectedImages(entries, maxImages);
      found == |files| && pushed == Filter(files, pushes)
  {
    if !folderExists {
      return [], 0;
    }
    var all := CollectImages(entries);
    var files := PySlice(Sort(all), maxImages);
    if |files| == 0 {
      return [], 0;
    }
    pushed := [];
    var i := 0;
    while i < |files|
      invariant 0 <= i <= |files|
      invariant pushed == Filter(files[..i], pushes)
    {
      assert files[..i + 1][..i] == files[..i];
      if pushes(files[i]) {
        pushed := pushed + [files[i]];
      }
      i := i + 1;
    }
    assert files[..i] == files;
    return pushed, |files|;
  }

  /** What is pushed is a subset of what was chosen; at most `max_images`
      files go to the phone. */
  lemma PushedSpec(entries: seq<DirEntry>, maxImages: int, pushes: string -> bool)
    requires maxImages >= 0
    ensures var files := SelectedImages(entries, maxImages);
      |Filter(files, pushes)| <= |files| <= maxImages &&
      forall p :: p in Filter(files, pushes) <==> p in files && pushes(p)
  {
    FilterSpec(SelectedImages(entries, maxImages), pushes);
    SelectedImagesSpec(entries, maxImages);
  }

  // ---------------------------------------------------------------------
  // `call_vm_script`

  const VmScriptPath: string := "./vm.sh"

  /** `app_type or "Carousell"` and the like; the empty string stands for
      `None`. */
  function OrDefault(s: string, default: string): string
  {
    if s != "" then s else default
  }

  /** The arguments `call_vm_script` means `vm.sh` to receive, or `None`
      when it refuses: a blank name or an unknown action. */
  function VmArgs(action: string, name: string, appType: string, region: string, node: string): Option<seq<string>>
  {
    var n := Strip(name);
    if n == "" then None
    else if action == "load" || action == "save" then Some([VmScriptPath, action, n])
    else if action == "new" then
      Some([VmScriptPath, "new", n, OrDefault(appType, "Carousell"), OrDefault(region, "GB"), OrDefault(node, "UK-01")])
    else None
  }

  /** The script path and the verbs are words `shlex.quote` leaves alone, so
      quoting them too gives the same script line the source builds. */
  lemma VerbsNeedNoQuotes()
    ensures ShellQuote(VmScriptPath) == VmScriptPath
    ensures ShellQuote("load") == "load" && ShellQuote("save") == "save" && ShellQuote("new") == "new"
  {
    var p := VmScriptPath;
    assert ShellQuote(p) == p by {
      assert ShellSafe(p[0]) && ShellSafe(p[1]) && ShellSafe(p[2]) && ShellSafe(p[3]);
      assert ShellSafe(p[4]) && ShellSafe(p[5]) && ShellSafe(p[6]);
      QuoteSafe(p);
    }
    assert ShellQuote("load") == "load" by {
      QuoteSafe("load");
    }
    assert ShellQuote("save") == "save" by {
      QuoteSafe("save");
    }
    assert ShellQuote("new") == "new" by {
      QuoteSafe("new");
    }
  }

  lemma QuoteSafe(x: string)
    requires x != "" && forall i :: 0 <= i < |x| ==> ShellSafe(x[i])
    ensures ShellQuote(x) == x
  {
  }

  /** The command as written: the script line put between single quotes.
      The quotes `shlex.quote` put around an argument end those quotes. */
  function VmCommandAsWritten(args: seq<string>): string
  {
    "su -c '" + ShellJoin(args) + "'"
  }

  /** The command with the script line quoted as one word. */
  function VmCommand(args: seq<string>): string
  {
    "su -c " + ShellQuote(ShellJoin(args))
  }

  /** Reading `su -c ` and then the rest of a command. */
  lemma ReadSuPrefix(rest: string)
    ensures Scan("su -c " + rest, Bare, None, []) == Scan(rest, Bare, None, ["su", "-c"])
  {
    assert "su -c " + rest == "su" + " " + ("-c" + " " + rest);
    ScanWord("su", "-c" + " " + rest, []);
    ScanWord("-c", rest, ["su"]);
    assert [] + ["su"] == ["su"] && ["su"] + ["-c"] == ["su", "-c"];
  }

  /** The corrected command reaches `su` as `-c` and the script line, and
      the script line reaches `vm.sh` as exactly the intended arguments,
      whatever the name holds. */
  lemma VmCommandWords(args: seq<string>)
    requires |args| > 0
    ensures ShellWords(VmCommand(args)) == Some(["su", "-c", ShellJoin(args)])
    ensures ShellWords(ShellJoin(args)) == Some(args)
  {
    SuReadsQuoted(ShellJoin(args));
    ShellJoinWords(args, []);
    assert [] + args == args;
  }

  lemma SuReadsQuoted(line: string)
    ensures ShellWords("su -c " + ShellQuote(line)) == Some(["su", "-c", line])
  {
    ReadSuPrefix(ShellQuote(line));
    ScanQuoted(line, "", None, ["su", "-c"]);
    assert ShellQuote(line) + "" == ShellQuote(line);
    assert Started(None) + line == line;
    assert Flush(["su", "-c"], Some(line)) == ["su", "-c", line];
  }

  lemma SuReadsSingleQuoted(line: string)
    requires '\'' !in line
    ensures ShellWords("su -c '" + line + "'") == Some(["su", "-c", line])
  {
    var s := "'" + (line + "'");
    assert "su -c '" + line + "'" == "su -c " + s;
    ReadSuPrefix(s);
    assert s[0] == '\'' && s[1..] == line + "'";
    assert Scan(s, Bare, None, ["su", "-c"]) == Scan(line + "'", InSingle, Some(""), ["su", "-c"]);
    ScanSingleRun(line, "'", "", ["su", "-c"]);
    assert "" + line == line;
    assert "'"[1..] == "";
    assert Flush(["su", "-c"], Some(line)) == ["su", "-c", line];
  }

  /** With a name of only the characters `shlex.quote` leaves alone (as the
      generated `<app>_<region>_NNN` names are), the command as written
      works. */
  lemma VmCommandAsWrittenSafe(args: seq<string>)
    requires |args| > 0
    requires forall k :: 0 <= k < |args| ==> args[k] != "" && forall i :: 0 <= i < |args[k]| ==> ShellSafe(args[k][i])
    ensures ShellWords(VmCommandAsWritten(args)) == Some(["su", "-c", ShellJoin(args)])
  {
    SafeJoinHasNoQuote(args);
    SuReadsSingleQuoted(ShellJoin(args));
  }

  lemma {:induction false} SafeJoinHasNoQuote(args: seq<string>)
    requires forall k :: 0 <= k < |args| ==> args[k] != "" && forall i :: 0 <= i < |args[k]| ==> ShellSafe(args[k][i])
    ensures '\'' !in ShellJoin(args)
    decreases |args|
  {
    if |args| > 1 {
      SafeJoinHasNoQuote(args[1..]);
    }
  }

  /** A name with a blank: `su` is handed `./vm.sh load my` as the command
      and `shop` as a further argument (the user to switch to), so `vm.sh`
      never sees the name. */
  lemma VmCommandAsWrittenSplitsName()
    ensures VmArgs("load", "my shop", "", "", "") == Some([VmScriptPath, "load", "my shop"])
    ensures ShellWords(VmCommandAsWritten([VmScriptPath, "load", "my shop"])) == Some(["su", "-c", "./vm.sh load my", "shop"])
  {
    MyShopArgs();
    MyShopSplit();
  }

  lemma MyShopArgs()
    ensures VmArgs("load", "my shop", "", "", "") == Some([VmScriptPath, "load", "my shop"])
  {
    var n := "my shop";
    assert Strip(n) == n by {
      assert IsStripped(n);
      StrippedFixpoint(n);
    }
  }

  lemma MyShopSplit()
    ensures ShellWords(VmCommandAsWritten([VmScriptPath, "load", "my shop"])) == Some(["su", "-c", "./vm.sh load my", "shop"])
  {
    assert "my shop" == "my" + " " + "shop";
    AsWrittenSplitsName("my", "shop");
    assert VmScriptPath + " load " + "my" == "./vm.sh load my";
  }

  /** The same for any name made of two words: `vm.sh` is handed the first
      word and `su` the second. */
  lemma AsWrittenSplitsName(y: string, z: string)
    requires |y| > 0 && |z| > 0 && (forall i :: 0 <= i < |y| ==> WordChar(y[i])) && forall i :: 0 <= i < |z| ==> WordChar(z[i])
    ensures ShellWords(VmCommandAsWritten([VmScriptPath, "load", y + " " + z])) == Some(["su", "-c", VmScriptPath + " load " + y, z])
  {
    var n := y + " " + z;
    var x := VmScriptPath + " load ";
    assert ShellJoin([VmScriptPath, "load", n]) == x + ("'" + n + "'") by {
      SpacedWords(y, z);
      AsWrittenLoadLine(n, |y|);
    }
    assert '\'' !in x by {
      LoadPrefixNoQuote();
    }
    AsWrittenNameSplit(x, y, z, [VmScriptPath, "load", n]);
  }

  /** Two words joined by a space hold no single quote, and the space is
      a character `shlex.quote` must quote. */
  lemma SpacedWords(y: string, z: string)
    requires (forall i :: 0 <= i < |y| ==> WordChar(y[i])) && forall i :: 0 <= i < |z| ==> WordChar(z[i])
    ensures '\'' !in y + " " + z && !ShellSafe((y + " " + z)[|y|])
  {
    var n := y + " " + z;
    assert forall i :: 0 <= i < |n| ==> n[i] != '\'' by {
      assert forall i :: 0 <= i < |y| ==> n[i] == y[i];
      assert forall i :: |y| < i < |n| ==> n[i] == z[i - |y| - 1];
    }
    assert n[|y|] == ' ';
  }

  lemma LoadPrefixNoQuote()
    ensures '\'' !in VmScriptPath + " load "
  {
    var x := VmScriptPath + " load ";
    assert forall i :: 0 <= i < |x| ==> x[i] != '\'';
  }

  /** The as-written command whose script line is `x` followed by the
      quoted `y z` splits after `y`. */
  lemma AsWrittenNameSplit(x: string, y: string, z: string, args: seq<string>)
    requires '\'' !in x
    requires |y| > 0 && |z| > 0 && (forall i :: 0 <= i < |y| ==> WordChar(y[i])) && forall i :: 0 <= i < |z| ==> WordChar(z[i])
    requires ShellJoin(args) == x + ("'" + (y + " " + z) + "'")
    ensures ShellWords(VmCommandAsWritten(args)) == Some(["su", "-c", x + y, z])
  {
    assert x + ("'" + (y + " " + z) + "'") == x + "'" + y + " " + z + "'";
    AsWrittenClosedEarly(x, y, z);
  }

  /** The as-written `load` command for a name `shlex.quote` must quote. */
  lemma AsWrittenLoadLine(n: string, k: int)
    requires 0 <= k < |n| && !ShellSafe(n[k]) && '\'' !in n
    ensures ShellJoin([VmScriptPath, "load", n]) == VmScriptPath + " load " + ("'" + n + "'")
  {
    var q := "'" + n + "'";
    assert ShellQuote(n) == q by {
      QuoteUnsafe(n, k);
    }
    assert ShellQuote(VmScriptPath) == VmScriptPath && ShellQuote("load") == "load" by {
      VerbsNeedNoQuotes();
    }
    JoinOfQuoted(VmScriptPath, "load", n, q);
    LoadSpacing(VmScriptPath, q);
  }

  lemma JoinOfQuoted(p: string, v: string, n: string, q: string)
    requires ShellQuote(p) == p && ShellQuote(v) == v && ShellQuote(n) == q
    ensures ShellJoin([p, v, n]) == p + " " + v + " " + q
  {
    Join3(p, v, n);
  }

  lemma LoadSpacing(p: string, q: string)
    ensures p + " " + "load" + " " + q == p + " load " + q
  {
    assert " " + "load" + " " == " load ";
    assert p + " " + "load" + " " + q == p + (" " + "load" + " ") + q;
  }

  /** A text with a character `shlex.quote` does not accept, and no single
      quote, is put between single quotes as it is. */
  lemma QuoteUnsafe(x: string, k: int)
    requires 0 <= k < |x| && !ShellSafe(x[k]) && '\'' !in x
    ensures ShellQuote(x) == "'" + x + "'"
  {
    EscapeNoQuote(x);
  }

  lemma AsWrittenClosedEarly(x: string, y: string, z: string)
    requires '\'' !in x
    requires |y| > 0 && |z| > 0 && (forall i :: 0 <= i < |y| ==> WordChar(y[i])) && forall i :: 0 <= i < |z| ==> WordChar(z[i])
    ensures ShellWords("su -c '" + (x + "'" + y + " " + z + "'") + "'") == Some(["su", "-c", x + y, z])
  {
    var rest := "'" + x + "'" + y + " " + z + "''";
    assert "su -c '" + (x + "'" + y + " " + z + "'") + "'" == "su -c " + rest;
    ReadSuPrefix(rest);
    ReadClosedEarly(x, y, z, ["su", "-c"]);
    assert ["su", "-c"] + [x + y, z] == ["su", "-c", x + y, z];
  }

  lemma Join3(a: string, b: string, c: string)
    ensures ShellJoin([a, b, c]) == ShellQuote(a) + " " + ShellQuote(b) + " " + ShellQuote(c)
  {
    var args := [a, b, c];
    assert args[1..] == [b, c] && [b, c][1..] == [c];
    assert ShellJoin([c]) == ShellQuote(c);
    assert ShellJoin([b, c]) == ShellQuote(b) + " " + ShellQuote(c);
    assert ShellJoin(args) == ShellQuote(a) + " " + ShellJoin([b, c]);
  }

  lemma {:induction false} EscapeNoQuote(x: string)
    requires '\'' !in x
    ensures EscapeQuotes(x) == x
    decreases |x|
  {
    if |x| > 0 {
      EscapeNoQuote(x[1..]);
      assert x == [x[0]] + x[1..];
    }
  }

  /** The shell's reading of `'x'y z''`: the second quote closes the first,
      so `y` joins `x` and the blank ends the word. */
  lemma ReadClosedEarly(x: string, y: string, z: string, acc: seq<string>)
    requires '\'' !in x
    requires |y| > 0 && |z| > 0 && (forall i :: 0 <= i < |y| ==> WordChar(y[i])) && forall i :: 0 <= i < |z| ==> WordChar(z[i])
    ensures Scan("'" + x + "'" + y + " " + z + "''", Bare, None, acc) == Some(acc + [x + y, z])
  {
    var r2 := "'" + (y + (" " + (z + "''")));
    var r1 := x + r2;
    var r0 := "'" + r1;
    assert r0 == "'" + x + "'" + y + " " + z + "''";
    assert r0[0] == '\'' && r0[1..] == r1;
    assert Scan(r0, Bare, None, acc) == Scan(r1, InSingle, Some(""), acc);
    ScanSingleRun(x, r2, "", acc);
    assert "" + x == x;
    var r3 := y + (" " + (z + "''"));
    assert r2[0] == '\'' && r2[1..] == r3;
    assert Scan(r2, InSingle, Some(x), acc) == Scan(r3, Bare, Some(x), acc);
    ScanBareRun(y, " " + (z + "''"), Some(x), acc);
    ScanBlank(z + "''", x + y, acc);
    var acc2 := acc + [x + y];
    ScanBareRun(z, "''", None, acc2);
    assert Started(None) + z == z;
    assert "''"[0] == '\'' && "''"[1..] == "'" && "'"[0] == '\'' && "'"[1..] == "";
    assert Scan("''", Bare, Some(z), acc2) == Scan("'", InSingle, Some(z), acc2);
    assert Scan("'", InSingle, Some(z), acc2) == Scan("", Bare, Some(z), acc2);
    assert acc2 + [z] == acc + [x + y, z];
  }

  /** The failure test as written: the last alternative looks for `Error`
      in the lower-cased output. */
  predicate ReportsFailureAsWritten(output: string)
  {
    Contains(output, "错误") || Contains(output, "❌") || Contains(Lower(output), "Error")
  }

  /** Lower-casing leaves no `E`, so the last alternative never holds. */
  lemma LowerHasNoError(output: string)
    ensures !Contains(Lower(output), "Error")
  {
    var lo := Lower(output);
    assert forall k :: 0 <= k < |lo| ==> lo[k] != 'E';
    forall i | 0 <= i <= |lo| - 5
      ensures !OccursAt(lo, "Error", i)
    {
      assert lo[i..i + 5][0] == lo[i];
    }
  }

  /** An output such as `Error: no such VM` counts as a success. */
  lemma AsWrittenMissesError()
    ensures !ReportsFailureAsWritten("Error: no such VM")
    ensures ReportsFailure("Error: no such VM")
  {
    var s := "Error: no such VM";
    LowerHasNoError(s);
    assert forall k :: 0 <= k < |s| ==> s[k] != "错误"[0] && s[k] != "❌"[0];
    forall i | 0 <= i < |s|
      ensures !OccursAt(s, "错误", i) && !OccursAt(s, "❌", i)
    {
      if i + 2 <= |s| {
        assert s[i..i + 2][0] == s[i];
      }
      assert s[i..i + 1][0] == s[i];
    }
    assert OccursAt(s, "Error", 0);
    ReportsFailureSpec(s);
  }

  /** The failure test with the lower-cased word: an error marker, or
      `error` in any letter case. */
  predicate ReportsFailure(output: string)
  {
    Contains(output, "错误") || Contains(output, "❌") || Contains(Lower(output), "error")
  }

  /** `Error`, `error` and `ERROR` in the output are all reported as
      failures; an empty output is not. */
  lemma ReportsFailureSpec(output: string)
    ensures Contains(output, "Error") || Contains(output, "error") || Contains(output, "ERROR") ==> ReportsFailure(output)
    ensures !ReportsFailure("")
  {
    LowerError();
    if Contains(output, "Error") {
      var i :| 0 <= i <= |output| - 5 && OccursAt(output, "Error", i);
      LowerOccurs(output, "Error", i);
    } else if Contains(output, "error") {
      var i :| 0 <= i <= |output| - 5 && OccursAt(output, "error", i);
      LowerOccurs(output, "error", i);
    } else if Contains(output, "ERROR") {
      var i :| 0 <= i <= |output| - 5 && OccursAt(output, "ERROR", i);
      LowerOccurs(output, "ERROR", i);
    }
  }

  lemma LowerError()
    ensures Lower("Error") == "error" && Lower("error") == "error" && Lower("ERROR") == "error"
  {
    assert |Lower("Error")| == 5;
    assert Lower("Error")[0] == 'e';
  }

  /** Lower-casing keeps where a word occurs. */
  lemma LowerOccurs(s: string, w: string, i: int)
    requires OccursAt(s, w, i)
    ensures OccursAt(Lower(s), Lower(w), i)
  {
    forall k | 0 <= k < |w|
      ensures Lower(s)[i..i + |w|][k] == Lower(w)[k]
    {
      assert s[i..i + |w|][k] == s[i + k];
    }
  }

  /** The pause after a successful `load` or `save`. */
  function PauseAfter(action: string): nat
  {
    if action == "load" then 10 else if action == "save" then 5 else 0
  }

  /** The script line `call_vm_script` builds from its arguments: the
      intended arguments quoted and joined by blanks, or `None` when it
      refuses. */
  method BuildScriptLine(action: string, name: string, appType: string, region: string, node: string)
    returns (line: Option<string>)
    ensures VmArgs(action, name, appType, region, node).None? ==> line.None?
    ensures VmArgs(action, name, appType, region, node).Some? ==>
      line == Some(ShellJoin(VmArgs(action, name, appType, region, node).value))
  {
    var n := Strip(name);
    if n == "" {
      return None;
    }
    var nameEscaped := ShellQuote(n);
    if action == "load" || action == "save" {
      LoadSaveLine(action, n);
      return Some(VmScriptPath + " " + action + " " + nameEscaped);
    } else if action == "new" {
      var app, reg, nd := OrDefault(appType, "Carousell"), OrDefault(region, "GB"), OrDefault(node, "UK-01");
      NewLine(n, app, reg, nd);
      return Some(VmScriptPath + " new " + nameEscaped + " " + ShellQuote(app) + " " + ShellQuote(reg) + " " + ShellQuote(nd));
    }
    return None;
  }

  /** `call_vm_script(action, name, app_type, region, node)` with the
      corrected command and failure test. `shell` gives the output of a
      command, `None` when the call raises. Returns the result, the command
      run and the pause taken. */
  method CallVmScript(action: string, name: string, appType: string, region: string, node: string,
                      shell: string -> Option<string>) returns (ok: bool, cmd: Option<string>, pause: nat)
    ensures VmArgs(action, name, appType, region, node).None? ==> !ok && cmd.None? && pause == 0
    ensures VmArgs(action, name, appType, region, node).Some? ==>
      cmd == Some(VmCommand(VmArgs(action, name, appType, region, node).value)) &&
      ok == (shell(cmd.value).Some? && !ReportsFailure(Strip(shell(cmd.value).value))) &&
      pause == (if ok then PauseAfter(action) else 0)
  {
    var line := BuildScriptLine(action, name, appType, region, node);
    if line.None? {
      return false, None, 0;
    }
    var command := "su -c " + ShellQuote(line.value);
    assert command == VmCommand(VmArgs(action, name, appType, region, node).value);
    cmd := Some(command);
    var result := shell(command);
    if result.None? {
      return false, cmd, 0;
    }
    if result.value != "" {
      var resultStr := Strip(result.value);
      if ReportsFailure(resultStr) {
        return false, cmd, 0;
      }
      return true, cmd, PauseAfter(action);
    }
    ReportsFailureSpec("");
    assert Strip("") == "";
    return true, cmd, PauseAfter(action);
  }

  /** The f-strings of `call_vm_script` are the quoted arguments joined by
      blanks: for `load` and `save`, ... */
  lemma LoadSaveLine(action: string, n: string)
    requires action == "load" || action == "save"
    ensures ShellJoin([VmScriptPath, action, n]) == VmScriptPath + " " + action + " " + ShellQuote(n)
  {
    VerbsNeedNoQuotes();
    Join3(VmScriptPath, action, n);
  }

  /** ... and for `new`. */
  lemma NewLine(n: string, app: string, reg: string, nd: string)
    ensures ShellJoin([VmScriptPath, "new", n, app, reg, nd]) ==
      VmScriptPath + " new " + ShellQuote(n) + " " + ShellQuote(app) + " " + ShellQuote(reg) + " " + ShellQuote(nd)
  {
    var tail := ShellQuote(n) + " " + (ShellQuote(app) + " " + (ShellQuote(reg) + " " + ShellQuote(nd)));
    JoinSix(VmScriptPath, "new", n, app, reg, nd);
    NewPrefix(tail);
    Regroup(VmScriptPath + " new ", ShellQuote(n), ShellQuote(app), ShellQuote(reg), ShellQuote(nd));
  }

  lemma Regroup(p: string, a: string, b: string, c: string, d: string)
    ensures p + a + " " + b + " " + c + " " + d == p + (a + " " + (b + " " + (c + " " + d)))
  {
  }

  lemma NewPrefix(tail: string)
    ensures ShellQuote(VmScriptPath) + " " + (ShellQuote("new") + " " + tail) == VmScriptPath + " new " + tail
  {
    assert ShellQuote(VmScriptPath) == VmScriptPath && ShellQuote("new") == "new" by {
      VerbsNeedNoQuotes();
    }
    SpacedPair(VmScriptPath, "new", tail);
    assert " " + "new" + " " == " new ";
  }

  lemma SpacedPair(p: string, v: string, tail: string)
    ensures p + " " + (v + " " + tail) == p + (" " + v + " ") + tail
  {
  }

  lemma JoinSix(a: string, b: string, c: string, d: string, e: string, f: string)
    ensures ShellJoin([a, b, c, d, e, f]) ==
      ShellQuote(a) + " " + (ShellQuote(b) + " " + (ShellQuote(c) + " " + (ShellQuote(d) + " " + (ShellQuote(e) + " " + ShellQuote(f)))))
  {
    assert ShellJoin([a, b, c, d, e, f]) == ShellQuote(a) + " " + ShellJoin([b, c, d, e, f]) by {
      JoinCons(a, [b, c, d, e, f]);
      assert [a] + [b, c, d, e, f] == [a, b, c, d, e, f];
    }
    assert ShellJoin([b, c, d, e, f]) == ShellQuote(b) + " " + ShellJoin([c, d, e, f]) by {
      JoinCons(b, [c, d, e, f]);
      assert [b] + [c, d, e, f] == [b, c, d, e, f];
    }
    assert ShellJoin([c, d, e, f]) == ShellQuote(c) + " " + ShellJoin([d, e, f]) by {
      JoinCons(c, [d, e, f]);
      assert [c] + [d, e, f] == [c, d, e, f];
    }
    assert ShellJoin([d, e, f]) == ShellQuote(d) + " " + ShellJoin([e, f]) by {
      JoinCons(d, [e, f]);
      assert [d] + [e, f] == [d, e, f];
    }
    assert ShellJoin([e, f]) == ShellQuote(e) + " " + ShellJoin([f]) by {
      JoinCons(e, [f]);
      assert [e] + [f] == [e, f];
    }
  }

  lemma JoinCons(x: string, rest: seq<string>)
    requires |rest| > 0
    ensures ShellJoin([x] + rest) == ShellQuote(x) + " " + ShellJoin(rest)
  {
    assert ([x] + rest)[1..] == rest;
  }
}
