/**
 * The trajectory reader (PQAnalysis/io/traj_file/trajectory_reader.py):
 * how many frames each file holds, the checks and the sliding windows of
 * `window_generator`, and how a vacuum frame takes over the cell of the
 * frame before it. Files are given as their lists of lines; parsing a
 * frame's text is the frame reader's business.
 */
module TrajectoryReader {

  import opened Common

  // ---------------------------------------------------------------------
  // Python's integer division

  /** Python's `a // b`, which rounds toward minus infinity. */
  function FloorDiv(a: int, b: int): (q: int)
    requires b != 0
    ensures b > 0 ==> b * q <= a < b * q + b
    ensures b < 0 ==> b * q + b < a <= b * q
  {
    if b > 0 then a / b else (-a) / (-b)
  }

  /** Python's `a % b`, which takes the sign of `b`. */
  function FloorMod(a: int, b: int): (m: int)
    requires b != 0
    ensures b * FloorDiv(a, b) + m == a
    ensures b > 0 ==> 0 <= m < b
    ensures b < 0 ==> b < m <= 0
  {
    a - b * FloorDiv(a, b)
  }

  // ---------------------------------------------------------------------
  // Frames per file

  /**
   * `calculate_frame_size`: the atom count in the first word of the first
   * line, plus the count line and the comment line; a missing or non-integer
   * word is a TrajectoryReaderError.
   */
  function FrameSize(lines: seq<string>): (r: Result<int>)
    requires |lines| > 0
    ensures r.Ok? <==> |Words(lines[0])| > 0 && ParseInt(Words(lines[0])[0]).Some?
    ensures r.Ok? ==> r.value == ParseInt(Words(lines[0])[0]).value + 2
    ensures r.Err? ==> r.error == "TrajectoryReaderError"
  {
    var ws := Words(lines[0]);
    if |ws| == 0 then Err("TrajectoryReaderError")
    else match ParseInt(ws[0])
      case None => Err("TrajectoryReaderError")
      case Some(n) => Ok(n + 2)
  }

  /**
   * The frames of one file: an empty file has none to report (`None`);
   * otherwise the line count must be a whole number of frames
   * (`divmod(n_lines, frame_size)`), a frame size of 0 being Python's
   * ZeroDivisionError.
   */
  function FileFrames(lines: seq<string>): (r: Result<Option<int>>)
    ensures lines == [] <==> r == Ok(None)
    ensures r.Ok? && r.value.Some? ==> FrameSize(lines).Ok? && r.value.value * FrameSize(lines).value == |lines|
    ensures lines != [] && FrameSize(lines).Ok? && FrameSize(lines).value != 0 ==>
              (r.Ok? <==> FloorMod(|lines|, FrameSize(lines).value) == 0)
  {
    if lines == [] then Ok(None)
    else match FrameSize(lines)
      case Err(e) => Err(e)
      case Ok(size) =>
        if size == 0 then Err("ZeroDivisionError")
        else if FloorMod(|lines|, size) != 0 then Err("TrajectoryReaderError")
        else Ok(Some(FloorDiv(|lines|, size)))
  }

  /** The count a file contributes to the corrected list: 0 for an empty file. */
  function Count(o: Option<int>): int
  {
    if o.Some? then o.value else 0
  }

  /**
   * `calculate_number_of_frames_per_file` as written: the `continue` for an
   * empty file skips the append, so that file gets no entry.
   */
  function FramesPerFileAsWritten(files: seq<seq<string>>): Result<seq<int>>
  {
    if files == [] then Ok([])
    else match FramesPerFileAsWritten(files[..|files| - 1])
      case Err(e) => Err(e)
      case Ok(counts) =>
        match FileFrames(files[|files| - 1])
        case Err(e) => Err(e)
        case Ok(None) => Ok(counts)
        case Ok(Some(n)) => Ok(counts + [n])
  }

  /**
   * An empty first file shifts every count one place to the left: with a
   * second file of `n` frames the list is `[n]`, so `frame_generator`
   * reads `n` as the first file's count and indexes past the list's end
   * for the second file.
   */
  lemma EmptyFileShiftsCounts(files: seq<seq<string>>, n: int)
    requires |files| == 2 && files[0] == [] && FileFrames(files[1]) == Ok(Some(n))
    ensures FramesPerFileAsWritten(files) == Ok([n])
  {
    assert files[..1] == [files[0]];
    assert files[..1][..0] == [];
    assert FramesPerFileAsWritten(files[..1][..0]) == Ok([]);
    assert FileFrames(files[..1][0]) == Ok(None);
    assert FramesPerFileAsWritten(files[..1]) == Ok([]);
    assert files[..|files| - 1] == files[..1] && files[|files| - 1] == files[1];
    assert [] + [n] == [n];
  }

  /**
   * The evident intent: one count per file, 0 for an empty one, in the
   * files' order.
   */
  function FramesPerFile(files: seq<seq<string>>): (r: Result<seq<int>>)
    ensures r.Ok? ==> |r.value| == |files|
    ensures r.Ok? ==> forall i :: 0 <= i < |files| ==> FileFrames(files[i]).Ok? && r.value[i] == Count(FileFrames(files[i]).value)
  {
    if files == [] then Ok([])
    else match FramesPerFile(files[..|files| - 1])
      case Err(e) => Err(e)
      case Ok(counts) =>
        match FileFrames(files[|files| - 1])
        case Err(e) => Err(e)
        case Ok(o) =>
          assert forall i :: 0 <= i < |files| - 1 ==> files[..|files| - 1][i] == files[i];
          Ok(counts + [Count(o)])
  }

  /** The first file that fails decides the error of the whole list. */
  lemma {:induction false} FramesPerFileFails(files: seq<seq<string>>, i: nat)
    requires i < |files| && FileFrames(files[i]).Err?
    ensures FramesPerFile(files).Err?
  {
    var n := |files|;
    if i < n - 1 {
      assert files[..n - 1][i] == files[i];
      FramesPerFileFails(files[..n - 1], i);
    }
  }

  /** Leaving the empty files out changes no total: both lists sum to the same frames. */
  lemma {:induction false} SameTotal(files: seq<seq<string>>)
    requires FramesPerFile(files).Ok?
    ensures FramesPerFileAsWritten(files).Ok?
    ensures SumInt(FramesPerFileAsWritten(files).value) == SumInt(FramesPerFile(files).value)
  {
    if files != [] {
      var init := files[..|files| - 1];
      SameTotal(init);
      var o := FileFrames(files[|files| - 1]).value;
      var a := FramesPerFileAsWritten(init).value;
      var c := FramesPerFile(init).value;
      SumIntSnoc(c, Count(o));
      if o.Some? {
        SumIntSnoc(a, o.value);
      }
    }
  }

  function SumInt(xs: seq<int>): int
  {
    if xs == [] then 0 else SumInt(xs[..|xs| - 1]) + xs[|xs| - 1]
  }

  lemma SumIntSnoc(xs: seq<int>, x: int)
    ensures SumInt(xs + [x]) == SumInt(xs) + x
  {
    assert (xs + [x])[..|xs|] == xs;
  }

  /** `calculate_number_of_frames_per_file`, corrected as in `FramesPerFile`. */
  method CalculateFramesPerFile(files: seq<seq<string>>) returns (r: Result<seq<int>>)
    ensures r == FramesPerFile(files)
  {
    var counts := [];
    for i := 0 to |files|
      invariant FramesPerFile(files[..i]) == Ok(counts)
    {
      assert files[..i + 1][..i] == files[..i];
      var frames := FileFrames(files[i]);
      if frames.Err? {
        FramesPerFileFails(files[..i + 1], i);
        assert FramesPerFile(files[..i + 1]) == Err(frames.error);
        FailureStays(files, i + 1);
        return Err(frames.error);
      }
      counts := counts + [Count(frames.value)];
    }
    assert files[..|files|] == files;
    return Ok(counts);
  }

  /** A failure among the first files is the failure of all of them. */
  lemma {:induction false} FailureStays(files: seq<seq<string>>, i: nat)
    requires i <= |files| && FramesPerFile(files[..i]).Err?
    ensures FramesPerFile(files) == FramesPerFile(files[..i])
    decreases |files| - i
  {
    if i < |files| {
      assert files[..i + 1][..i] == files[..i];
      FailureStays(files, i + 1);
    } else {
      assert files[..i] == files;
    }
  }

  // ---------------------------------------------------------------------
  // window_generator

  /**
   * The checks of `window_generator` over a trajectory of `length` frames;
   * the stop defaults to the length. Each failure is a PQIndexError.
   */
  function WindowStop(length: int, size: int, gap: int, start: int, stop: Option<int>): (r: Result<int>)
    ensures r.Ok? <==> var s := if stop.Some? then stop.value else length;
              && 0 <= start <= length && 0 <= s <= length && start < s
              && 1 <= size <= length && 1 <= gap <= length && size <= s - start
    ensures r.Ok? ==> r.value == if stop.Some? then stop.value else length
    ensures r.Err? ==> r.error == "PQIndexError"
  {
    var s := if stop.Some? then stop.value else length;
    if start < 0 || start > length then Err("PQIndexError")
    else if s < 0 || s > length then Err("PQIndexError")
    else if start >= s then Err("PQIndexError")
    else if size < 1 || size > length then Err("PQIndexError")
    else if gap < 1 || gap > length then Err("PQIndexError")
    else if size > s - start then Err("PQIndexError")
    else Ok(s)
  }

  /** The warning: the windows do not reach the stop exactly. */
  predicate Warns(size: int, gap: int, start: int, stop: int)
    requires gap >= 1
  {
    ((stop - start) - size) % gap != 0
  }

  /** Where window `k` starts. */
  function WindowStart(start: int, k: int, gap: int): int
  {
    start + k * gap
  }

  /** How many windows fit: the first, then one per gap while a window still fits. */
  function WindowCount(size: int, gap: int, start: int, stop: int): (n: int)
    requires gap >= 1 && size <= stop - start
    ensures n >= 1
    ensures WindowStart(start, n - 1, gap) + size <= stop < WindowStart(start, n, gap) + size
  {
    var q := ((stop - start) - size) / gap;
    DivisionBounds((stop - start) - size, gap, q);
    q + 1
  }

  lemma DivisionBounds(a: int, d: int, q: int)
    requires a >= 0 && d >= 1 && q == a / d
    ensures q >= 0 && q * d <= a < (q + 1) * d
  {
  }

  /**
   * No warning exactly when the last window ends at the stop, so every
   * frame in the range lies in some window.
   */
  lemma WarningIffFramesLeftOver(size: int, gap: int, start: int, stop: int)
    requires gap >= 1 && size <= stop - start
    ensures !Warns(size, gap, start, stop) <==>
            WindowStart(start, WindowCount(size, gap, start, stop) - 1, gap) + size == stop
  {
    var a := (stop - start) - size;
    var q := a / gap;
    assert a == q * gap + a % gap;
    assert WindowStart(start, q, gap) + size == stop - a % gap;
  }

  /** The first `k` windows of `size` frames, `gap` apart from `start`. */
  ghost predicate AreWindows<T>(ws: seq<seq<T>>, frames: seq<T>, size: int, gap: int, start: int)
  {
    forall k :: 0 <= k < |ws| ==>
      0 <= WindowStart(start, k, gap) <= WindowStart(start, k, gap) + size <= |frames|
      && ws[k] == frames[WindowStart(start, k, gap)..WindowStart(start, k, gap) + size]
  }

  /**
   * `window_generator`: after the checks, the first window is the first
   * `size` frames from `start`; each next one drops `gap` frames at the
   * front and takes `gap` new ones at the back. The frames are the
   * trajectory's, in order; `warning` is whether the warning is logged.
   */
  method WindowGenerator<T>(frames: seq<T>, size: int, gap: int, start: int, stop: Option<int>)
    returns (r: Result<seq<seq<T>>>, warning: bool)
    ensures r.Err? <==> WindowStop(|frames|, size, gap, start, stop).Err?
    ensures r.Err? ==> r.error == "PQIndexError"
    ensures r.Ok? ==> var s := WindowStop(|frames|, size, gap, start, stop).value;
              && warning == Warns(size, gap, start, s)
              && |r.value| == WindowCount(size, gap, start, s)
              && AreWindows(r.value, frames, size, gap, start)
  {
    var checked := WindowStop(|frames|, size, gap, start, stop);
    if checked.Err? {
      return Err(checked.error), false;
    }
    var s := checked.value;
    warning := ((s - start) - size) % gap != 0;
    var windows := Windows(frames, size, gap, start, s);
    return Ok(windows), warning;
  }

  /** The windows once the checks have passed and the stop is known. */
  method Windows<T>(frames: seq<T>, size: int, gap: int, start: int, stop: int) returns (windows: seq<seq<T>>)
    requires 0 <= start && stop <= |frames| && 1 <= size <= stop - start && gap >= 1
    ensures |windows| == WindowCount(size, gap, start, stop)
    ensures AreWindows(windows, frames, size, gap, start)
  {
    var window := FirstWindow(frames, size, start);
    var next := start + size;
    windows := [window];
    var v := start + gap;
    ghost var k := 1;
    assert WindowStart(start, 0, gap) == start;
    while v < stop - size + 1
      invariant v == WindowStart(start, k, gap) && next == v - gap + size
      invariant 1 <= k && WindowStart(start, k - 1, gap) + size <= stop
      invariant |windows| == k && AreWindows(windows, frames, size, gap, start)
      invariant window == frames[next - size..next]
      decreases stop - v
    {
      window := Slide(frames, window, next, gap, size);
      next := next + gap;
      StartNext(start, k, gap);
      AreWindowsSnoc(windows, frames, size, gap, start, window);
      windows := windows + [window];
      k := k + 1;
      v := v + gap;
    }
    WindowCountIs(size, gap, start, stop, k);
  }

  /** `next(generator)` taken `size` times from `start`. */
  method FirstWindow<T>(frames: seq<T>, size: int, start: int) returns (window: seq<T>)
    requires 0 <= start && 0 <= size && start + size <= |frames|
    ensures window == frames[start..start + size]
  {
    window := [];
    for i := 0 to size
      invariant window == frames[start..start + i]
    {
      window := window + [frames[start + i]];
    }
  }

  lemma StartNext(start: int, k: int, gap: int)
    ensures WindowStart(start, k + 1, gap) == WindowStart(start, k, gap) + gap
  {
    assert (k + 1) * gap == k * gap + gap;
  }

  lemma AreWindowsSnoc<T>(ws: seq<seq<T>>, frames: seq<T>, size: int, gap: int, start: int, w: seq<T>)
    requires AreWindows(ws, frames, size, gap, start)
    requires var b := WindowStart(start, |ws|, gap); 0 <= b <= b + size <= |frames| && w == frames[b..b + size]
    ensures AreWindows(ws + [w], frames, size, gap, start)
  {
    forall k | 0 <= k < |ws| + 1
      ensures var b := WindowStart(start, k, gap); 0 <= b <= b + size <= |frames| && (ws + [w])[k] == frames[b..b + size]
    {
      if k < |ws| {
        assert (ws + [w])[k] == ws[k];
      }
    }
  }

  /** The loop stops at the window count. */
  lemma WindowCountIs(size: int, gap: int, start: int, stop: int, k: int)
    requires gap >= 1 && size <= stop - start && k >= 1
    requires WindowStart(start, k - 1, gap) + size <= stop < WindowStart(start, k, gap) + size
    ensures k == WindowCount(size, gap, start, stop)
  {
    var n := WindowCount(size, gap, start, stop);
    if k < n {
      StartsGrow(start, gap, k, n - 1);
    } else if k > n {
      StartsGrow(start, gap, n, k - 1);
    }
  }

  lemma StartsGrow(start: int, gap: int, a: int, b: int)
    requires gap >= 1 && a <= b
    ensures WindowStart(start, a, gap) <= WindowStart(start, b, gap)
  {
    assert WindowStart(start, b, gap) - WindowStart(start, a, gap) == (b - a) * gap;
  }

  /** `gap` times: `window.pop(0)` and `window.append(next(generator))`. */
  method Slide<T>(frames: seq<T>, window: seq<T>, next: int, gap: int, size: int) returns (w: seq<T>)
    requires 1 <= size <= next && next + gap <= |frames| && gap >= 1
    requires window == frames[next - size..next]
    ensures w == frames[next + gap - size..next + gap]
  {
    w := window;
    for j := 0 to gap
      invariant w == frames[next + j - size..next + j]
    {
      w := w[1..] + [frames[next + j]];
    }
  }

  // ---------------------------------------------------------------------
  // Cells of a vacuum frame

  /**
   * The cells the frames end up with: a vacuum cell is replaced by the cell
   * of the frame before (once there is one).
   */
  function Inherited<C>(cells: seq<C>, isVacuum: C -> bool): (r: seq<C>)
    ensures |r| == |cells|
  {
    if cells == [] then []
    else
      var init := Inherited(cells[..|cells| - 1], isVacuum);
      var c := cells[|cells| - 1];
      init + [if isVacuum(c) && init != [] then init[|init| - 1] else c]
  }

  /**
   * Frame by frame: the first frame keeps its cell, a later vacuum frame
   * takes the cell its predecessor ended up with, and any other frame
   * keeps its own.
   */
  lemma {:induction false} InheritedAt<C>(cells: seq<C>, isVacuum: C -> bool, i: nat)
    requires i < |cells|
    ensures Inherited(cells, isVacuum)[i] ==
            if i > 0 && isVacuum(cells[i]) then Inherited(cells, isVacuum)[i - 1] else cells[i]
  {
    var n := |cells|;
    var init := cells[..n - 1];
    if i < n - 1 {
      InheritedAt(init, isVacuum, i);
      assert init[i] == cells[i];
    }
  }

  /** Once a frame has a periodic cell, no later frame is left with a vacuum one. */
  lemma {:induction false} NoVacuumAfterPeriodic<C>(cells: seq<C>, isVacuum: C -> bool, j: nat, i: nat)
    requires j <= i < |cells| && !isVacuum(cells[j])
    ensures !isVacuum(Inherited(cells, isVacuum)[i])
    decreases i - j
  {
    InheritedAt(cells, isVacuum, i);
    if i > j && isVacuum(cells[i]) {
      NoVacuumAfterPeriodic(cells, isVacuum, j, i - 1);
    }
  }

  /**
   * The loop of `frame_generator` over the frames read: `last_cell` starts
   * empty, a vacuum frame takes it when there is one, and every frame's
   * cell becomes the new `last_cell`.
   */
  method InheritCells<C>(cells: seq<C>, isVacuum: C -> bool) returns (out: seq<C>)
    ensures out == Inherited(cells, isVacuum)
  {
    out := [];
    var last: Option<C> := None;
    for i := 0 to |cells|
      invariant out == Inherited(cells[..i], isVacuum)
      invariant last.None? <==> i == 0
      invariant last.Some? ==> last.value == out[i - 1]
    {
      assert cells[..i + 1][..i] == cells[..i];
      var cell := cells[i];
      if isVacuum(cell) && last.Some? {
        cell := last.value;
      }
      last := Some(cell);
      out := out + [cell];
    }
    assert cells[..|cells|] == cells;
  }
}
