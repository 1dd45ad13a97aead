/**
  Source context for stack frames: a reader that loads a source file once, splits it
  into lines and keeps the result in a cache, a window of up to `context` lines either
  side of a 1-indexed line, and the splitting of that window into the text before,
  the line itself and the text after.

  Go strings here hold bytes, so every text is a `Bytes`.
*/
module ErrorContext {
  import opened Wrappers
  import Splitting
  import Highlight

  type Bytes = seq<bv8>

  const Newline: bv8 := 10

  /** The file system as `ioutil.ReadFile` sees it: a name that is absent cannot be read. */
  type FileSystem = map<string, Bytes>

  /** FrameWithContext: a stack frame with the source text around its line. */
  datatype FrameWithContext = FrameWithContext(
    frame: Highlight.Frame,
    linesBefore: Bytes,
    lineContent: Bytes,
    linesAfter: Bytes)

  /** What calculateContextLines returns: a sub-slice (nil as `None`) and the target's index in it. */
  datatype Window = Window(lines: Option<seq<Bytes>>, contextLine: int)

  function Max(a: int, b: int): int { if a < b then b else a }
  function Min(a: int, b: int): int { if a < b then a else b }

  /**
    calculateContextLines: for a 1-indexed `line` inside `lines`, the lines from
    `context` lines before it to `context` lines after it, clipped to the file (a
    negative `context` counts as 0), and where in that window the line itself sits.
    Missing lines or a line outside the file give `(nil, 0)`.
  */
  function CalculateContextLines(lines: Option<seq<Bytes>>, line: int, context: int): (w: Window)
    ensures w.lines.None? <==> lines.None? || line < 1 || line > |lines.value|
    ensures w.lines.None? ==> w.contextLine == 0
    ensures w.lines.Some? ==>
      var all, ws, k, c := lines.value, w.lines.value, w.contextLine, Max(context, 0);
      && 0 <= k < |ws|
      && ws[k] == all[line - 1]
      && k == Min(c, line - 1)
      && |ws| - 1 - k == Min(c, |all| - line)
      && ws == all[line - 1 - k .. line - 1 - k + |ws|]
      && |ws| <= 2 * c + 1
  {
    var target := line - 1;
    if lines.None? || target >= |lines.value| || target < 0 then Window(None, 0)
    else
      var c := if context < 0 then 0 else context;
      var start := if target - c < 0 then 0 else target - c;
      var contextLine := if target - c < 0 then target else c;
      var end := if target + c + 1 > |lines.value| then |lines.value| else target + c + 1;
      Window(Some(lines.value[start..end]), contextLine)
  }

  /** The bytes of `lines[lo..hi]`, one line after another, with nothing between them. */
  function Concat(lines: seq<Bytes>, lo: nat, hi: nat): Bytes
    requires lo <= hi <= |lines|
    decreases hi
  {
    if lo == hi then [] else Concat(lines, lo, hi - 1) + lines[hi - 1]
  }

  /** Concatenating a range is concatenating its two halves. */
  lemma {:induction false} ConcatSplit(lines: seq<Bytes>, lo: nat, mid: nat, hi: nat)
    requires lo <= mid <= hi <= |lines|
    ensures Concat(lines, lo, hi) == Concat(lines, lo, mid) + Concat(lines, mid, hi)
    decreases hi
  {
    if mid < hi {
      ConcatSplit(lines, lo, mid, hi - 1);
    }
  }

  /** `x` pinned into `[0, n]`. */
  function Clamp(x: int, n: nat): (r: nat)
    ensures r <= n
    ensures 0 <= x <= n ==> r == x
  {
    if x < 0 then 0 else if x > n then n else x
  }

  /**
    addContextLinesToFrame: the lines before `contextLine` are appended to
    `linesBefore`, the line at `contextLine` (when there is one) becomes
    `lineContent`, the lines after it are appended to `linesAfter`; the frame itself
    is kept.
  */
  method AddContextLinesToFrame(frame: FrameWithContext, lines: seq<Bytes>, contextLine: int)
    returns (r: FrameWithContext)
    ensures r.frame == frame.frame
    ensures r.linesBefore == frame.linesBefore + Concat(lines, 0, Clamp(contextLine, |lines|))
    ensures r.lineContent == if 0 <= contextLine < |lines| then lines[contextLine] else frame.lineContent
    ensures r.linesAfter == frame.linesAfter + Concat(lines, Clamp(contextLine + 1, |lines|), |lines|)
  {
    r := frame;
    var i := 0;
    while i < |lines|
      invariant 0 <= i <= |lines|
      invariant r.frame == frame.frame
      invariant r.linesBefore == frame.linesBefore + Concat(lines, 0, Clamp(contextLine, i))
      invariant r.lineContent == if 0 <= contextLine < i then lines[contextLine] else frame.lineContent
      invariant r.linesAfter == frame.linesAfter + Concat(lines, Clamp(contextLine + 1, i), i)
    {
      var line := lines[i];
      if i < contextLine {
        r := r.(linesBefore := r.linesBefore + line);
      } else if i == contextLine {
        r := r.(lineContent := line);
      } else {
        r := r.(linesAfter := r.linesAfter + line);
      }
      i := i + 1;
    }
  }

  /**
    The three texts of a frame filled from a window partition it: what goes before,
    the line, and what goes after, put back together, are the whole window.
  */
  lemma {:induction false} WindowPartition(ws: seq<Bytes>, k: int)
    requires 0 <= k < |ws|
    ensures Concat(ws, 0, Clamp(k, |ws|)) + ws[k] + Concat(ws, Clamp(k + 1, |ws|), |ws|)
         == Concat(ws, 0, |ws|)
  {
    ConcatSplit(ws, 0, k + 1, |ws|);
  }

  /**
    The cache entry for a file not yet cached: nil when it cannot be read, otherwise
    its lines as `bytes.Split` on `\n` gives them.
  */
  function Load(fs: FileSystem, filename: string): (r: Option<seq<Bytes>>)
    ensures r.None? <==> filename !in fs
    ensures r.Some? ==> |r.value| >= 1
    ensures r.Some? ==> forall i :: 0 <= i < |r.value| ==> Newline !in r.value[i]
    ensures r.Some? ==> Splitting.Join(r.value, Newline) == fs[filename]
  {
    if filename in fs then
      Splitting.SplitJoin(fs[filename], Newline);
      Splitting.SplitSeparatorFree(fs[filename], Newline);
      Some(Splitting.Split(fs[filename], Newline))
    else None
  }

  /** sourceReader: the cache of split source files, keyed by file name. */
  class SourceReader {
    var cache: map<string, Option<seq<Bytes>>>

    /** newSourceReader: an empty cache. */
    constructor ()
      ensures cache == map[]
    {
      cache := map[];
    }

    /**
      readContextLines: the file is read only when its name is not cached yet, and the
      window is computed from the cached lines; an unreadable file is cached as nil
      and gives `(nil, 0)` now and on every later call.
    */
    method ReadContextLines(fs: FileSystem, filename: string, line: int, context: int)
      returns (w: Window)
      modifies this
      ensures filename in old(cache) ==> cache == old(cache)
      ensures filename !in old(cache) ==> cache == old(cache)[filename := Load(fs, filename)]
      ensures filename in cache && w == CalculateContextLines(cache[filename], line, context)
      ensures cache[filename].None? ==> w == Window(None, 0)
    {
      var lines: Option<seq<Bytes>>;
      if filename in cache {
        lines := cache[filename];
      } else {
        if filename !in fs {
          cache := cache[filename := None];
          return Window(None, 0);
        }
        lines := Load(fs, filename);
        cache := cache[filename := lines];
      }
      w := CalculateContextLines(lines, line, context);
    }
  }
}
