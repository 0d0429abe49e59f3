/** The bounded metrics history: append, then evict the oldest record once the cap is
    exceeded. */
module History {

  /** `max_history_size` of the monitor. */
  const MaxHistorySize: nat := 1000

  /** The last `min(|s|, MaxHistorySize)` elements of `s`: the reference definition of
      what a capped FIFO history holds. */
  function Window<T>(s: seq<T>): (w: seq<T>)
    ensures |w| <= MaxHistorySize
    ensures |s| <= MaxHistorySize ==> w == s
  {
    if |s| <= MaxHistorySize then s else s[|s| - MaxHistorySize..]
  }

  /** Appends `x` to the history and, when that makes it longer than the cap, drops the
      element at index 0. From a history within the cap the result stays within it,
      ends in `x`, and is the tail of `h + [x]` that keeps everything it can. */
  function Record<T>(h: seq<T>, x: T): (r: seq<T>)
    ensures |h| <= MaxHistorySize ==> |r| <= MaxHistorySize
    ensures |r| > 0 && r[|r| - 1] == x
    ensures |r| == if |h| < MaxHistorySize then |h| + 1 else |h|
    ensures r == (h + [x])[|h| + 1 - |r|..]
    ensures |h| <= MaxHistorySize ==> r == Window(h + [x])
  {
    var appended := h + [x];
    if |appended| > MaxHistorySize then appended[1..] else appended
  }

  /** Within the cap, recording grows the history by one until it is full, then keeps
      it full. */
  lemma RecordLength<T>(h: seq<T>, x: T)
    requires |h| <= MaxHistorySize
    ensures |Record(h, x)| == if |h| < MaxHistorySize then |h| + 1 else MaxHistorySize
  {
  }

  /** Records each element of `xs`, in order. */
  function RecordAll<T>(h: seq<T>, xs: seq<T>): seq<T>
    decreases |xs|
  {
    if |xs| == 0 then h else RecordAll(Record(h, xs[0]), xs[1..])
  }

  /** A tail of `s` at least as long as the cap has the same window as `s`. */
  lemma WindowOfLongTail<T>(s: seq<T>, k: nat)
    requires k <= |s|
    requires |s| - k >= MaxHistorySize
    ensures Window(s[k..]) == Window(s)
  {
  }

  /** Recording one element and then appending the rest does not change the window. */
  lemma RecordKeepsWindow<T>(h: seq<T>, xs: seq<T>)
    requires |h| <= MaxHistorySize
    requires |xs| > 0
    ensures Window(Record(h, xs[0]) + xs[1..]) == Window(h + xs)
  {
    var h' := Record(h, xs[0]);
    if |h| < MaxHistorySize {
      assert h' + xs[1..] == h + xs;
    } else {
      assert h' + xs[1..] == (h + xs)[1..];
      WindowOfLongTail(h + xs, 1);
    }
  }

  /** Recording a whole sequence from a history within the cap leaves exactly the
      window of everything seen: the newest records, in arrival order, oldest evicted
      first. */
  lemma {:induction false} RecordAllIsWindow<T>(h: seq<T>, xs: seq<T>)
    requires |h| <= MaxHistorySize
    ensures RecordAll(h, xs) == Window(h + xs)
    decreases |xs|
  {
    if |xs| > 0 {
      RecordAllIsWindow(Record(h, xs[0]), xs[1..]);
      RecordKeepsWindow(h, xs);
    }
  }

  /** From an empty history, after `n` records the history holds `min(n, cap)` of them. */
  lemma HistoryLength<T>(xs: seq<T>)
    ensures |RecordAll([], xs)| == if |xs| <= MaxHistorySize then |xs| else MaxHistorySize
  {
    RecordAllIsWindow([], xs);
    assert [] + xs == xs;
  }
}
