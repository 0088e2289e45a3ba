/** The fixed-length lists the main loop keeps: created as `[fill] * n`, then
    updated by dropping the oldest entry (`pop(0)`) and appending the newest. */
module Windows {

  /** One update of a list: `pop(0)` followed by `append(x)`. */
  function Push<T>(w: seq<T>, x: T): (r: seq<T>)
    requires |w| >= 1
    ensures |r| == |w|
    ensures r[|r| - 1] == x
    ensures forall i | 0 <= i < |w| - 1 :: r[i] == w[i + 1]
  {
    w[1..] + [x]
  }

  /** The list `[fill] * n` after the values of h were pushed, oldest first. */
  function Window<T>(fill: T, n: nat, h: seq<T>): (w: seq<T>)
    requires n >= 1
    ensures |w| == n
    decreases |h|
  {
    if h == [] then seq(n, _ => fill)
    else Push(Window(fill, n, h[..|h| - 1]), h[|h| - 1])
  }

  /** Pushing one more value onto a window is the window of the longer history. */
  lemma WindowPush<T>(fill: T, n: nat, h: seq<T>, x: T)
    requires n >= 1
    ensures Window(fill, n, h + [x]) == Push(Window(fill, n, h), x)
  {
    assert (h + [x])[..|h|] == h;
  }

  /** Closed form: entry i holds a fill value while fewer than n - i values have
      been pushed, and otherwise the value pushed n - 1 - i updates ago. */
  lemma {:induction false} WindowAt<T>(fill: T, n: nat, h: seq<T>, i: nat)
    requires n >= 1
    requires i < n
    ensures Window(fill, n, h)[i] == if |h| + i < n then fill else h[|h| - n + i]
    decreases |h|
  {
    if h != [] {
      var h' := h[..|h| - 1];
      if i < n - 1 {
        WindowAt(fill, n, h', i + 1);
      }
    }
  }

  /** Once n values have been pushed, the window is exactly the last n of them. */
  lemma WindowFull<T>(fill: T, n: nat, h: seq<T>)
    requires n >= 1
    requires |h| >= n
    ensures Window(fill, n, h) == h[|h| - n..]
  {
    forall i | 0 <= i < n
      ensures Window(fill, n, h)[i] == h[|h| - n..][i]
    {
      WindowAt(fill, n, h, i);
    }
  }

  /** When the fill value is never pushed, it is still in the window exactly
      while fewer than n values have been pushed. */
  lemma FillRemains<T>(fill: T, n: nat, h: seq<T>)
    requires n >= 1
    requires fill !in h
    ensures fill in Window(fill, n, h) <==> |h| < n
  {
    var w := Window(fill, n, h);
    if |h| < n {
      WindowAt(fill, n, h, 0);
      assert w[0] == fill;
    } else {
      WindowFull(fill, n, h);
    }
  }

  /** The smoothing of `getSmoothedFaceIdx`: the first entry when all entries
      are identical, and 0 (no face) otherwise. */
  function Stable(w: seq<int>): (f: int)
    requires |w| >= 1
    ensures f != 0 ==> forall i | 0 <= i < |w| :: w[i] == f
  {
    if forall i | 0 <= i < |w| :: w[i] == w[0] then w[0] else 0
  }

  /** A nonzero face f is reported exactly when the list holds f and nothing else. */
  lemma StableIffConstant(w: seq<int>, f: int)
    requires |w| >= 1
    requires f != 0
    ensures Stable(w) == f <==> w == seq(|w|, _ => f)
  {
    if w == seq(|w|, _ => f) {
      assert forall i | 0 <= i < |w| :: w[i] == f;
    }
  }

  /** Over a window of faces that started as n zeros, a nonzero face f is
      reported exactly when the last n faces pushed all were f. */
  lemma StableWindow(n: nat, h: seq<int>, f: int)
    requires n >= 1
    requires f != 0
    ensures Stable(Window(0, n, h)) == f <==>
            |h| >= n && forall i | |h| - n <= i < |h| :: h[i] == f
  {
    var w := Window(0, n, h);
    if |h| < n {
      WindowAt(0, n, h, 0);
    } else {
      WindowFull(0, n, h);
      if forall i | |h| - n <= i < |h| :: h[i] == f {
        assert forall i | 0 <= i < n :: w[i] == h[|h| - n + i];
      }
    }
  }

  /** Until n faces have been pushed, the zeros the list started with keep the
      reported face at 0. */
  lemma StableWhileFilling(n: nat, h: seq<int>)
    requires n >= 1
    requires |h| < n
    ensures Stable(Window(0, n, h)) == 0
  {
    WindowAt(0, n, h, 0);
  }
}
