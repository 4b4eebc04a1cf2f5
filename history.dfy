/** The rolling history windows: each metric keeps only its most recent
    readings, the oldest being evicted first. */
module History {

  /** How many readings each history keeps. */
  const Window: nat := 10

  function Min(a: int, b: int): int
  {
    if a <= b then a else b
  }

  /** Python's slice s[-n:] for n > 0: the whole list when it is no longer
      than n, otherwise its last n elements. */
  function Last<T>(s: seq<T>, n: nat): (r: seq<T>)
    requires n > 0
    ensures |r| == Min(|s|, n)
    ensures forall i :: 0 <= i < |r| ==> r[i] == s[|s| - |r| + i]
  {
    if |s| <= n then s else s[|s| - n..]
  }

  /** One cycle's update of one history: append the new component, then cut
      back to the window. */
  function Slide<T>(s: seq<T>, x: T): (r: seq<T>)
    ensures |r| == Min(|s| + 1, Window)
    ensures r[|r| - 1] == x
    ensures forall i :: 0 <= i < |r| - 1 ==> r[i] == s[|s| - (|r| - 1) + i]
  {
    var t := s + [x];
    assert t[|t| - 1] == x;
    Last(t, Window)
  }

  /** The history after one cycle per reading of xs, starting from w. */
  function Feed<T>(w: seq<T>, xs: seq<T>): seq<T>
    decreases |xs|
  {
    if xs == [] then w else Feed(Slide(w, xs[0]), xs[1..])
  }

  /** Cutting to the window before appending more loses nothing that the
      cut after appending would keep. */
  lemma LastOfAppend<T>(s: seq<T>, t: seq<T>)
    ensures Last(Last(s, Window) + t, Window) == Last(s + t, Window)
  {
    if |s| > Window {
      var l := s[|s| - Window..];
      var v := s + t;
      assert v[|s| - Window..] == l + t;
      assert v[|v| - Window..] == (l + t)[|t|..];
    }
  }

  /** Whatever readings arrive, a history that starts within the window ends
      up holding exactly the most recent readings (at most Window of them),
      in arrival order. */
  lemma {:induction false} FeedKeepsMostRecent<T>(w: seq<T>, xs: seq<T>)
    requires |w| <= Window
    ensures Feed(w, xs) == Last(w + xs, Window)
    decreases |xs|
  {
    if xs == [] {
      assert w + xs == w;
    } else {
      var x, rest := xs[0], xs[1..];
      var w' := Last(w + [x], Window);
      assert Feed(w, xs) == Feed(w', rest);
      FeedKeepsMostRecent(w', rest);
      LastOfAppend(w + [x], rest);
      assert (w + [x]) + rest == w + xs;
    }
  }

  /** Fifteen cycles from the empty start leave readings 6 to 15. */
  lemma FifteenReadings<T>(xs: seq<T>)
    requires |xs| == 15
    ensures Feed([], xs) == xs[5..]
  {
    var empty: seq<T> := [];
    FeedKeepsMostRecent(empty, xs);
    assert empty + xs == xs;
    assert Last(xs, Window) == xs[|xs| - Window..];
  }
}
