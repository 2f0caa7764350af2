/** Small building blocks shared by the controller, the two Python producers and
    the dashboard pages: an optional value, decoded JSON, the "keep the last n"
    window that all three sides use, and trailing-character stripping. */
module Shared {

  datatype Option<+T> = None | Some(value: T)

  /** A decoded JSON value, as a request body or a response reaches the code. */
  datatype Json =
    | JNull
    | JBool(b: bool)
    | JNum(n: real)
    | JStr(s: string)
    | JArr(items: seq<Json>)
    | JObj(fields: map<string, Json>)

  /** A decoded JSON request body: field name to value. */
  type Payload = map<string, Json>

  function Lookup(p: Payload, key: string): (r: Option<Json>)
    ensures r.Some? <==> key in p
    ensures r.Some? ==> r.value == p[key]
  {
    if key in p then Some(p[key]) else None
  }

  function Min(a: int, b: int): int
  {
    if a <= b then a else b
  }

  /** The last n elements of s, or all of s when it is shorter: PHP's
      `array_slice($s, -n)` after a `count($s) > n` test, Python's `s[-n:]`
      and JavaScript's `s.slice(-n)`, for a positive n. */
  function LastN<T>(s: seq<T>, n: nat): (r: seq<T>)
    requires n > 0
    ensures |r| == Min(|s|, n)
    ensures r == s[|s| - |r|..]
  {
    if |s| > n then s[|s| - n..] else s
  }

  /** A sequence no longer than n is its own last n. */
  lemma LastNShort<T>(s: seq<T>, n: nat)
    requires n > 0 && |s| <= n
    ensures LastN(s, n) == s
  {
  }

  /** Appending one element to an already trimmed window and trimming again
      gives the same window as trimming the untrimmed sequence: a window that is
      re-trimmed after every append always holds the last n elements ever
      appended. */
  lemma LastNAppend<T>(s: seq<T>, x: T, n: nat)
    requires n > 0
    ensures LastN(LastN(s, n) + [x], n) == LastN(s + [x], n)
  {
    LastNConcat(s, [x], n);
  }

  /** Append x, then drop from the front while more than n remain: the
      `count > 100` slice of storeMetrics and the `len > 100` slice of the
      client's response-time window. */
  method PushCapped<T>(s: seq<T>, x: T, n: nat) returns (r: seq<T>)
    requires n > 0
    ensures r == LastN(s + [x], n)
  {
    r := s + [x];
    if |r| > n {
      r := r[|r| - n..];
    }
  }

  /** Python's `s.rstrip(c)`: s without its trailing run of c. */
  function RStrip(s: string, c: char): (r: string)
    ensures |r| <= |s| && r == s[..|r|]
    ensures r == [] || r[|r| - 1] != c
    ensures forall i :: |r| <= i < |s| ==> s[i] == c
    decreases |s|
  {
    if |s| > 0 && s[|s| - 1] == c then RStrip(s[..|s| - 1], c) else s
  }

  /** Trimming before appending more does not change the final window: the
      last n of (last n of s) + t are the last n of s + t. */
  lemma LastNConcat<T>(s: seq<T>, t: seq<T>, n: nat)
    requires n > 0
    ensures LastN(LastN(s, n) + t, n) == LastN(s + t, n)
  {
    var w := LastN(s, n);
    var m := Min(|s| + |t|, n);
    var d := |s| - |w|;
    assert w + t == (s + t)[d..];
    assert LastN(w + t, n) == (w + t)[|w| + |t| - m..];
    assert (s + t)[d..][|w| + |t| - m..] == (s + t)[|s| + |t| - m..];
  }

  /** A window of at most n elements after appending each of xs in turn and
      trimming to the last n after every append. */
  function Slide<T>(w: seq<T>, xs: seq<T>, n: nat): seq<T>
    requires n > 0
    decreases |xs|
  {
    if xs == [] then w else Slide(LastN(w + [xs[0]], n), xs[1..], n)
  }

  lemma SlideStep<T>(w: seq<T>, xs: seq<T>, n: nat)
    requires n > 0 && xs != []
    ensures Slide(w, xs, n) == Slide(LastN(w + [xs[0]], n), xs[1..], n)
  {
  }

  lemma ConsTail<T>(w: seq<T>, xs: seq<T>)
    requires xs != []
    ensures w + [xs[0]] + xs[1..] == w + xs
  {
    assert [xs[0]] + xs[1..] == xs;
  }

  /** Capacity: however many elements are appended, the window holds exactly
      the last n of everything appended (all of it while fewer), in order. */
  lemma {:induction false} SlideKeepsLast<T>(w: seq<T>, xs: seq<T>, n: nat)
    requires n > 0 && |w| <= n
    ensures Slide(w, xs, n) == LastN(w + xs, n)
    ensures |Slide(w, xs, n)| == Min(|w| + |xs|, n)
    decreases |xs|
  {
    if xs == [] {
      assert w + xs == w;
    } else {
      var y, rest := w + [xs[0]], xs[1..];
      SlideStep(w, xs, n);
      ConsTail(w, xs);
      SlideKeepsLast(LastN(y, n), rest, n);
      LastNConcat(y, rest, n);
    }
  }
}
