/**
 * The copy of converted samples into the block's output ports at the end of
 * `work()`. With more than one stream the conversion buffer holds the streams
 * round-robin (sample 0 of port 0, sample 0 of port 1, ..., sample 1 of port
 * 0, ...) and the copy demultiplexes it; with one stream it is a plain copy.
 */
module Routing {

  /** Position of sample i of stream c in a round-robin buffer of ns streams. */
  function Pos(i: nat, ns: nat, c: nat): nat
  {
    i * ns + c
  }

  /** A complete frame i (one sample per stream) ends inside the first m samples. */
  lemma FrameInside(i: nat, c: nat, ns: nat, m: nat)
    requires c < ns && i < m / ns
    ensures Pos(i, ns, c) < m
  {
    var q := m / ns;
    assert q * ns <= m;
    assert (i + 1) * ns <= q * ns;
    assert Pos(i, ns, c) < (i + 1) * ns;
  }

  /** Every complete frame lies inside the buffer. */
  lemma FramesInside(ns: nat, m: nat)
    requires ns > 0
    ensures forall i, c :: 0 <= c < ns && 0 <= i < m / ns ==> Pos(i, ns, c) < m
  {
    forall i, c | 0 <= c < ns && 0 <= i < m / ns
      ensures Pos(i, ns, c) < m
    {
      FrameInside(i, c, ns, m);
    }
  }

  /** The samples of stream c in a round-robin buffer of ns streams: sample i is at i * ns + c. */
  function Channel<T>(s: seq<T>, ns: nat, c: nat): (r: seq<T>)
    requires c < ns
    ensures |r| == |s| / ns
    ensures forall i :: 0 <= i < |r| ==> Pos(i, ns, c) < |s| && r[i] == s[Pos(i, ns, c)]
  {
    FramesInside(ns, |s|);
    seq(|s| / ns, i requires 0 <= i < |s| / ns => s[Pos(i, ns, c)])
  }

  /** A sequence that obeys the index law for stream c is that stream. */
  lemma IsChannel<T>(s: seq<T>, ns: nat, c: nat, o: seq<T>)
    requires c < ns && |o| == |s| / ns
    requires forall i :: 0 <= i < |o| ==> Pos(i, ns, c) < |s| && o[i] == s[Pos(i, ns, c)]
    ensures o == Channel(s, ns, c)
  {
    assert forall i :: 0 <= i < |o| ==> o[i] == Channel(s, ns, c)[i];
  }

  /** All ns streams of a round-robin buffer. */
  function Channels<T>(s: seq<T>, ns: nat): (r: seq<seq<T>>)
    ensures |r| == ns
    ensures forall c :: 0 <= c < ns ==> r[c] == Channel(s, ns, c)
  {
    seq(ns, c requires 0 <= c < ns => Channel(s, ns, c))
  }

  /** Frame i of a set of streams: sample i of each stream, in stream order. */
  function Frame<T>(chans: seq<seq<T>>, i: nat): (f: seq<T>)
    requires forall c :: 0 <= c < |chans| ==> i < |chans[c]|
    ensures |f| == |chans|
  {
    seq(|chans|, c requires 0 <= c < |chans| => chans[c][i])
  }

  /** The multiplex: the first m frames of the streams, one after the other. */
  function Interleave<T>(chans: seq<seq<T>>, m: nat): (r: seq<T>)
    requires forall c :: 0 <= c < |chans| ==> m <= |chans[c]|
    ensures |r| == m * |chans|
  {
    if m == 0 then [] else Interleave(chans, m - 1) + Frame(chans, m - 1)
  }

  /** Frame m - 1 ends where frame m begins. */
  lemma NextFrame(m: nat, ns: nat)
    requires m > 0
    ensures m * ns == Pos(m - 1, ns, 0) + ns
  {
  }

  /** m complete frames fit in a buffer that holds at least m complete frames. */
  lemma FramesFit(m: nat, ns: nat, len: nat)
    requires ns > 0 && m <= len / ns
    ensures m * ns <= len
  {
    if m > 0 {
      FrameInside(m - 1, ns - 1, ns, len);
      NextFrame(m, ns);
    }
  }

  lemma MulMonotone(a: int, b: int, k: nat)
    requires a <= b
    ensures a * k <= b * k
  {
  }

  /** A buffer of exactly m frames of ns samples holds m complete frames. */
  lemma WholeFrames(m: nat, ns: nat)
    requires ns > 0
    ensures (m * ns) / ns == m
  {
    var q, r := (m * ns) / ns, (m * ns) % ns;
    assert m * ns == q * ns + r && 0 <= r < ns;
    if q < m {
      MulMonotone(q + 1, m, ns);
    } else if q > m {
      MulMonotone(m + 1, q, ns);
    }
  }

  /** Position i * ns + c of the multiplex holds sample i of stream c. */
  lemma {:induction false} InterleaveAt<T>(chans: seq<seq<T>>, m: nat, i: nat, c: nat)
    requires forall d :: 0 <= d < |chans| ==> m <= |chans[d]|
    requires i < m && c < |chans|
    ensures Pos(i, |chans|, c) < m * |chans|
    ensures Interleave(chans, m)[Pos(i, |chans|, c)] == chans[c][i]
  {
    var ns := |chans|;
    NextFrame(m, ns);
    if i == m - 1 {
      assert Pos(i, ns, c) == Pos(m - 1, ns, 0) + c;
      assert |Interleave(chans, m - 1)| == Pos(m - 1, ns, 0);
    } else {
      InterleaveAt(chans, m - 1, i, c);
    }
  }

  /**
   * Demultiplexing and multiplexing again gives back every complete frame of
   * the buffer: only a trailing partial frame is dropped.
   */
  lemma {:induction false} InterleaveChannels<T>(s: seq<T>, ns: nat, m: nat)
    requires ns > 0 && m <= |s| / ns
    ensures m * ns <= |s|
    ensures Interleave(Channels(s, ns), m) == s[..m * ns]
  {
    FramesFit(m, ns, |s|);
    if m > 0 {
      InterleaveChannels(s, ns, m - 1);
      NextFrame(m, ns);
      var chans := Channels(s, ns);
      var f := Frame(chans, m - 1);
      var b := Pos(m - 1, ns, 0);
      forall c | 0 <= c < ns
        ensures f[c] == s[b + c]
      {
        assert chans[c] == Channel(s, ns, c);
        assert Pos(m - 1, ns, c) == b + c;
      }
      assert s[..m * ns] == s[..b] + f;
    }
  }

  /** Demultiplexing the multiplex of streams gives each stream back, cut to m samples. */
  lemma ChannelOfInterleave<T>(chans: seq<seq<T>>, m: nat, c: nat)
    requires forall d :: 0 <= d < |chans| ==> m <= |chans[d]|
    requires c < |chans|
    ensures Channel(Interleave(chans, m), |chans|, c) == chans[c][..m]
  {
    var ns := |chans|;
    var s := Interleave(chans, m);
    WholeFrames(m, ns);
    forall i | 0 <= i < m
      ensures Channel(s, ns, c)[i] == chans[c][i]
    {
      InterleaveAt(chans, m, i, c);
    }
  }

  /** Two streams a and b: the buffer a0 b0 a1 b1 a2 b2 splits into a0 a1 a2 and b0 b1 b2. */
  lemma TwoStreams<T>(a0: T, b0: T, a1: T, b1: T, a2: T, b2: T)
    ensures Channel([a0, b0, a1, b1, a2, b2], 2, 0) == [a0, a1, a2]
    ensures Channel([a0, b0, a1, b1, a2, b2], 2, 1) == [b0, b1, b2]
  {
    assert Pos(1, 2, 0) == 2 && Pos(2, 2, 0) == 4 && Pos(1, 2, 1) == 3 && Pos(2, 2, 1) == 5;
  }

  /** One stream: the demultiplex is the buffer itself. */
  lemma SingleChannel<T>(s: seq<T>)
    ensures Channel(s, 1, 0) == s
  {
  }

  /**
   * The inner loop of the copy: one frame, starting at read position p, goes
   * to position i of each of the first ns ports.
   */
  method CopyFrame<T>(src: array<T>, p: nat, i: nat, ns: nat, out: seq<array<T>>)
    requires ns <= |out| && p + ns <= src.Length
    requires forall k :: 0 <= k < |out| ==> i < out[k].Length
    requires forall k :: 0 <= k < |out| ==> out[k] != src
    requires forall j, k :: 0 <= j < k < |out| ==> out[j] != out[k]
    modifies set k | 0 <= k < |out| :: out[k]
    ensures forall d :: 0 <= d < ns ==> out[d][i] == src[p + d]
    ensures forall d, j :: 0 <= d < |out| && 0 <= j < out[d].Length && (j != i || ns <= d) ==> out[d][j] == old(out[d][j])
  {
    var c := 0;
    while c < ns
      invariant 0 <= c <= ns
      invariant forall d :: 0 <= d < c ==> out[d][i] == src[p + d]
      invariant forall d, j :: 0 <= d < |out| && 0 <= j < out[d].Length && (j != i || c <= d) ==> out[d][j] == old(out[d][j])
    {
      out[c][i] := src[p + c];
      c := c + 1;
    }
  }

  /**
   * The nested loops of the copy for ns > 1: a read position p walks through
   * the buffer, and each frame goes to the next position of every port.
   */
  method DemuxFrames<T>(src: array<T>, n: nat, ns: nat, out: seq<array<T>>)
    requires 0 < ns <= |out| && n <= src.Length
    requires forall k :: 0 <= k < |out| ==> n / ns <= out[k].Length
    requires forall k :: 0 <= k < |out| ==> out[k] != src
    requires forall j, k :: 0 <= j < k < |out| ==> out[j] != out[k]
    modifies set k | 0 <= k < |out| :: out[k]
    ensures forall c, i :: 0 <= c < ns && 0 <= i < n / ns ==> Pos(i, ns, c) < n && out[c][i] == src[Pos(i, ns, c)]
    ensures forall c, i :: 0 <= c < |out| && 0 <= i < out[c].Length && (ns <= c || n / ns <= i) ==>
              out[c][i] == old(out[c][i])
  {
    FramesInside(ns, n);
    var p := 0;
    var i := 0;
    while i < n / ns
      invariant 0 <= i <= n / ns && p == Pos(i, ns, 0)
      invariant forall c, j :: 0 <= c < ns && 0 <= j < i ==> out[c][j] == src[Pos(j, ns, c)]
      invariant forall c, j :: 0 <= c < |out| && 0 <= j < out[c].Length && (i <= j || ns <= c) ==> out[c][j] == old(out[c][j])
    {
      FrameInside(i, ns - 1, ns, n);
      CopyFrame(src, p, i, ns, out);
      forall d | 0 <= d < ns
        ensures p + d == Pos(i, ns, d)
      {
      }
      NextFrame(i + 1, ns);
      p := p + ns;
      i := i + 1;
    }
  }

  /**
   * The copy at the end of `work()`: for ns > 1 the nested loops copy
   * n / ns frames; for one stream, n samples are copied in one block.
   */
  method Deinterleave<T>(src: array<T>, n: nat, ns: nat, out: seq<array<T>>)
    requires 0 < ns <= |out| && n <= src.Length
    requires forall k :: 0 <= k < |out| ==> n / ns <= out[k].Length
    requires forall k :: 0 <= k < |out| ==> out[k] != src
    requires forall j, k :: 0 <= j < k < |out| ==> out[j] != out[k]
    modifies set k | 0 <= k < |out| :: out[k]
    ensures forall c, i :: 0 <= c < ns && 0 <= i < n / ns ==> Pos(i, ns, c) < n && out[c][i] == src[Pos(i, ns, c)]
    ensures forall c, i :: 0 <= c < |out| && 0 <= i < out[c].Length && (ns <= c || n / ns <= i) ==>
              out[c][i] == old(out[c][i])
    ensures forall c :: 0 <= c < ns ==> out[c][..n / ns] == Channel(src[..n], ns, c)
  {
    FramesInside(ns, n);
    if ns > 1 {
      DemuxFrames(src, n, ns, out);
    } else {
      forall j | 0 <= j < n {
        out[0][j] := src[j];
      }
    }
    forall c | 0 <= c < ns
      ensures out[c][..n / ns] == Channel(src[..n], ns, c)
    {
      IsChannel(src[..n], ns, c, out[c][..n / ns]);
    }
  }
}
