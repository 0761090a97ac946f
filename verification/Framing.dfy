/** Frames on the wire from client to server: every message ends with ';'. */
module Framing {
  type Bytes = string

  const END: char := ';'

  predicate Clean(s: Bytes) { END !in s }

  /** The bytes after the last delimiter: what the decoder still holds. */
  function Rest(s: Bytes): Bytes {
    if s == [] || s[|s| - 1] == END then [] else Rest(s[..|s| - 1]) + [s[|s| - 1]]
  }

  /** The complete frames of a byte stream, in order and without their delimiters. */
  function Frames(s: Bytes): seq<Bytes> {
    if s == [] then []
    else if s[|s| - 1] == END then Frames(s[..|s| - 1]) + [Rest(s[..|s| - 1])]
    else Frames(s[..|s| - 1])
  }

  /** The stream that carries the given frames. */
  function Unframe(fs: seq<Bytes>): Bytes {
    if fs == [] then [] else Unframe(fs[..|fs| - 1]) + fs[|fs| - 1] + [END]
  }

  lemma FramesSnoc(s: Bytes, b: char)
    ensures Frames(s + [b]) == if b == END then Frames(s) + [Rest(s)] else Frames(s)
    ensures Rest(s + [b]) == if b == END then [] else Rest(s) + [b]
  {
    assert (s + [b])[..|s|] == s;
  }

  /** A longer stream never revokes a frame. */
  lemma {:induction false} FramesGrow(s: Bytes, t: Bytes)
    ensures Frames(s) <= Frames(s + t)
    decreases |t|
  {
    if t == [] {
      assert s + t == s;
    } else {
      FramesGrow(s, t[..|t| - 1]);
      FramesSnoc(s + t[..|t| - 1], t[|t| - 1]);
      assert s + t == s + t[..|t| - 1] + [t[|t| - 1]];
    }
  }

  lemma FramesOfPrefix(s: Bytes, all: Bytes)
    requires s <= all
    ensures Frames(s) <= Frames(all)
  {
    FramesGrow(s, all[|s|..]);
    assert s + all[|s|..] == all;
  }

  /** The frames and the rest are a decomposition of the stream into delimiter-free pieces. */
  lemma {:induction false} FramesPartition(s: Bytes)
    ensures Unframe(Frames(s)) + Rest(s) == s
    ensures Clean(Rest(s)) && forall i :: 0 <= i < |Frames(s)| ==> Clean(Frames(s)[i])
  {
    if s != [] {
      var t, b := s[..|s| - 1], s[|s| - 1];
      FramesPartition(t);
      assert s == t + [b];
      if b == END {
        assert Frames(s)[..|Frames(s)| - 1] == Frames(t);
      }
    }
  }

  lemma SnocRight(s: Bytes, q: Bytes, b: char)
    ensures s + (q + [b]) == s + q + [b]
  {
  }

  lemma CleanMore(s: Bytes, q: Bytes, b: char)
    requires Frames(s + q) == Frames(s) && Rest(s + q) == Rest(s) + q && b != END
    ensures Frames(s + (q + [b])) == Frames(s) && Rest(s + (q + [b])) == Rest(s) + (q + [b])
  {
    FramesSnoc(s + q, b);
    SnocRight(s, q, b);
    SnocRight(Rest(s), q, b);
  }

  lemma {:induction false} CleanStep(s: Bytes, r: Bytes)
    requires Clean(r)
    ensures Frames(s + r) == Frames(s) && Rest(s + r) == Rest(s) + r
    decreases |r|
  {
    if r == [] {
      assert s + r == s;
    } else {
      var q, b := r[..|r| - 1], r[|r| - 1];
      CleanStep(s, q);
      CleanMore(s, q, b);
      assert r == q + [b];
    }
  }

  /** There is only one such decomposition: framing a list of delimiter-free messages and splitting the
      stream gives the list back. */
  lemma {:induction false} FramesUnique(fs: seq<Bytes>, r: Bytes)
    requires Clean(r) && forall i :: 0 <= i < |fs| ==> Clean(fs[i])
    ensures Frames(Unframe(fs) + r) == fs && Rest(Unframe(fs) + r) == r
    decreases |fs|
  {
    CleanStep(Unframe(fs), r);
    if fs != [] {
      var gs, f := fs[..|fs| - 1], fs[|fs| - 1];
      FramesUnique(gs, f);
      FramesSnoc(Unframe(gs) + f, END);
    }
  }
}
