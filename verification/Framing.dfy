/** Cutting a byte stream into frames of a fixed size. */
module Framing {
  import opened Types

  /** What a non-blocking read of a socket gives: bytes (none if the peer closed the
      connection), nothing for now, or an error. */
  datatype Received = Data(bytes: seq<u8>) | WouldBlock | Failed

  function BytesOf(r: Received): seq<u8> {
    if r.Data? then r.bytes else []
  }

  function Flatten(chunks: seq<seq<u8>>): seq<u8> {
    if chunks == [] then [] else chunks[0] + Flatten(chunks[1..])
  }

  lemma ConcatAssociates(a: seq<u8>, b: seq<u8>, c: seq<u8>)
    ensures a + (b + c) == (a + b) + c
  {
  }

  /** The complete frames of a stream. */
  function Frames(size: nat, s: seq<u8>): (fs: seq<seq<u8>>)
    requires size > 0
    ensures forall i | 0 <= i < |fs| :: |fs[i]| == size
    decreases |s|
  {
    if |s| < size then [] else [s[..size]] + Frames(size, s[size..])
  }

  /** The incomplete frame at its end. */
  function Rest(size: nat, s: seq<u8>): (rest: seq<u8>)
    requires size > 0
    ensures |rest| < size
    decreases |s|
  {
    if |s| < size then s else Rest(size, s[size..])
  }

  /** Frames and rest together are the stream. */
  lemma {:induction false} FramesCover(size: nat, s: seq<u8>)
    requires size > 0
    ensures Flatten(Frames(size, s)) + Rest(size, s) == s
    decreases |s|
  {
    if |s| < size {
    } else {
      FramesCover(size, s[size..]);
      var tail := Frames(size, s[size..]);
      assert ([s[..size]] + tail)[1..] == tail;
      assert s == s[..size] + s[size..];
    }
  }

  /** Bytes may arrive in two parts: cut the first part, keep its rest, go on from there. */
  lemma {:induction false} FramesAppend(size: nat, a: seq<u8>, b: seq<u8>)
    requires size > 0
    ensures Frames(size, a + b) == Frames(size, a) + Frames(size, Rest(size, a) + b)
    ensures Rest(size, a + b) == Rest(size, Rest(size, a) + b)
    decreases |a|
  {
    if |a| >= size {
      FramesAppend(size, a[size..], b);
      assert (a + b)[..size] == a[..size];
      assert (a + b)[size..] == a[size..] + b;
    } else {
      assert [] + Frames(size, a + b) == Frames(size, a + b);
    }
  }

  /** Frames written one after another are read back as they were. */
  lemma {:induction false} FramesOfFlatten(size: nat, fs: seq<seq<u8>>)
    requires size > 0
    requires forall i | 0 <= i < |fs| :: |fs[i]| == size
    ensures Frames(size, Flatten(fs)) == fs && Rest(size, Flatten(fs)) == []
  {
    if fs == [] {
    } else {
      FramesOfFlatten(size, fs[1..]);
      var s := Flatten(fs);
      assert s[..size] == fs[0] && s[size..] == Flatten(fs[1..]);
    }
  }

  /** The number of frames cut so far locates the next one. */
  lemma {:induction false} FrameAt(size: nat, s: seq<u8>, k: nat)
    requires size > 0
    ensures k < |Frames(size, s)| <==> (k + 1) * size <= |s|
    ensures k < |Frames(size, s)| ==> k * size + size <= |s| && Frames(size, s)[k] == s[k * size..k * size + size]
    decreases |s|
  {
    assert (k + 1) * size == k * size + size;
    if |s| < size {
      assert k * size >= 0;
    } else if k > 0 {
      FrameAt(size, s[size..], k - 1);
      assert (k - 1) * size + size == k * size;
      if (k + 1) * size <= |s| {
        assert s[size..][(k - 1) * size..(k - 1) * size + size] == s[k * size..k * size + size];
      }
    } else {
      assert s[0..size] == s[..size];
    }
  }
}
