/** RLP lists as frames of a byte stream: no frame is a proper prefix of another, so a stream of them can be
    cut in one way only (network/src/stream.rs; Appendix B of the Ethereum Yellow Paper). */
module Framing {
  import opened Prelude

  /** The length of the header that starts with this byte. */
  function HeaderLength(first: Byte): nat {
    if 0xf8 <= first then 1 + (first - 0xf7) else 1
  }

  predicate HasHeader(bytes: seq<Byte>) {
    bytes != [] && 0xc0 <= bytes[0] && HeaderLength(bytes[0]) <= |bytes|
  }

  function PayloadLength(bytes: seq<Byte>): nat
    requires HasHeader(bytes)
  {
    if 0xf8 <= bytes[0] then BigEndian(bytes[1..HeaderLength(bytes[0])]) else bytes[0] - 0xc0
  }

  function FrameLength(bytes: seq<Byte>): nat
    requires HasHeader(bytes)
  {
    HeaderLength(bytes[0]) + PayloadLength(bytes)
  }

  predicate IsFrame(bytes: seq<Byte>) { HasHeader(bytes) && |bytes| == FrameLength(bytes) }

  /** The beginning of a frame, which may be empty. */
  predicate IsPartial(bytes: seq<Byte>) {
    bytes == [] || (0xc0 <= bytes[0] && (HasHeader(bytes) ==> |bytes| < FrameLength(bytes)))
  }

  predicate AllFrames(frames: seq<seq<Byte>>) { forall i :: 0 <= i < |frames| ==> IsFrame(frames[i]) }

  lemma SameLength(a: seq<Byte>, b: seq<Byte>)
    requires HasHeader(a) && a <= b
    ensures HasHeader(b) && FrameLength(a) == FrameLength(b)
  {
    assert a[0] == b[0];
    assert a[1..HeaderLength(a[0])] == b[1..HeaderLength(b[0])];
  }

  /** Frames form a prefix code. */
  lemma PrefixCode(f: seq<Byte>, g: seq<Byte>, s: seq<Byte>)
    requires IsFrame(f) && IsFrame(g) && f <= s && g <= s
    ensures f == g
  {
    if |f| <= |g| {
      assert f <= g;
      SameLength(f, g);
    } else {
      assert g <= f;
      SameLength(g, f);
    }
  }

  lemma PartialHoldsNone(p: seq<Byte>, f: seq<Byte>)
    requires IsPartial(p) && IsFrame(f)
    ensures !(f <= p)
  {
    if f <= p {
      SameLength(f, p);
    }
  }

  // ----- concatenation -----

  function Concat(parts: seq<seq<Byte>>): seq<Byte> {
    if parts == [] then [] else parts[0] + Concat(parts[1..])
  }

  lemma {:induction false} ConcatAppend(a: seq<seq<Byte>>, b: seq<seq<Byte>>)
    ensures Concat(a + b) == Concat(a) + Concat(b)
  {
    if a == [] {
      assert a + b == b;
    } else {
      assert (a + b)[1..] == a[1..] + b;
      ConcatAppend(a[1..], b);
    }
  }

  lemma ConcatPush(a: seq<seq<Byte>>, x: seq<Byte>)
    ensures Concat(a + [x]) == Concat(a) + x
  {
    ConcatAppend(a, [x]);
    assert Concat([x]) == x + Concat([]);
  }

  /** A stream of frames is cut in one way only: what has been cut off its front are its first frames. */
  lemma {:induction false} CutsFirstFrames(cut: seq<seq<Byte>>, stream: seq<seq<Byte>>, s: seq<Byte>)
    requires AllFrames(cut) && AllFrames(stream) && Concat(cut) <= s && s <= Concat(stream)
    ensures cut <= stream
    decreases |cut|
  {
    if cut != [] {
      assert stream != [];
      assert cut[0] <= Concat(stream) && stream[0] <= Concat(stream);
      PrefixCode(cut[0], stream[0], Concat(stream));
      var n := |cut[0]|;
      assert s[n..] <= Concat(stream)[n..] == Concat(stream[1..]);
      assert Concat(cut[1..]) == Concat(cut)[n..] <= s[n..];
      CutsFirstFrames(cut[1..], stream[1..], s[n..]);
    }
  }

  /** At the end of the stream everything has been cut off. */
  lemma CutsAllFrames(cut: seq<seq<Byte>>, partial: seq<Byte>, stream: seq<seq<Byte>>)
    requires AllFrames(cut) && AllFrames(stream) && IsPartial(partial) && Concat(cut) + partial == Concat(stream)
    ensures cut == stream && partial == []
  {
    CutsFirstFrames(cut, stream, Concat(stream));
    var rest := stream[|cut|..];
    assert stream == cut + rest;
    ConcatAppend(cut, rest);
    var n := |Concat(cut)|;
    assert partial == Concat(stream)[n..] == Concat(rest);
    if rest != [] {
      PartialHoldsNone(partial, rest[0]);
    }
  }

  /** After whole frames the next byte starts another one. */
  lemma NextByte(cut: seq<seq<Byte>>, b: Byte, stream: seq<seq<Byte>>)
    requires AllFrames(cut) && AllFrames(stream) && Concat(cut) + [b] <= Concat(stream)
    ensures 0xc0 <= b
  {
    CutsFirstFrames(cut, stream, Concat(cut) + [b]);
    var rest := stream[|cut|..];
    assert stream == cut + rest;
    ConcatAppend(cut, rest);
    assert rest != [];
    assert Concat(stream)[|Concat(cut)|] == b;
    assert Concat(rest)[0] == rest[0][0];
  }

  // ----- encoding -----

  /** The minimal big-endian bytes of a positive number. */
  function ToBytes(n: nat): (bytes: seq<Byte>)
    ensures BigEndian(bytes) == n
  {
    if n == 0 then [] else
      var bytes := ToBytes(n / 256) + [n % 256];
      assert bytes[..|bytes| - 1] == ToBytes(n / 256);
      bytes
  }

  function Power256(k: nat): nat { if k == 0 then 1 else 256 * Power256(k - 1) }

  lemma {:induction false} ToBytesLength(n: nat, k: nat)
    requires n < Power256(k)
    ensures |ToBytes(n)| <= k && (n > 0 ==> |ToBytes(n)| > 0)
    decreases k
  {
    if n > 0 {
      assert k > 0;
      assert n / 256 < Power256(k - 1);
      ToBytesLength(n / 256, k - 1);
    }
  }

  /** An RLP list with the given payload. */
  function EncodeList(payload: seq<Byte>): (bytes: seq<Byte>)
    requires |payload| < Power256(8)
  {
    if |payload| <= 55 then [0xc0 + |payload|] + payload
    else
      ToBytesLength(|payload|, 8);
      [0xf7 + |ToBytes(|payload|)|] + ToBytes(|payload|) + payload
  }

  /** Every RLP list is a frame, and its payload can be read back from it. */
  lemma ListIsFrame(payload: seq<Byte>)
    requires |payload| < Power256(8)
    ensures IsFrame(EncodeList(payload)) && PayloadLength(EncodeList(payload)) == |payload|
    ensures EncodeList(payload)[HeaderLength(EncodeList(payload)[0])..] == payload
    ensures |EncodeList(payload)| == |payload| + 1 <==> |payload| <= 55
  {
    var bytes := EncodeList(payload);
    if |payload| > 55 {
      ToBytesLength(|payload|, 8);
      var length := ToBytes(|payload|);
      assert HeaderLength(bytes[0]) == 1 + |length|;
      assert bytes[1..1 + |length|] == length;
    }
  }
}
