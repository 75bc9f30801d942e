/** The growable message buffer of client_msg.hpp and the messages built in it. */
module RpcBuffer {
  import opened Frames

  /** The meta bytes "12345678" that both sides put on the wire. */
  const META: Bytes := [0x31, 0x32, 0x33, 0x34, 0x35, 0x36, 0x37, 0x38]

  lemma MetaBytes()
    ensures |META| == 8 && forall i | 0 <= i < 8 :: META[i] == '1' as int + i
  {
  }

  const PRE_BODY_SIZE := 1024 * 2

  function Max(a: int, b: int): int {
    if a > b then a else b
  }

  class RpcStruct {
    var head: Head
    const bodyOffset: nat
    var data: array?<Byte>
    var preBodySize: nat

    /** The capacity always covers the offsets and the pre-allocated body. */
    ghost predicate Valid()
      reads this, data
    {
      && bodyOffset >= HEAD_SIZE
      && (data != null ==> data.Length == bodyOffset + preBodySize)
    }

    /** The buffer was written for the current head, which has the meta length it was made for. */
    ghost predicate Current()
      reads this, data
    {
      && Valid() && data != null && 0 <= head.bodyLen <= preBodySize
      && head.metaLen == bodyOffset - HEAD_SIZE
      && data[..HEAD_SIZE] == EncodeHead(head)
    }

    /** data() up to data_len(). */
    ghost function Wire(): Bytes
      requires Current()
      reads this, data
    {
      data[..bodyOffset + head.bodyLen]
    }

    ghost function Meta(): Bytes
      requires Valid() && data != null
      reads this, data
    {
      data[HEAD_SIZE..bodyOffset]
    }

    ghost function Body(): Bytes
      requires Current()
      reads this, data
    {
      data[bodyOffset..bodyOffset + head.bodyLen]
    }

    constructor ()
      ensures Valid() && head == Head(-1, -1, 8) && bodyOffset == HEAD_SIZE + 8
      ensures data == null && preBodySize == PRE_BODY_SIZE
    {
      head := Head(-1, -1, 8);
      bodyOffset := HEAD_SIZE + 8;
      data := null;
      preBodySize := PRE_BODY_SIZE;
    }

    constructor FromHead(rt: Head)
      requires rt.metaLen >= 0
      ensures Valid() && head == rt && bodyOffset == HEAD_SIZE + rt.metaLen
      ensures data == null && preBodySize == PRE_BODY_SIZE
    {
      head := rt;
      bodyOffset := HEAD_SIZE + rt.metaLen;
      data := null;
      preBodySize := PRE_BODY_SIZE;
    }

    /** Allocates or grows the buffer for the current head and writes the head into it.  Growing moves
        the bytes to a fresh block; everything behind the head survives. */
    method NewData()
      requires Valid()
      modifies this`data, this`preBodySize, data
      ensures Valid() && data != null && data[..HEAD_SIZE] == EncodeHead(head)
      ensures preBodySize == Max(old(preBodySize), head.bodyLen)
      ensures old(data) != null ==>
          old(data.Length) <= data.Length && forall i | HEAD_SIZE <= i < old(data.Length) :: data[i] == old(data[i])
      ensures data == old(data) || fresh(data)
    {
      if head.bodyLen > preBodySize {
        preBodySize := head.bodyLen;
        var grown := new Byte[bodyOffset + preBodySize];
        if data != null {
          forall i | 0 <= i < data.Length {
            grown[i] := data[i];
          }
        }
        data := grown;
      } else if data == null {
        data := new Byte[bodyOffset + preBodySize];
      }
      var bytes := EncodeHead(head);
      forall i | 0 <= i < HEAD_SIZE {
        data[i] := bytes[i];
      }
    }

    /** head(rt). */
    method SetHead(rt: Head)
      requires Valid()
      modifies this`head, this`data, this`preBodySize, data
      ensures Valid() && head == rt && data != null && data[..HEAD_SIZE] == EncodeHead(rt)
      ensures preBodySize == Max(old(preBodySize), rt.bodyLen)
      ensures old(data) != null ==>
          old(data.Length) <= data.Length && forall i | HEAD_SIZE <= i < old(data.Length) :: data[i] == old(data[i])
      ensures data == old(data) || fresh(data)
    {
      head := rt;
      NewData();
    }

    /** Copies n bytes of src to position off. */
    method Copy(off: nat, src: Bytes, n: nat)
      requires Valid() && data != null && HEAD_SIZE <= off && off + n <= data.Length && n <= |src|
      modifies data
      ensures data[off..off + n] == src[..n]
      ensures forall i | 0 <= i < data.Length && !(off <= i < off + n) :: data[i] == old(data[i])
    {
      forall i | 0 <= i < n {
        data[off + i] := src[i];
      }
    }

    /** body(msg): msg has at least body_len bytes. */
    method SetBody(msg: Bytes)
      requires Valid() && 0 <= head.bodyLen <= |msg| && head.metaLen == bodyOffset - HEAD_SIZE
      modifies this`data, this`preBodySize, data
      ensures Current() && Body() == msg[..head.bodyLen]
      ensures old(data) != null ==> Meta() == old(Meta())
      ensures preBodySize == Max(old(preBodySize), head.bodyLen)
      ensures data == old(data) || fresh(data)
    {
      NewData();
      ghost var meta := Meta();
      if old(data) != null {
        ghost var was := old(Meta());
        assert |meta| == |was|;
        assert forall i | 0 <= i < |was| :: was[i] == old(data[HEAD_SIZE + i]) && meta[i] == data[HEAD_SIZE + i];
        assert meta == was;
      }
      Copy(bodyOffset, msg, head.bodyLen);
      assert Meta() == meta;
    }

    /** meta(msg): msg has at least meta_len bytes. */
    method SetMeta(msg: Bytes)
      requires Valid() && 0 <= head.metaLen <= |msg| && head.metaLen == bodyOffset - HEAD_SIZE
      modifies this`data, this`preBodySize, data
      ensures Valid() && data != null && data[..HEAD_SIZE] == EncodeHead(head) && Meta() == msg[..head.metaLen]
      ensures preBodySize == Max(old(preBodySize), head.bodyLen)
      ensures old(data) != null ==>
          old(data.Length) <= data.Length && forall i | bodyOffset <= i < old(data.Length) :: data[i] == old(data[i])
      ensures data == old(data) || fresh(data)
    {
      NewData();
      Copy(HEAD_SIZE, msg, head.metaLen);
    }

    /** recv_msg_buff() filled by a read of recv_msg_len() bytes. */
    method Receive(payload: Bytes)
      requires Valid() && Readable(head) && head.metaLen == bodyOffset - HEAD_SIZE
      requires |payload| == head.bodyLen + head.metaLen
      modifies this`data, this`preBodySize, data
      ensures Current() && Wire() == EncodeHead(head) + payload
      ensures data == old(data) || fresh(data)
    {
      NewData();
      Copy(HEAD_SIZE, payload, head.bodyLen + head.metaLen);
    }

    /** A read of |payload| bytes behind the head, when the buffer has room for them. */
    method ReceiveBytes(payload: Bytes) returns (fits: bool)
      requires Valid()
      modifies this`data, this`preBodySize, data
      ensures Valid() && data != null && data[..HEAD_SIZE] == EncodeHead(head)
      ensures preBodySize == Max(old(preBodySize), head.bodyLen)
      ensures fits <==> HEAD_SIZE + |payload| <= data.Length
      ensures fits ==> data[HEAD_SIZE..HEAD_SIZE + |payload|] == payload
      ensures data == old(data) || fresh(data)
    {
      NewData();
      fits := HEAD_SIZE + |payload| <= data.Length;
      if fits {
        Copy(HEAD_SIZE, payload, |payload|);
      }
    }

    lemma WireParts()
      requires Current()
      ensures Wire() == EncodeHead(head) + Meta() + Body()
    {
    }
  }

  /** newMsgBuf: head, then body, then meta. */
  method NewMessage(reqId: Int32, msg: Bytes) returns (r: RpcStruct)
    requires |msg| + 8 < 0x8000_0000
    ensures fresh(r) && r.Current() && r.Wire() == Encode(Frame(reqId, META, msg))
  {
    r := new RpcStruct();
    r.SetHead(Head(reqId, |msg|, 8));
    r.SetBody(msg);
    assert msg[..|msg|] == msg;
    r.SetMeta(META);
    assert r.Body() == msg && r.Meta() == META;
    r.WireParts();
  }

  /** reply with a callback result: head, then meta, then body. */
  method ReplyMessage(reqId: Int32, res: Bytes) returns (r: RpcStruct)
    requires |res| + 8 < 0x8000_0000
    ensures fresh(r) && r.Current() && r.Wire() == Encode(Frame(reqId, META, res))
  {
    r := new RpcStruct();
    r.SetHead(Head(reqId, |res|, 8));
    r.SetMeta(META);
    r.SetBody(res);
    assert res[..|res|] == res;
    assert r.Body() == res && r.Meta() == META;
    r.WireParts();
  }

  /** handle_read_header and handle_read_msg of the server, and of the client for an unknown id: a buffer
      made from the received head holds, byte for byte, the frame that was sent. */
  method ReceiveMessage(f: Frame) returns (r: RpcStruct)
    requires ValidFrame(f)
    ensures fresh(r) && r.Current() && r.head == HeadOf(f) && r.Wire() == Encode(f)
    ensures r.Meta() == f.meta && r.Body() == f.body
  {
    r := new RpcStruct.FromHead(HeadOf(f));
    r.Receive(f.meta + f.body);
    Parts(r.data[..], f);
  }

  /** handle_read_header and handle_read_msg of the client for a registered id: the entry made by newMsgBuf takes
      the received head, grows for the body and is read into.  The body offset stays the one the entry was made
      with, so the frame fits exactly when its meta is no longer than that offset leaves room for; then the
      buffer holds the frame, and body() is the frame's body when the meta has the expected length, bytes shifted
      by the difference when it is longer. */
  method ReceiveInto(r: RpcStruct, f: Frame) returns (fits: bool)
    requires ValidFrame(f) && r.Valid()
    modifies r, r.data
    ensures r.Valid() && r.data != null && r.head == HeadOf(f) && r.preBodySize == Max(old(r.preBodySize), |f.body|)
    ensures fits <==> |f.meta| + |f.body| <= r.bodyOffset - HEAD_SIZE + Max(old(r.preBodySize), |f.body|)
    ensures fits ==>
        HEAD_SIZE + |f.meta| + |f.body| <= r.data.Length && r.data[..HEAD_SIZE + |f.meta| + |f.body|] == Encode(f)
    ensures |f.meta| == r.bodyOffset - HEAD_SIZE ==> fits && r.Current() && r.Wire() == Encode(f) && r.Body() == f.body
    ensures fits && |f.meta| >= r.bodyOffset - HEAD_SIZE ==>
              var m := r.bodyOffset - HEAD_SIZE;
              r.data[r.bodyOffset..r.bodyOffset + |f.body|] == (f.meta + f.body)[m..m + |f.body|]
  {
    r.SetHead(HeadOf(f));
    fits := r.ReceiveBytes(f.meta + f.body);
    if fits {
      Holds(r.data[..], f);
      BodyAt(r.data[..], f, r.bodyOffset);
    }
  }

  /** A buffer with the head of f and its payload behind it starts with the encoding of f. */
  lemma Holds(data: Bytes, f: Frame)
    requires ValidFrame(f) && HEAD_SIZE + |f.meta| + |f.body| <= |data| && data[..HEAD_SIZE] == EncodeHead(HeadOf(f))
    requires data[HEAD_SIZE..HEAD_SIZE + |f.meta + f.body|] == f.meta + f.body
    ensures data[..HEAD_SIZE + |f.meta| + |f.body|] == Encode(f)
  {
    var n := HEAD_SIZE + |f.meta + f.body|;
    assert data[..n] == data[..HEAD_SIZE] + data[HEAD_SIZE..n];
    assert EncodeHead(HeadOf(f)) + (f.meta + f.body) == Encode(f);
  }

  lemma Slice(s: Bytes, a: nat, b: nat, c: nat, d: nat)
    requires a <= b <= |s| && c <= d <= b - a
    ensures s[a..b][c..d] == s[a + c..a + d]
  {
    var x, y := s[a..b][c..d], s[a + c..a + d];
    assert |x| == |y|;
    forall i | 0 <= i < |x| ensures x[i] == y[i] {
    }
  }

  /** The parts of a buffer that starts with the encoding of f. */
  lemma Parts(data: Bytes, f: Frame)
    requires ValidFrame(f)
    requires HEAD_SIZE + |f.meta| + |f.body| <= |data|
    requires data[..HEAD_SIZE + |f.meta| + |f.body|] == EncodeHead(HeadOf(f)) + (f.meta + f.body)
    ensures data[..HEAD_SIZE + |f.meta| + |f.body|] == Encode(f)
    ensures data[HEAD_SIZE..HEAD_SIZE + |f.meta|] == f.meta
    ensures data[HEAD_SIZE + |f.meta|..HEAD_SIZE + |f.meta| + |f.body|] == f.body
  {
    var n, e := HEAD_SIZE + |f.meta| + |f.body|, EncodeHead(HeadOf(f));
    assert e + (f.meta + f.body) == Encode(f);
    Slice(data, 0, n, HEAD_SIZE, HEAD_SIZE + |f.meta|);
    Slice(data, 0, n, HEAD_SIZE + |f.meta|, n);
    assert data[0..n] == data[..n];
    assert (e + (f.meta + f.body))[HEAD_SIZE..HEAD_SIZE + |f.meta|] == f.meta;
    assert (e + (f.meta + f.body))[HEAD_SIZE + |f.meta|..n] == f.body;
  }

  /** The bytes at a body offset that is not behind the end of the meta. */
  lemma BodyAt(data: Bytes, f: Frame, offset: nat)
    requires ValidFrame(f) && HEAD_SIZE + |f.meta| + |f.body| <= |data| && offset >= HEAD_SIZE
    requires data[HEAD_SIZE..HEAD_SIZE + |f.meta + f.body|] == f.meta + f.body
    ensures |f.meta| >= offset - HEAD_SIZE ==>
              data[offset..offset + |f.body|] == (f.meta + f.body)[offset - HEAD_SIZE..offset - HEAD_SIZE + |f.body|]
    ensures |f.meta| == offset - HEAD_SIZE ==> data[offset..offset + |f.body|] == f.body
  {
    if |f.meta| >= offset - HEAD_SIZE {
      var end, m, n := HEAD_SIZE + |f.meta + f.body|, offset - HEAD_SIZE, |f.body|;
      Slice(data, HEAD_SIZE, end, m, m + n);
      assert HEAD_SIZE + m == offset && HEAD_SIZE + (m + n) == offset + n;
      assert data[offset..offset + n] == (f.meta + f.body)[m..m + n];
      assert m == |f.meta| ==> (f.meta + f.body)[m..m + n] == f.body;
    }
  }
}
