/**
 Length-prefixed framing of messages on a byte stream (poc_StressTest/common/protocol.py).
 A message is its encoded payload; how the stream is cut up by recv is left open.
 */
module Protocol {
  import opened Collections

  type Byte = n: int | 0 <= n < 256

  const HEADER_SIZE := 4
  const LENGTH_LIMIT := 0x1_0000_0000

  /** struct "!I": four bytes, most significant first. */
  function Pack(n: nat): (h: seq<Byte>)
    requires n < LENGTH_LIMIT
    ensures |h| == HEADER_SIZE
  {
    [n / 0x100_0000, n / 0x1_0000 % 0x100, n / 0x100 % 0x100, n % 0x100]
  }

  function Unpack(h: seq<Byte>): (n: nat)
    requires |h| == HEADER_SIZE
  {
    h[0] as int * 0x100_0000 + h[1] as int * 0x1_0000 + h[2] as int * 0x100 + h[3] as int
  }

  lemma UnpackPack(n: nat)
    requires n < LENGTH_LIMIT
    ensures Unpack(Pack(n)) == n
  {
    assert n / 0x1_0000 == n / 0x100_0000 * 0x100 + n / 0x1_0000 % 0x100;
    assert n / 0x100 == n / 0x1_0000 * 0x100 + n / 0x100 % 0x100;
  }

  lemma PackUnpack(h: seq<Byte>)
    requires |h| == HEADER_SIZE
    ensures Unpack(h) < LENGTH_LIMIT && Pack(Unpack(h)) == h
  {
    var n := Unpack(h);
    var a, b, c, d := h[0] as int, h[1] as int, h[2] as int, h[3] as int;
    assert n / 0x100 == a * 0x1_0000 + b * 0x100 + c && n % 0x100 == d;
    assert n / 0x1_0000 == a * 0x100 + b && n / 0x100 % 0x100 == c;
    assert n / 0x100_0000 == a && n / 0x1_0000 % 0x100 == b;
  }

  /** One framed message; a payload too long for the header cannot be sent. */
  function Frame(payload: seq<Byte>): Option<seq<Byte>> {
    if |payload| < LENGTH_LIMIT then Some(Pack(|payload|) + payload) else None
  }

  predicate Sendable(payloads: seq<seq<Byte>>) {
    forall i | 0 <= i < |payloads| :: |payloads[i]| < LENGTH_LIMIT
  }

  /** The bytes of several messages sent one after the other. */
  function Stream(payloads: seq<seq<Byte>>): seq<Byte>
    requires Sendable(payloads)
  {
    if payloads == [] then [] else Frame(payloads[0]).value + Stream(payloads[1..])
  }

  /** A whole message stands at the front of these bytes. */
  predicate Complete(bytes: seq<Byte>) {
    |bytes| >= HEADER_SIZE && |bytes| >= HEADER_SIZE + Unpack(bytes[..HEADER_SIZE])
  }

  function FirstPayload(bytes: seq<Byte>): seq<Byte>
    requires Complete(bytes)
  {
    bytes[HEADER_SIZE..HEADER_SIZE + Unpack(bytes[..HEADER_SIZE])]
  }

  function AfterFirst(bytes: seq<Byte>): seq<Byte>
    requires Complete(bytes)
  {
    bytes[HEADER_SIZE + Unpack(bytes[..HEADER_SIZE])..]
  }

  /** Whatever follows it, a frame is read back as its payload and nothing of what follows is touched. */
  lemma FrameThenRest(payload: seq<Byte>, rest: seq<Byte>)
    requires |payload| < LENGTH_LIMIT
    ensures Complete(Frame(payload).value + rest)
    ensures FirstPayload(Frame(payload).value + rest) == payload && AfterFirst(Frame(payload).value + rest) == rest
  {
    var bytes := Frame(payload).value + rest;
    UnpackPack(|payload|);
    assert bytes[..HEADER_SIZE] == Pack(|payload|);
  }

  /** What is read as a message is exactly its frame: framing is unambiguous. */
  lemma CompleteIsFrame(bytes: seq<Byte>)
    requires Complete(bytes)
    ensures |FirstPayload(bytes)| < LENGTH_LIMIT && bytes == Frame(FirstPayload(bytes)).value + AfterFirst(bytes)
  {
    PackUnpack(bytes[..HEADER_SIZE]);
    assert bytes == bytes[..HEADER_SIZE] + FirstPayload(bytes) + AfterFirst(bytes);
  }

  // ---- the socket and the reading loops ----

  class Socket {
    /** The bytes the peer has sent before it closed and that were not received yet. */
    var incoming: seq<Byte>

    constructor (bytes: seq<Byte>)
      ensures incoming == bytes
    {
      incoming := bytes;
    }

    /** Anything from one byte up to what was asked for; nothing at all only once the peer has closed. */
    method Recv(n: nat) returns (chunk: seq<Byte>)
      requires n > 0
      modifies this
      ensures |chunk| <= n && chunk + incoming == old(incoming)
      ensures chunk == [] <==> old(incoming) == []
    {
      if |incoming| == 0 {
        return [];
      }
      var k: nat :| 1 <= k <= n && k <= |incoming|;
      chunk := incoming[..k];
      incoming := incoming[k..];
    }

    /** `_recv_exact`; None is its ConnectionError. */
    method RecvExact(n: nat) returns (r: Option<seq<Byte>>)
      modifies this
      ensures |old(incoming)| >= n ==> r == Some(old(incoming)[..n]) && incoming == old(incoming)[n..]
      ensures |old(incoming)| < n ==> r == None && incoming == []
    {
      var buf: seq<Byte> := [];
      while |buf| < n
        invariant |buf| <= n && buf + incoming == old(incoming)
      {
        var chunk := Recv(n - |buf|);
        if |chunk| == 0 {
          return None;
        }
        buf := buf + chunk;
      }
      assert buf == old(incoming)[..n];
      return Some(buf);
    }

    /** `recv_msg` */
    method RecvMsg() returns (r: Option<seq<Byte>>)
      modifies this
      ensures Complete(old(incoming)) ==>
        r == Some(FirstPayload(old(incoming))) && incoming == AfterFirst(old(incoming))
      ensures !Complete(old(incoming)) ==> r == None && incoming == []
    {
      var header := RecvExact(HEADER_SIZE);
      if header.None? {
        return None;
      }
      ghost var rest := incoming;
      r := RecvExact(Unpack(header.value));
      if r.Some? {
        assert old(incoming) == header.value + rest;
        assert FirstPayload(old(incoming)) == rest[..Unpack(header.value)];
      }
    }

    /** Receiving until the peer has closed: exactly the payloads sent, in order, with nothing left over. */
    method RecvAll(ghost sent: seq<seq<Byte>>) returns (received: seq<seq<Byte>>)
      requires Sendable(sent) && incoming == Stream(sent)
      modifies this
      ensures received == sent && incoming == []
    {
      received := [];
      var msg := RecvMsg();
      StreamComplete(sent, 0);
      while msg.Some?
        invariant |received| <= |sent| && received == sent[..|received|]
        invariant msg.None? ==> |received| == |sent| && incoming == []
        invariant msg.Some? ==>
          |received| < |sent| && msg.value == sent[|received|] && incoming == Stream(sent[|received| + 1..])
        decreases |sent| - |received|
      {
        received := received + [msg.value];
        StreamComplete(sent, |received|);
        msg := RecvMsg();
      }
    }
  }

  lemma StreamComplete(sent: seq<seq<Byte>>, k: nat)
    requires Sendable(sent) && k <= |sent|
    ensures Complete(Stream(sent[k..])) <==> k < |sent|
    ensures k < |sent| ==>
      FirstPayload(Stream(sent[k..])) == sent[k] && AfterFirst(Stream(sent[k..])) == Stream(sent[k + 1..])
    ensures sent[0..] == sent
  {
    if k < |sent| {
      assert sent[k..][1..] == sent[k + 1..];
      FrameThenRest(sent[k], Stream(sent[k + 1..]));
    }
  }
}
