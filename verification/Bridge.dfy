/** UdpBridge: datagrams to bus messages and back, and the Python client's framing on the other side. */
module Bridge {
  import opened Wrappers
  import opened Bytes
  import opened Messages
  import opened StructFormat
  import opened Schema
  import opened Generator
  import opened PackProofs
  import opened UnpackProofs
  import opened Protocol

  const MAX_DATAGRAM := 4096

  /** Ids the bridge may publish. */
  const PUBLISHES: seq<MsgId> :=
    [StateRequest, MotorSequence, KinematicsRequest, PowerRequest, ThermalRequest, AutoDriveCommand, EnvironmentData]

  datatype Datagram = Datagram(sender: nat, data: seq<byte>)

  /** A payload object on the bus, as the bytes of its memory. */
  datatype Published = Published(id: MsgId, memory: seq<byte>)

  // ---- framing -------------------------------------------------------------------------------------

  /** Two bytes of id, least significant first, then the payload. */
  function Frame(id: MsgId, payload: seq<byte>): seq<byte> {
    LittleEndian(WireId(id), 2) + payload
  }

  /** What send_msg puts on the wire. */
  function SendMsg(id: MsgId, v: Value): Option<seq<byte>> {
    var payload :- RunPack(ClassOf(PayloadOf(id)), v);
    Some(Frame(id, payload))
  }

  function RawId(data: seq<byte>): nat
    requires |data| >= 2
  {
    FromLittleEndian(data[..2])
  }

  /** The message a raw id and a payload size stand for, if the bridge may publish it. */
  function Authorized(raw: nat, size: nat): Option<MsgId> {
    var id :- FromWire(raw);
    if id in PUBLISHES && size == PayloadOf(id).size then Some(id) else None
  }

  /** What the payload of a datagram becomes on the bus. */
  function Accepted(raw: nat, payload: seq<byte>): seq<Published> {
    var id := Authorized(raw, |payload|);
    if id.Some? then [Published(id.value, payload)] else []
  }

  /** What one datagram makes the bridge publish; the receive buffer cuts it at 4096 bytes. */
  function Injected(data: seq<byte>): seq<Published> {
    var n := if |data| < MAX_DATAGRAM then |data| else MAX_DATAGRAM;
    if n < 2 then [] else Accepted(RawId(data), data[2..n])
  }

  function InjectedAll(arrivals: seq<Datagram>): seq<Published> {
    if arrivals == [] then []
    else InjectedAll(arrivals[..|arrivals| - 1]) + Injected(arrivals[|arrivals| - 1].data)
  }

  lemma InjectedNone(arrivals: seq<Datagram>)
    ensures InjectedAll(arrivals[..0]) == []
  {
  }

  lemma InjectedFrom(data: seq<byte>, n: nat)
    requires n == if |data| < MAX_DATAGRAM then |data| else MAX_DATAGRAM
    ensures Injected(data) == if n >= 2 then Accepted(FromLittleEndian(data[..2]), data[2..n]) else []
  {
    hide Accepted, FromLittleEndian;
  }

  lemma InjectedSnoc(arrivals: seq<Datagram>, k: nat)
    requires k < |arrivals|
    ensures InjectedAll(arrivals[..k + 1]) == InjectedAll(arrivals[..k]) + Injected(arrivals[k].data)
  {
    assert arrivals[..k + 1][..k] == arrivals[..k];
  }

  lemma FrameHeader(id: MsgId, payload: seq<byte>)
    ensures |Frame(id, payload)| == |payload| + 2
    ensures RawId(Frame(id, payload)) == WireId(id) && Frame(id, payload)[2..] == payload
  {
    assert Pow256(2) == 65536;
    LittleEndianRead(WireId(id), 2);
    assert Frame(id, payload)[..2] == LittleEndian(WireId(id), 2);
  }

  /** The id on the wire, least significant byte first. */
  lemma HeaderBytes(id: MsgId, payload: seq<byte>)
    ensures var d := Frame(id, payload); |d| >= 2 && d[0] == WireId(id) % 256 && d[1] == WireId(id) / 256
  {
    assert Pow256(1) == 256;
    LittleEndianByte(WireId(id), 2, 0);
    LittleEndianByte(WireId(id), 2, 1);
  }

  lemma PayloadsFit(id: MsgId)
    ensures 0 < PayloadOf(id).size <= 288
  {
  }

  // ---- the two ways across -------------------------------------------------------------------------

  /**
    A value sent by the client is published by the bridge exactly once when the id is one it may publish, and
    not at all otherwise; the payload object on the bus is the memory image of the value, so reading its
    fields gives the value back, with every byte array at its declared length.
   */
  lemma SentIsPublished(id: MsgId, vs: seq<Value>)
    requires id != InternalEnvData && ObjConforms(PayloadOf(id), vs)
    ensures var l := PayloadOf(id);
            var d := SendMsg(id, VObj(vs));
            && Regular(Class(l)) && d.Some?
            && var memory := Image(Class(l), VObj(vs));
               && Injected(d.value) == (if id in PUBLISHES then [Published(id, memory)] else [])
               && Read(Class(l), memory) == Normal(Class(l), VObj(vs))
  {
    PayloadsRegular(id);
    hide Regular, Image, Read, Normal, RunPack, ClassOf, PayloadOf, WireId, Frame, Injected;
    PackedImage(PayloadOf(id), vs);
    InjectedFrame(id, Image(Class(PayloadOf(id)), VObj(vs)));
  }

  lemma PackedImage(l: Layout, vs: seq<Value>)
    requires Regular(Class(l)) && ObjConforms(l, vs)
    ensures WellLaid(Class(l)) && Conforms(Class(l), VObj(vs))
    ensures var memory := Image(Class(l), VObj(vs));
            && |memory| == l.size && RunPack(ClassOf(l), VObj(vs)) == Some(memory)
            && Read(Class(l), memory) == Normal(Class(l), VObj(vs))
  {
    PackWireIsMemoryImage(l, vs);
    ReadOfImage(Class(l), VObj(vs));
  }

  lemma InjectedFrame(id: MsgId, memory: seq<byte>)
    requires |memory| == PayloadOf(id).size
    ensures Injected(Frame(id, memory)) == if id in PUBLISHES then [Published(id, memory)] else []
  {
    hide PayloadOf, WireId, Frame, RawId, FromWire, LittleEndian;
    var d := Frame(id, memory);
    FrameHeader(id, memory);
    PayloadsFit(id);
    FromWireId(id);
    assert d[2..|d|] == d[2..];
  }

  /** What the client makes of a datagram: nothing unless id, size and format agree. */
  function Decode(data: seq<byte>): Option<(MsgId, Value)> {
    if |data| < 2 then None
    else
      var id :- FromWire(RawId(data));
      if |data| - 2 != PayloadOf(id).size then None
      else
        var v :- RunUnpack(ClassOf(PayloadOf(id)), data[2..]);
        Some((id, v))
  }

  /** A payload object forwarded by the bridge reaches the client with the value of every field. */
  lemma ForwardedIsDecoded(id: MsgId, memory: seq<byte>)
    requires id != InternalEnvData && |memory| == PayloadOf(id).size
    ensures Regular(Class(PayloadOf(id))) && Decode(Frame(id, memory)) == Some((id, Read(Class(PayloadOf(id)), memory)))
  {
    PayloadsRegular(id);
    hide Regular, Read, RunUnpack, ClassOf, PayloadOf, RawId, WireId, FromWire, LittleEndian;
    UnpackWireReadsMemory(PayloadOf(id), memory);
    FrameHeader(id, memory);
    FromWireId(id);
  }

  /** The client takes a datagram exactly if it frames a payload of the size of its id, whose format it can read. */
  lemma DecodedExactly(data: seq<byte>, id: MsgId, v: Value)
    ensures Decode(data) == Some((id, v)) <==>
              && |data| == 2 + PayloadOf(id).size && data[0] as int + 256 * data[1] as int == WireId(id)
              && RunUnpack(ClassOf(PayloadOf(id)), data[2..]) == Some(v)
  {
    hide RunUnpack, ClassOf, PayloadOf, WireId, FromWire;
    if |data| >= 2 {
      TwoBytes(data[..2]);
      FromWireId(id);
    }
    PayloadsFit(id);
  }

  lemma TwoBytes(s: seq<byte>)
    requires |s| == 2
    ensures FromLittleEndian(s) == s[0] as int + 256 * s[1] as int
  {
    var tail := s[1..];
    assert tail == [s[1]] && tail[1..] == [];
    assert FromLittleEndian(tail[1..]) == 0;
    assert FromLittleEndian(tail) == s[1];
  }

  // ---- the bridge ----------------------------------------------------------------------------------

  /** `bus` is what was published so far, `socket` what was sent. */
  class UdpBridge {
    var peer: Option<nat>
    var bus: seq<Published>
    var socket: seq<Datagram>

    constructor ()
      ensures peer == None && bus == [] && socket == []
    {
      peer, bus, socket := None, [], [];
    }

    /** try_publish_raw: the first id of the list that matches in id and size. */
    method TryPublishRaw(raw: nat, data: seq<byte>) returns (published: bool)
      modifies this`bus
      ensures bus == old(bus) + Accepted(raw, data)
      ensures published <==> Authorized(raw, |data|).Some?
    {
      published := false;
      var k := 0;
      while k < |PUBLISHES| && !published
        invariant 0 <= k <= |PUBLISHES|
        invariant published ==> bus == old(bus) + Accepted(raw, data) && Authorized(raw, |data|).Some?
        invariant !published ==>
          bus == old(bus) && forall j | 0 <= j < k :: Authorized(raw, |data|) != Some(PUBLISHES[j])
        decreases |PUBLISHES| - k, !published
      {
        var id := PUBLISHES[k];
        FromWireId(id);
        if raw == WireId(id) && |data| == PayloadOf(id).size {
          bus := bus + [Published(id, data)];
          published := true;
        }
        k := k + 1;
      }
    }

    /** rx_loop over the datagrams that arrive before it is woken up. */
    method RxLoop(arrivals: seq<Datagram>)
      modifies this`bus, this`peer
      ensures bus == old(bus) + InjectedAll(arrivals)
      ensures peer == if arrivals == [] then old(peer) else Some(arrivals[|arrivals| - 1].sender)
    {
      hide Injected, Accepted, Authorized, FromLittleEndian, InjectedAll, PayloadOf;
      ghost var was := bus;
      var k := 0;
      InjectedNone(arrivals);
      while k < |arrivals|
        invariant 0 <= k <= |arrivals|
        invariant bus == was + InjectedAll(arrivals[..k])
        invariant peer == if k == 0 then old(peer) else Some(arrivals[k - 1].sender)
      {
        var d := arrivals[k];
        var n := if |d.data| < MAX_DATAGRAM then |d.data| else MAX_DATAGRAM;
        peer := Some(d.sender);
        InjectedFrom(d.data, n);
        InjectedSnoc(arrivals, k);
        if n >= 2 {
          var published := TryPublishRaw(FromLittleEndian(d.data[..2]), d.data[2..n]);
        }
        k := k + 1;
      }
      assert arrivals[..k] == arrivals;
    }

    /** forward_to_udp */
    method ForwardToUdp(id: MsgId, memory: seq<byte>)
      requires |memory| == PayloadOf(id).size
      modifies this`socket
      ensures socket == old(socket) + if peer.Some? then [Datagram(peer.value, Frame(id, memory))] else []
    {
      if peer.Some? {
        socket := socket + [Datagram(peer.value, LittleEndian(WireId(id), 2) + memory)];
      }
    }
  }
}
