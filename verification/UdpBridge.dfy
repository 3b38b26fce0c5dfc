/** The MAVLink bridge: one reused receive buffer, packets that outlive it, a learned endpoint. */
module UdpBridge {
  import opened Basics

  /** A UDP address; the address bytes are of length 4, 16 or, if unspecified, 0. */
  datatype Addr = Addr(ip: seq<byte>, port: int, zone: string)

  const V4_IN_V6: seq<byte> := [0, 0, 0, 0, 0, 0, 0, 0, 0, 0, 255, 255]
  const BUFFER_SIZE: nat := 64 * 1024

  /** `net.IP.Equal`: an IPv4 address equals its IPv6-mapped form. */
  predicate IpEqual(a: seq<byte>, b: seq<byte>) {
    if |a| == |b| then a == b
    else if |a| == 4 && |b| == 16 then b[..12] == V4_IN_V6 && a == b[12..]
    else if |a| == 16 && |b| == 4 then a[..12] == V4_IN_V6 && a[12..] == b
    else false
  }

  predicate UdpAddrEqual(a: Addr, b: Addr) {
    IpEqual(a.ip, b.ip) && a.port == b.port && a.zone == b.zone
  }

  /** The short form of an address, if it has one. */
  function Canonical(ip: seq<byte>): seq<byte> {
    if |ip| == 16 && ip[..12] == V4_IN_V6 then ip[12..] else ip
  }

  /** Equality of addresses is equality of canonical forms, hence an equivalence. */
  lemma IpEqualIsCanonical(a: seq<byte>, b: seq<byte>)
    ensures IpEqual(a, b) <==> Canonical(a) == Canonical(b)
  {
    if |a| == 16 && |b| == 16 {
      assert a == a[..12] + a[12..] && b == b[..12] + b[12..];
    }
  }

  /** In particular the two ways of writing an IPv4 address are equal, whatever its bytes. */
  lemma MappedIsEqual(a: byte, b: byte, c: byte, d: byte)
    ensures IpEqual([a, b, c, d], [0, 0, 0, 0, 0, 0, 0, 0, 0, 0, 255, 255, a, b, c, d])
  {
    var mapped: seq<byte> := [0, 0, 0, 0, 0, 0, 0, 0, 0, 0, 255, 255, a, b, c, d];
    assert mapped[..12] == V4_IN_V6 && mapped[12..] == [a, b, c, d];
  }

  /** Addresses are equal exactly when canonical IP, port and zone all are. */
  lemma AddrEqualExact(a: Addr, b: Addr)
    ensures UdpAddrEqual(a, b) <==> Addr(Canonical(a.ip), a.port, a.zone) == Addr(Canonical(b.ip), b.port, b.zone)
  {
    IpEqualIsCanonical(a.ip, b.ip);
  }

  lemma AddrEqualSymmetric(a: Addr, b: Addr)
    requires UdpAddrEqual(a, b)
    ensures UdpAddrEqual(b, a)
  {
    IpEqualIsCanonical(a.ip, b.ip);
    IpEqualIsCanonical(b.ip, a.ip);
  }

  lemma AddrEqualTransitive(a: Addr, b: Addr, c: Addr)
    requires UdpAddrEqual(a, b) && UdpAddrEqual(b, c)
    ensures UdpAddrEqual(a, c)
  {
    IpEqualIsCanonical(a.ip, b.ip);
    IpEqualIsCanonical(b.ip, c.ip);
    IpEqualIsCanonical(a.ip, c.ip);
  }

  /** A datagram arrives, or another thread installs (or removes) the handler between two reads. */
  datatype Event = Datagram(data: seq<byte>, src: Addr) | Install(handler: Option<nat>)

  /** What fits into the buffer of one read. */
  function Fit(data: seq<byte>): seq<byte> {
    if |data| <= BUFFER_SIZE then data else data[..BUFFER_SIZE]
  }

  function HandlerAfter(handler: Option<nat>, events: seq<Event>): Option<nat> {
    if events == [] then handler
    else
      var e := events[|events| - 1];
      if e.Install? then e.handler else HandlerAfter(handler, events[..|events| - 1])
  }

  /** Which handler is owed which bytes. */
  function Owed(handler: Option<nat>, events: seq<Event>): seq<(nat, seq<byte>)> {
    if events == [] then []
    else
      var k := |events| - 1;
      var h := HandlerAfter(handler, events[..k]);
      Owed(handler, events[..k])
      + (if events[k].Datagram? && h.Some? then [(h.value, Fit(events[k].data))] else [])
  }

  /** The largest payload a UDP datagram over IPv4 can have. */
  const MAX_DATAGRAM: nat := 65507

  /** Every datagram that can arrive over IPv4 fits into the buffer whole. */
  lemma FitsWhole(data: seq<byte>)
    requires |data| <= MAX_DATAGRAM
    ensures Fit(data) == data
  {
  }

  /** What the last event installed, or the handler from before the first. */
  function Installed(handler: Option<nat>, before: seq<Event>): Option<nat>
    requires before != [] ==> before[|before| - 1].Install?
  {
    if before == [] then handler else before[|before| - 1].handler
  }

  predicate AllDatagrams(events: seq<Event>) {
    forall e <- events :: e.Datagram? && |e.data| <= MAX_DATAGRAM
  }

  /** The handler in force is that of the last `Install`, or the one from before if there is none. */
  lemma {:induction false} HandlerIsLast(handler: Option<nat>, before: seq<Event>, ds: seq<Event>)
    requires (before != [] ==> before[|before| - 1].Install?) && AllDatagrams(ds)
    ensures HandlerAfter(handler, before + ds) == Installed(handler, before)
  {
    if ds == [] {
      assert before + ds == before;
    } else {
      var k := |ds| - 1;
      HandlerIsLast(handler, before, ds[..k]);
      assert (before + ds)[..|before| + k] == before + ds[..k];
      assert ds[k] in ds;
    }
  }

  /** What the datagrams `events` carry, each for the same handler. */
  function Payloads(h: nat, events: seq<Event>): seq<(nat, seq<byte>)> {
    if events == [] then []
    else
      var e := events[|events| - 1];
      Payloads(h, events[..|events| - 1]) + (if e.Datagram? then [(h, e.data)] else [])
  }

  function PayloadsTo(h: Option<nat>, events: seq<Event>): seq<(nat, seq<byte>)> {
    match h case Some(x) => Payloads(x, events) case None => []
  }

  lemma PayloadsLast(h: Option<nat>, events: seq<Event>, e: Event)
    requires e.Datagram?
    ensures PayloadsTo(h, events + [e])
         == PayloadsTo(h, events) + match h case Some(x) => [(x, e.data)] case None => []
  {
    assert (events + [e])[..|events|] == events;
  }

  lemma OwedLast(handler: Option<nat>, events: seq<Event>, e: Event)
    requires e.Datagram? && |e.data| <= MAX_DATAGRAM
    ensures Owed(handler, events + [e])
         == Owed(handler, events)
            + match HandlerAfter(handler, events) case Some(h) => [(h, e.data)] case None => []
  {
    assert (events + [e])[..|events|] == events;
    FitsWhole(e.data);
  }

  lemma Glue<T>(a: seq<T>, b: seq<T>, c: seq<T>)
    ensures (a + b) + c == a + (b + c)
  {
  }

  lemma DeliveredMore(handler: Option<nat>, before: seq<Event>, front: seq<Event>, e: Event, h: Option<nat>)
    requires e.Datagram? && |e.data| <= MAX_DATAGRAM && HandlerAfter(handler, before + front) == h
    requires Owed(handler, before + front) == Owed(handler, before) + PayloadsTo(h, front)
    ensures Owed(handler, (before + front) + [e]) == Owed(handler, before) + PayloadsTo(h, front + [e])
  {
    OwedLast(handler, before + front, e);
    PayloadsLast(h, front, e);
    Glue(Owed(handler, before), PayloadsTo(h, front), match h case Some(x) => [(x, e.data)] case None => []);
  }

  /**
   * From one `Install` to the next, and before the first: every datagram goes, whole and in order,
   * to the handler in force, and to nobody after a detach.
   */
  lemma {:induction false} DeliveredToInstalled(handler: Option<nat>, before: seq<Event>, ds: seq<Event>)
    requires (before != [] ==> before[|before| - 1].Install?) && AllDatagrams(ds)
    ensures Owed(handler, before + ds) == Owed(handler, before) + PayloadsTo(Installed(handler, before), ds)
  {
    if ds == [] {
      assert before + ds == before;
    } else {
      var front, e := ds[..|ds| - 1], ds[|ds| - 1];
      SplitOff(ds);
      DeliveredToInstalled(handler, before, front);
      HandlerIsLast(handler, before, front);
      DeliveredMore(handler, before, front, e, Installed(handler, before));
      Glue(before, front, [e]);
    }
  }

  lemma SplitOff(ds: seq<Event>)
    requires ds != []
    ensures ds == ds[..|ds| - 1] + [ds[|ds| - 1]]
    ensures AllDatagrams(ds) ==>
              AllDatagrams(ds[..|ds| - 1]) && ds[|ds| - 1].Datagram? && |ds[|ds| - 1].data| <= MAX_DATAGRAM
  {
  }

  function Learn(endpoint: Option<Addr>, src: Addr): Option<Addr> {
    if endpoint.None? || !UdpAddrEqual(endpoint.value, src) then Some(src) else endpoint
  }

  function EndpointAfter(endpoint: Option<Addr>, events: seq<Event>): Option<Addr> {
    if events == [] then endpoint
    else
      var e := events[|events| - 1];
      var before := EndpointAfter(endpoint, events[..|events| - 1]);
      if e.Datagram? then Learn(before, e.src) else before
  }

  /** The source of the most recent datagram. */
  function LastSource(events: seq<Event>): Option<Addr> {
    if events == [] then None
    else
      var e := events[|events| - 1];
      if e.Datagram? then Some(e.src) else LastSource(events[..|events| - 1])
  }

  /** Between reads the endpoint equals the source of the most recent datagram, if there was one. */
  lemma {:induction false} EndpointTracksLastSource(endpoint: Option<Addr>, events: seq<Event>)
    ensures LastSource(events).None? ==> EndpointAfter(endpoint, events) == endpoint
    ensures LastSource(events).Some? ==>
              && EndpointAfter(endpoint, events).Some?
              && UdpAddrEqual(EndpointAfter(endpoint, events).value, LastSource(events).value)
  {
    if events != [] {
      EndpointTracksLastSource(endpoint, events[..|events| - 1]);
    }
  }

  /** As long as the autopilot keeps its address, the stored endpoint is not replaced. */
  lemma {:induction false} EndpointStable(endpoint: Addr, events: seq<Event>)
    requires forall e <- events :: e.Datagram? ==> UdpAddrEqual(endpoint, e.src)
    ensures EndpointAfter(Some(endpoint), events) == Some(endpoint)
  {
    if events != [] {
      EndpointStable(endpoint, events[..|events| - 1]);
    }
  }

  /** The source of the first datagram. */
  function FirstSource(events: seq<Event>): Option<Addr> {
    if events == [] then None
    else
      var before, e := FirstSource(events[..|events| - 1]), events[|events| - 1];
      if before.Some? || e.Install? then before else Some(e.src)
  }

  lemma {:induction false} SourcesTogether(events: seq<Event>)
    ensures FirstSource(events).Some? <==> LastSource(events).Some?
  {
    if events != [] {
      SourcesTogether(events[..|events| - 1]);
    }
  }

  /** Writes go to the first address ever seen if and only if the latest datagram came from it. */
  lemma TargetIsFirstExact(events: seq<Event>)
    requires FirstSource(events).Some?
    ensures LastSource(events).Some? && EndpointAfter(None, events).Some?
    ensures UdpAddrEqual(EndpointAfter(None, events).value, FirstSource(events).value)
       <==> UdpAddrEqual(LastSource(events).value, FirstSource(events).value)
  {
    SourcesTogether(events);
    EndpointTracksLastSource(None, events);
    var now, last, first := EndpointAfter(None, events).value, LastSource(events).value, FirstSource(events).value;
    if UdpAddrEqual(now, first) {
      AddrEqualSymmetric(now, last);
      AddrEqualTransitive(last, now, first);
    }
    if UdpAddrEqual(last, first) {
      AddrEqualTransitive(now, last, first);
    }
  }

  /** The endpoint, once learned, is the first address. */
  predicate FirstAt(events: seq<Event>, first: Option<Addr>, n: nat)
    requires n <= |events|
  {
    EndpointAfter(None, events[..n]).Some? ==> EndpointAfter(None, events[..n]) == first
  }

  lemma {:induction false} OneSourceKept(events: seq<Event>, first: Addr)
    requires forall e <- events :: e.Datagram? ==> UdpAddrEqual(first, e.src)
    requires FirstSource(events).Some? ==> FirstSource(events).value == first
    ensures EndpointAfter(None, events) == if FirstSource(events).Some? then Some(first) else None
  {
    if events != [] {
      OneSourceKept(events[..|events| - 1], first);
    }
  }

  /** The first source of a longer stretch is that of a shorter one that has any. */
  lemma {:induction false} FirstOfPrefix(events: seq<Event>, n: nat)
    requires n <= |events| && FirstSource(events[..n]).Some?
    ensures FirstSource(events) == FirstSource(events[..n])
    decreases |events|
  {
    if n == |events| {
      assert events[..n] == events;
    } else {
      assert events[..|events| - 1][..n] == events[..n];
      FirstOfPrefix(events[..|events| - 1], n);
    }
  }

  lemma OneSourceSuffices(events: seq<Event>, n: nat)
    requires n <= |events| && FirstSource(events).Some?
    requires forall e <- events :: e.Datagram? ==> UdpAddrEqual(FirstSource(events).value, e.src)
    ensures FirstAt(events, FirstSource(events), n)
  {
    if FirstSource(events[..n]).Some? {
      FirstOfPrefix(events, n);
    }
    OneSourceKept(events[..n], FirstSource(events).value);
  }

  lemma OneSourceNecessary(events: seq<Event>, first: Addr, n: nat)
    requires n < |events| && events[n].Datagram? && FirstAt(events, Some(first), n + 1)
    ensures UdpAddrEqual(first, events[n].src)
  {
    assert events[..n + 1][..n] == events[..n];
    EndpointTracksLastSource(None, events[..n + 1]);
  }

  /**
   * The bridge remembers the first address it sees, as it is documented to, if and only if every
   * datagram comes from that address.
   */
  lemma FirstAddressExact(events: seq<Event>)
    requires FirstSource(events).Some?
    ensures (forall n :: 0 <= n <= |events| ==> FirstAt(events, FirstSource(events), n))
       <==> forall e <- events :: e.Datagram? ==> UdpAddrEqual(FirstSource(events).value, e.src)
  {
    var first := FirstSource(events);
    if forall e <- events :: e.Datagram? ==> UdpAddrEqual(first.value, e.src) {
      forall n | 0 <= n <= |events|
        ensures FirstAt(events, first, n)
      {
        OneSourceSuffices(events, n);
      }
    }
    if forall n :: 0 <= n <= |events| ==> FirstAt(events, first, n) {
      forall e | e in events && e.Datagram?
        ensures UdpAddrEqual(first.value, e.src)
      {
        var n :| 0 <= n < |events| && events[n] == e;
        OneSourceNecessary(events, first.value, n);
      }
    }
  }

  /** A packet as it was handed to a handler, which may keep the array for ever. */
  datatype Packet = Packet(handler: nat, data: array<byte>)

  /** The packets are the owed ones, in order, each in an array of its own. */
  ghost predicate Holds(handed: seq<Packet>, owed: seq<(nat, seq<byte>)>)
    reads set k | 0 <= k < |handed| :: handed[k].data
  {
    && |handed| == |owed|
    && (forall k :: 0 <= k < |handed| ==> handed[k].handler == owed[k].0 && handed[k].data[..] == owed[k].1)
    && (forall j, k :: 0 <= j < k < |handed| ==> handed[j].data != handed[k].data)
  }

  class Bridge {
    var endpoint: Option<Addr>
    var onPacket: Option<nat>

    constructor ()
      ensures endpoint == None && onPacket == None
    {
      endpoint, onPacket := None, None;
    }

    method SetOnPacket(handler: Option<nat>)
      modifies this`onPacket
      ensures onPacket == handler
    {
      onPacket := handler;
    }

    /** Where a write would go, or nowhere while no endpoint is known. */
    method Target() returns (r: Option<Addr>)
      ensures r == endpoint
    {
      r := endpoint;
    }

    /** One read into the reused buffer: the endpoint is learned, the datagram copied out. */
    method ReadPacket(buf: array<byte>, data: seq<byte>, src: Addr) returns (pkt: array<byte>)
      requires buf.Length == BUFFER_SIZE
      modifies this`endpoint, buf
      ensures endpoint == Learn(old(endpoint), src)
      ensures fresh(pkt) && pkt[..] == Fit(data)
    {
      var got := Receive(buf, data);
      if endpoint.None? || !UdpAddrEqual(endpoint.value, src) {
        endpoint := Some(src);
      }
      pkt := Copy(buf, got);
    }

    /**
     * The receive loop over any finite stretch of its run. When it has read any number of further
     * datagrams into its one buffer, every packet handed over still holds its own datagram, in
     * its own array; and `endpoint` and `onPacket` are as the events call for.
     */
    method Run(events: seq<Event>) returns (handed: seq<Packet>)
      modifies this
      ensures endpoint == EndpointAfter(old(endpoint), events)
      ensures onPacket == HandlerAfter(old(onPacket), events)
      ensures Holds(handed, Owed(old(onPacket), events))
      ensures forall k :: 0 <= k < |handed| ==> fresh(handed[k].data)
    {
      var buf := new byte[BUFFER_SIZE];
      handed := [];
      var n := 0;
      while n < |events|
        invariant n <= |events|
        invariant endpoint == EndpointAfter(old(endpoint), events[..n])
        invariant onPacket == HandlerAfter(old(onPacket), events[..n])
        invariant fresh(buf) && forall k :: 0 <= k < |handed| ==> fresh(handed[k].data) && handed[k].data != buf
        invariant Holds(handed, Owed(old(onPacket), events[..n]))
      {
        assert events[..n + 1][..n] == events[..n];
        match events[n] {
          case Install(h) =>
            SetOnPacket(h);
          case Datagram(data, src) =>
            var pkt := ReadPacket(buf, data, src);
            if onPacket.Some? {
              handed := handed + [Packet(onPacket.value, pkt)];
            }
        }
        n := n + 1;
      }
      assert events[..n] == events;
    }
  }

  /** One read into the reused buffer; a longer datagram is cut to the buffer. */
  method Receive(buf: array<byte>, data: seq<byte>) returns (got: nat)
    requires buf.Length == BUFFER_SIZE
    modifies buf
    ensures got <= buf.Length && buf[..got] == Fit(data)
  {
    got := if |data| <= buf.Length then |data| else buf.Length;
    forall k | 0 <= k < got {
      buf[k] := data[k];
    }
  }

  method Copy(buf: array<byte>, got: nat) returns (pkt: array<byte>)
    requires got <= buf.Length
    ensures fresh(pkt) && pkt[..] == buf[..got]
  {
    pkt := new byte[got];
    forall k | 0 <= k < got {
      pkt[k] := buf[k];
    }
  }
}
