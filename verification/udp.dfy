/** The relay of one UDP association: verdicts and holding queues per
    destination, and what that lets through in each direction. */
module UdpRelay {
  import opened Collections
  import opened Grammar
  import opened Net
  import opened Socks5

  const PENDING_QUEUE_LIMIT := 16

  datatype Verdict = Pending(queue: seq<Bytes>) | Allowed | Denied

  type Verdicts = map<SocketAddr, Verdict>

  //--- what should be sent -----------------------------------------------------------------------

  /** What happened to destinations: an owner's datagram came for one, or its
      admission's verdict was taken up. */
  datatype Happening = Arrived(target: SocketAddr, payload: Bytes) | Settled(target: SocketAddr, allowed: bool)

  /** The payloads that came for a destination, in order. */
  function Arrivals(trace: seq<Happening>, t: SocketAddr): seq<Bytes> {
    if trace == [] then []
    else
      var last := trace[|trace| - 1];
      Arrivals(trace[..|trace| - 1], t) + (if last.Arrived? && last.target == t then [last.payload] else [])
  }

  predicate IsSettled(trace: seq<Happening>, t: SocketAddr) {
    exists i :: 0 <= i < |trace| && trace[i].Settled? && trace[i].target == t
  }

  /** When a destination's first verdict came, or the end of the trace. */
  function SettledAt(trace: seq<Happening>, t: SocketAddr): (i: nat)
    ensures i <= |trace|
    ensures i < |trace| ==> trace[i].Settled? && trace[i].target == t
    ensures forall j :: 0 <= j < i ==> !(trace[j].Settled? && trace[j].target == t)
  {
    if trace == [] then 0
    else
      var n := |trace| - 1;
      var i := SettledAt(trace[..n], t);
      if i < n || (trace[n].Settled? && trace[n].target == t) then i else n + 1
  }

  /** The first sixteen. */
  function Held(payloads: seq<Bytes>): seq<Bytes> {
    if |payloads| <= 16 then payloads else payloads[..16]
  }

  /** Nothing unless the verdict is to allow; then the first few payloads from
      before the verdict, and all from after it. */
  function Expected(trace: seq<Happening>, t: SocketAddr): seq<Bytes> {
    var i := SettledAt(trace, t);
    if i == |trace| || !trace[i].allowed then []
    else Held(Arrivals(trace[..i], t)) + Arrivals(trace[i + 1..], t)
  }

  function SentTo(sent: seq<(SocketAddr, Bytes)>, t: SocketAddr): seq<Bytes> {
    if sent == [] then []
    else
      var last := sent[|sent| - 1];
      SentTo(sent[..|sent| - 1], t) + (if last.0 == t then [last.1] else [])
  }

  lemma AppendArrival(trace: seq<Happening>, e: Happening, t: SocketAddr)
    ensures Arrivals(trace + [e], t) == Arrivals(trace, t) + (if e.Arrived? && e.target == t then [e.payload] else [])
  {
    assert (trace + [e])[..|trace|] == trace;
  }

  lemma AppendSent(sent: seq<(SocketAddr, Bytes)>, to: SocketAddr, payload: Bytes, t: SocketAddr)
    ensures SentTo(sent + [(to, payload)], t) == SentTo(sent, t) + (if to == t then [payload] else [])
  {
    assert (sent + [(to, payload)])[..|sent|] == sent;
  }

  lemma AppendSettled(trace: seq<Happening>, e: Happening, t: SocketAddr)
    ensures var i := SettledAt(trace, t);
            SettledAt(trace + [e], t) ==
              if i < |trace| || (e.Settled? && e.target == t) then i else |trace| + 1
  {
    assert (trace + [e])[..|trace|] == trace;
  }

  lemma SplitsAlike(trace: seq<Happening>, e: Happening, i: nat)
    requires i < |trace|
    ensures (trace + [e])[..i] == trace[..i] && (trace + [e])[i] == trace[i]
    ensures (trace + [e])[i + 1..] == trace[i + 1..] + [e]
  {
  }

  /** What one more happening changes of the expectation, after the verdict ... */
  lemma AppendAfterVerdict(trace: seq<Happening>, e: Happening, t: SocketAddr)
    requires SettledAt(trace, t) < |trace|
    ensures Expected(trace + [e], t) ==
              Expected(trace, t)
              + (if trace[SettledAt(trace, t)].allowed && e.Arrived? && e.target == t then [e.payload] else [])
  {
    AppendSettled(trace, e, t);
    var i := SettledAt(trace, t);
    SplitsAlike(trace, e, i);
    var held, tail := Held(Arrivals(trace[..i], t)), Arrivals(trace[i + 1..], t);
    var one := if e.Arrived? && e.target == t then [e.payload] else [];
    AppendArrival(trace[i + 1..], e, t);
    Associates(held, tail, one);
  }

  /** ... and up to it. */
  lemma AppendBeforeVerdict(trace: seq<Happening>, e: Happening, t: SocketAddr)
    requires SettledAt(trace, t) == |trace|
    ensures Expected(trace + [e], t) ==
              if e.Settled? && e.target == t && e.allowed then Held(Arrivals(trace, t)) else []
  {
    AppendSettled(trace, e, t);
    var longer := trace + [e];
    assert longer[..|trace|] == trace && longer[|trace|] == e && longer[|trace| + 1..] == [];
  }

  /** The expectation around a verdict, spelled out. */
  lemma ExpectedAroundVerdict(before: seq<Happening>, after: seq<Happening>, t: SocketAddr, allowed: bool)
    requires !IsSettled(before, t)
    ensures Expected(before + [Settled(t, allowed)] + after, t) ==
              if allowed then Held(Arrivals(before, t)) + Arrivals(after, t) else []
  {
    var trace := before + [Settled(t, allowed)] + after;
    var i := SettledAt(trace, t);
    assert trace[|before|] == Settled(t, allowed);
    assert forall j :: 0 <= j < |before| ==> trace[j] == before[j];
    assert i == |before|;
    assert trace[..i] == before && trace[i + 1..] == after;
  }

  //--- the table ---------------------------------------------------------------------------------

  /** The verdict table tells of a destination what the trace does, and the
      relay sent what it should have. */
  ghost predicate Tells(verdicts: Verdicts, trace: seq<Happening>, sent: seq<(SocketAddr, Bytes)>, t: SocketAddr) {
    var i := SettledAt(trace, t);
    && SentTo(sent, t) == Expected(trace, t)
    && if t !in verdicts then i == |trace| && Arrivals(trace, t) == []
       else
         match verdicts[t]
         case Pending(queue) =>
           i == |trace| && queue == Held(Arrivals(trace, t)) && 1 <= |queue| <= PENDING_QUEUE_LIMIT
         case Allowed => i < |trace| && trace[i].allowed && SentTo(sent, t) != []
         case Denied => i < |trace| && !trace[i].allowed
  }

  /** Verdicts never change. */
  predicate Final(before: Verdicts, after: Verdicts) {
    forall t :: t in before ==> t in after && (!before[t].Pending? ==> after[t] == before[t])
  }

  lemma OnlyPendingChanges(verdicts: Verdicts, t: SocketAddr, v: Verdict)
    requires t in verdicts && !verdicts[t].Pending? ==> v == verdicts[t]
    ensures Final(verdicts, verdicts[t := v])
  {
  }

  predicate IsPending(verdicts: Verdicts, t: SocketAddr) {
    t in verdicts && verdicts[t].Pending?
  }

  predicate IsDecided(decided: seq<(SocketAddr, bool)>, t: SocketAddr) {
    exists i :: 0 <= i < |decided| && decided[i].0 == t
  }

  /** Every destination was put up for admission once; it is pending as long as
      that admission runs or its result waits to be taken up. */
  ghost predicate Booked(verdicts: Verdicts, started: seq<SocketAddr>, running: set<SocketAddr>, decided: seq<(SocketAddr, bool)>) {
    && (forall i, j :: 0 <= i < j < |started| ==> started[i] != started[j])
    && (forall t :: t in started <==> t in verdicts)
    && (forall i, j :: 0 <= i < j < |decided| ==> decided[i].0 != decided[j].0)
    && (forall t :: t in running ==> !IsDecided(decided, t))
    && (forall t :: IsPending(verdicts, t) <==> t in running || IsDecided(decided, t))
  }

  /** A datagram for another destination, or a verdict on one, changes nothing here. */
  lemma TellsOther(verdicts: Verdicts, verdicts': Verdicts, trace: seq<Happening>, e: Happening,
                   sent: seq<(SocketAddr, Bytes)>, sent': seq<(SocketAddr, Bytes)>, t: SocketAddr)
    requires Tells(verdicts, trace, sent, t) && e.target != t
    requires t in verdicts <==> t in verdicts'
    requires t in verdicts ==> verdicts'[t] == verdicts[t]
    requires SentTo(sent', t) == SentTo(sent, t)
    ensures Tells(verdicts', trace + [e], sent', t)
  {
    AppendExpected(trace, e, t);
    AppendSettled(trace, e, t);
    AppendArrival(trace, e, t);
  }

  lemma AppendExpected(trace: seq<Happening>, e: Happening, t: SocketAddr)
    ensures SettledAt(trace, t) < |trace| ==>
              Expected(trace + [e], t) ==
                Expected(trace, t)
                + (if trace[SettledAt(trace, t)].allowed && e.Arrived? && e.target == t then [e.payload] else [])
    ensures SettledAt(trace, t) == |trace| ==>
              Expected(trace + [e], t) ==
                if e.Settled? && e.target == t && e.allowed then Held(Arrivals(trace, t)) else []
  {
    if SettledAt(trace, t) < |trace| {
      AppendAfterVerdict(trace, e, t);
    } else {
      AppendBeforeVerdict(trace, e, t);
    }
  }

  /** What the table says of a destination once a datagram came for it. */
  function Took(verdicts: Verdicts, t: SocketAddr, payload: Bytes): Verdict {
    if t !in verdicts then Pending([payload])
    else if verdicts[t].Pending? && |verdicts[t].queue| < PENDING_QUEUE_LIMIT then Pending(verdicts[t].queue + [payload])
    else verdicts[t]
  }

  lemma TellsArrival(verdicts: Verdicts, trace: seq<Happening>, sent: seq<(SocketAddr, Bytes)>, t: SocketAddr, payload: Bytes)
    requires Tells(verdicts, trace, sent, t)
    ensures var sent' := if t in verdicts && verdicts[t].Allowed? then sent + [(t, payload)] else sent;
            Tells(verdicts[t := Took(verdicts, t, payload)], trace + [Arrived(t, payload)], sent', t)
  {
    var e := Arrived(t, payload);
    AppendExpected(trace, e, t);
    AppendSettled(trace, e, t);
    AppendArrival(trace, e, t);
    AppendSent(sent, t, payload, t);
    var all := Arrivals(trace, t);
    if t in verdicts && verdicts[t].Pending? {
      assert |all| >= PENDING_QUEUE_LIMIT ==> Held(all + [payload]) == Held(all);
    }
  }

  lemma TellsVerdict(verdicts: Verdicts, trace: seq<Happening>, sent: seq<(SocketAddr, Bytes)>, sent': seq<(SocketAddr, Bytes)>,
                     t: SocketAddr, allowed: bool)
    requires Tells(verdicts, trace, sent, t) && IsPending(verdicts, t)
    requires SentTo(sent', t) == SentTo(sent, t) + (if allowed then verdicts[t].queue else [])
    ensures Tells(verdicts[t := if allowed then Allowed else Denied], trace + [Settled(t, allowed)], sent', t)
  {
    AppendExpected(trace, Settled(t, allowed), t);
    AppendSettled(trace, Settled(t, allowed), t);
  }

  /** A new destination is booked by starting its admission. */
  lemma Books(verdicts: Verdicts, started: seq<SocketAddr>, running: set<SocketAddr>, decided: seq<(SocketAddr, bool)>,
              t: SocketAddr, payload: Bytes)
    requires Booked(verdicts, started, running, decided) && t !in verdicts
    ensures Booked(verdicts[t := Pending([payload])], started + [t], running + {t}, decided)
  {
    var verdicts' := verdicts[t := Pending([payload])];
    assert !IsPending(verdicts, t);
    forall u ensures IsPending(verdicts', u) <==> u in running + {t} || IsDecided(decided, u) {
      assert u != t ==> (IsPending(verdicts', u) <==> IsPending(verdicts, u));
    }
  }

  lemma BookedStays(verdicts: Verdicts, started: seq<SocketAddr>, running: set<SocketAddr>, decided: seq<(SocketAddr, bool)>,
                    t: SocketAddr, v: Verdict)
    requires Booked(verdicts, started, running, decided) && t in verdicts && v.Pending? == verdicts[t].Pending?
    ensures Booked(verdicts[t := v], started, running, decided)
  {
    forall u ensures IsPending(verdicts[t := v], u) <==> IsPending(verdicts, u) {
    }
  }

  lemma BookedFinish(verdicts: Verdicts, started: seq<SocketAddr>, running: set<SocketAddr>, decided: seq<(SocketAddr, bool)>,
                     t: SocketAddr, allowed: bool)
    requires Booked(verdicts, started, running, decided) && t in running
    ensures Booked(verdicts, started, running - {t}, decided + [(t, allowed)])
  {
    var decided' := decided + [(t, allowed)];
    forall u ensures IsDecided(decided', u) <==> u == t || IsDecided(decided, u) {
      if u == t { assert decided'[|decided|].0 == t; }
      if i :| 0 <= i < |decided| && decided[i].0 == u { assert decided'[i].0 == u; }
    }
    assert forall i :: 0 <= i < |decided| ==> decided[i].0 != t by {
      assert !IsDecided(decided, t);
    }
  }

  lemma BookedSettle(verdicts: Verdicts, started: seq<SocketAddr>, running: set<SocketAddr>, decided: seq<(SocketAddr, bool)>,
                     v: Verdict)
    requires Booked(verdicts, started, running, decided) && decided != [] && !v.Pending?
    ensures IsPending(verdicts, decided[0].0)
    ensures Booked(verdicts[decided[0].0 := v], started, running, decided[1..])
  {
    var t := decided[0].0;
    assert IsDecided(decided, t);
    forall u ensures IsDecided(decided[1..], u) <==> u != t && IsDecided(decided, u) {
      if i :| 0 <= i < |decided| && decided[i].0 == u { assert u != t ==> decided[1..][i - 1].0 == u; }
      if i :| 0 <= i < |decided| - 1 && decided[1..][i].0 == u { assert decided[i + 1].0 == u; }
    }
    forall u ensures IsPending(verdicts[t := v], u) <==> u != t && IsPending(verdicts, u) {
    }
  }

  //--- the relay ---------------------------------------------------------------------------------

  datatype Destination = Destination(target: SocketAddr, claimed: Option<string>, payload: Bytes)

  /** An admission that was started, with the name it was started under. */
  datatype Admission = Admission(target: SocketAddr, claimed: Option<string>)

  function Targets(started: seq<Admission>): (targets: seq<SocketAddr>)
    ensures |targets| == |started|
  {
    seq(|started|, i requires 0 <= i < |started| => started[i].target)
  }

  lemma OneMoreTarget(started: seq<Admission>, a: Admission)
    ensures Targets(started + [a]) == Targets(started) + [a.target]
  {
  }

  function Canonical(a: SocketAddr): SocketAddr {
    SocketAddr(ToCanonical(a.ip), a.port)
  }

  /** Where a packet wants to go; `resolved` is what its domain resolves to. */
  function DestinationOf(packet: Bytes, resolved: Option<SocketAddr>): Option<Destination> {
    match ParseDatagram(packet)
    case Err(_) => None
    case Ok((Ip(target), payload)) => Some(Destination(Canonical(target), None, payload))
    case Ok((Domain(name, _), payload)) =>
      if resolved.None? then None else Some(Destination(Canonical(resolved.value), Some(name), payload))
  }

  /** The packet is the encoding of a datagram for `d`: of one to an address, or of
      one to a host name that was resolved. */
  ghost predicate Encodes(packet: Bytes, resolved: Option<SocketAddr>, d: Destination) {
    || (exists a: SocketAddr :: EncodesEndpoint(packet, a, d))
    || (exists raw: Bytes, port: u16 :: EncodesDomain(packet, raw, port, resolved, d))
  }

  predicate EncodesEndpoint(packet: Bytes, a: SocketAddr, d: Destination) {
    packet == Datagram(EndpointBytes(a), d.payload) && d.target == SocketAddr(ToCanonical(a.ip), a.port) && d.claimed == None
  }

  ghost predicate EncodesDomain(packet: Bytes, raw: Bytes, port: u16, resolved: Option<SocketAddr>, d: Destination) {
    && |raw| < 0x100 && packet == Datagram(DomainBytes(raw, port), d.payload)
    && IsLdhName(Chars(raw)) && d.claimed == Some(Lower(Chars(raw)))
    && resolved.Some? && d.target == SocketAddr(ToCanonical(resolved.value.ip), resolved.value.port)
  }

  /** Exactly the packets that encode a destination have one, and they have that. */
  lemma DestinationIff(packet: Bytes, resolved: Option<SocketAddr>, d: Destination)
    ensures DestinationOf(packet, resolved) == Some(d) <==> Encodes(packet, resolved, d)
  {
    if DestinationOf(packet, resolved) == Some(d) {
      var address := AcceptedReencodes(packet);
      match ParseDatagram(packet).value.0
      case Ip(a) => assert EncodesEndpoint(packet, a, d);
      case Domain(name, port) =>
        var raw: Bytes :| |raw| < 0x100 && address == DomainBytes(raw, port)
                          && ValidateHostname(Chars(raw)).Name? && name == Lower(Chars(raw));
        ValidatesExactlyLdhNames(Chars(raw));
        assert EncodesDomain(packet, raw, port, resolved, d);
    }
    if a: SocketAddr :| EncodesEndpoint(packet, a, d) {
      EndpointsParse(a, d.payload);
    }
    if raw: Bytes, port: u16 :| EncodesDomain(packet, raw, port, resolved, d) {
      DomainsParse(raw, port, d.payload);
      ValidatesExactlyLdhNames(Chars(raw));
    }
  }

  /** A reply that was forwarded: from where, and how much had been sent by then. */
  datatype Origin = Origin(from: SocketAddr, payload: Bytes, sentBefore: nat)

  /** Every reply went to the owner, wraps what came from an endpoint, and that
      endpoint had been sent something before. */
  ghost predicate Solicited(client: Option<SocketAddr>, replies: seq<(SocketAddr, Bytes)>, origins: seq<Origin>,
                            sent: seq<(SocketAddr, Bytes)>) {
    && |replies| == |origins|
    && forall i :: 0 <= i < |replies| ==>
         && client == Some(replies[i].0)
         && replies[i].1 == Datagram(EndpointBytes(origins[i].from), origins[i].payload)
         && WasSent(sent, origins[i])
  }

  ghost predicate WasSent(sent: seq<(SocketAddr, Bytes)>, origin: Origin) {
    origin.sentBefore <= |sent| && SentTo(sent[..origin.sentBefore], origin.from) != []
  }

  lemma StillSolicited(client: Option<SocketAddr>, replies: seq<(SocketAddr, Bytes)>, origins: seq<Origin>,
                       sent: seq<(SocketAddr, Bytes)>, sent': seq<(SocketAddr, Bytes)>)
    requires Solicited(client, replies, origins, sent) && sent <= sent'
    ensures Solicited(client, replies, origins, sent')
  {
    forall i | 0 <= i < |replies| ensures WasSent(sent', origins[i]) {
      assert WasSent(sent, origins[i]);
      assert sent'[..origins[i].sentBefore] == sent[..origins[i].sentBefore];
    }
  }

  ghost predicate AllTell(verdicts: Verdicts, trace: seq<Happening>, sent: seq<(SocketAddr, Bytes)>) {
    forall t :: Tells(verdicts, trace, sent, t)
  }

  /** Payloads were handed over for one destination, in order, and nothing else. */
  ghost predicate Handed(sent: seq<(SocketAddr, Bytes)>, sent': seq<(SocketAddr, Bytes)>, target: SocketAddr,
                         payloads: seq<Bytes>) {
    && sent <= sent'
    && SentTo(sent', target) == SentTo(sent, target) + payloads
    && forall t :: t != target ==> SentTo(sent', t) == SentTo(sent, t)
  }

  lemma HandedMore(sent: seq<(SocketAddr, Bytes)>, sent': seq<(SocketAddr, Bytes)>, target: SocketAddr,
                   payloads: seq<Bytes>, payload: Bytes)
    requires Handed(sent, sent', target, payloads)
    ensures Handed(sent, sent' + [(target, payload)], target, payloads + [payload])
  {
    forall t { AppendSent(sent', target, payload, t); }
  }

  class Relay {
    var client: Option<SocketAddr>
    var verdicts: Verdicts
    /** Payloads handed to the upstream sockets. */
    var sent: seq<(SocketAddr, Bytes)>
    /** Packets handed to the client's socket. */
    var replies: seq<(SocketAddr, Bytes)>
    /** Admissions started so far, those still running, and results to take up. */
    var started: seq<Admission>
    var running: set<SocketAddr>
    var decided: seq<(SocketAddr, bool)>
    ghost var trace: seq<Happening>
    ghost var origins: seq<Origin>

    constructor ()
      ensures Valid() && client == None && verdicts == map[] && sent == [] && replies == [] && trace == []
    {
      client, verdicts, sent, replies := None, map[], [], [];
      started, running, decided := [], {}, [];
      trace, origins := [], [];
    }

    /** In every reachable state. */
    ghost predicate Valid()
      reads this
    {
      && AllTell(verdicts, trace, sent)
      && Booked(verdicts, Targets(started), running, decided)
      && Solicited(client, replies, origins, sent)
    }

    /** A packet on the client's side. Only the first sender is listened to, and
        only when the packet encodes a destination. */
    method OnDatagram(source: SocketAddr, packet: Bytes, resolved: Option<SocketAddr>)
      requires Valid()
      modifies this
      ensures Valid() && Final(old(verdicts), verdicts)
      ensures client == if old(client).None? then Some(source) else old(client)
      ensures replies == old(replies) && origins == old(origins) && decided == old(decided)
      ensures forall d :: client == Some(source) && Encodes(packet, resolved, d) ==>
                && trace == old(trace) + [Arrived(d.target, d.payload)]
                && verdicts == old(verdicts)[d.target := Took(old(verdicts), d.target, d.payload)]
                && started == (if d.target in old(verdicts) then old(started)
                               else old(started) + [Admission(d.target, d.claimed)])
                && running == (if d.target in old(verdicts) then old(running) else old(running) + {d.target})
                && sent == (if d.target in old(verdicts) && old(verdicts)[d.target].Allowed?
                            then old(sent) + [(d.target, d.payload)] else old(sent))
      ensures client != Some(source) || (forall d :: !Encodes(packet, resolved, d)) ==>
                && trace == old(trace) && verdicts == old(verdicts) && sent == old(sent)
                && started == old(started) && running == old(running)
    {
      if client.None? {
        client := Some(source);
      }
      if client.value != source { return; }
      var d := DestinationOf(packet, resolved);
      forall e ensures Encodes(packet, resolved, e) <==> d == Some(e) {
        DestinationIff(packet, resolved, e);
      }
      if d.None? { return; }
      Take(d.value.target, d.value.claimed, d.value.payload);
    }

    /** An owner's payload for a destination. */
    method Take(target: SocketAddr, claimed: Option<string>, payload: Bytes)
      requires Valid()
      modifies this`verdicts, this`sent, this`started, this`running, this`trace
      ensures Valid() && Final(old(verdicts), verdicts)
      ensures trace == old(trace) + [Arrived(target, payload)]
      ensures verdicts == old(verdicts)[target := Took(old(verdicts), target, payload)]
      ensures started == (if target in old(verdicts) then old(started) else old(started) + [Admission(target, claimed)])
      ensures running == (if target in old(verdicts) then old(running) else old(running) + {target})
      ensures sent == if target in old(verdicts) && old(verdicts)[target].Allowed? then old(sent) + [(target, payload)] else old(sent)
    {
      ghost var took := Took(verdicts, target, payload);
      OnlyPendingChanges(verdicts, target, took);
      if target in verdicts {
        BookedStays(verdicts, Targets(started), running, decided, target, took);
        Queue(target, payload);
      } else {
        Books(verdicts, Targets(started), running, decided, target, payload);
        OneMoreTarget(started, Admission(target, claimed));
        verdicts := verdicts[target := Pending([payload])];
        started, running := started + [Admission(target, claimed)], running + {target};
      }
      trace := trace + [Arrived(target, payload)];
      TakeTells(old(verdicts), verdicts, old(trace), trace, old(sent), sent, target, payload);
      StillSolicited(client, replies, origins, old(sent), sent);
    }

    /** For a destination with an entry: send, drop, or hold if there is room. */
    method Queue(target: SocketAddr, payload: Bytes)
      requires target in verdicts
      modifies this`verdicts, this`sent
      ensures verdicts == old(verdicts)[target := Took(old(verdicts), target, payload)]
      ensures sent == if old(verdicts)[target].Allowed? then old(sent) + [(target, payload)] else old(sent)
    {
      match verdicts[target] {
        case Allowed =>
          sent := sent + [(target, payload)];
        case Denied =>
        case Pending(queue) =>
          if |queue| < PENDING_QUEUE_LIMIT {
            verdicts := verdicts[target := Pending(queue + [payload])];
          }
      }
    }

    /** An admission returns; its result waits in the channel. */
    method OnAdmitFinished(target: SocketAddr, allowed: bool)
      requires Valid() && target in running
      modifies this`running, this`decided
      ensures Valid()
      ensures running == old(running) - {target} && decided == old(decided) + [(target, allowed)]
    {
      BookedFinish(verdicts, Targets(started), running, decided, target, allowed);
      running, decided := running - {target}, decided + [(target, allowed)];
    }

    /** Takes up the next admission's result and sends what was held. */
    method OnDecided()
      requires Valid() && decided != []
      modifies this`verdicts, this`sent, this`decided, this`trace
      ensures Valid() && Final(old(verdicts), verdicts)
      ensures var (target, allowed) := old(decided)[0];
              && IsPending(old(verdicts), target)
              && verdicts == old(verdicts)[target := if allowed then Allowed else Denied]
              && trace == old(trace) + [Settled(target, allowed)]
      ensures decided == old(decided)[1..]
    {
      var (target, allowed) := decided[0];
      BookedSettle(verdicts, Targets(started), running, decided, if allowed then Allowed else Denied);
      decided := decided[1..];
      Settle(target, allowed);
    }

    method Settle(target: SocketAddr, allowed: bool)
      requires IsPending(verdicts, target)
      requires AllTell(verdicts, trace, sent) && Solicited(client, replies, origins, sent)
      modifies this`verdicts, this`sent, this`trace
      ensures AllTell(verdicts, trace, sent) && Solicited(client, replies, origins, sent)
      ensures Final(old(verdicts), verdicts)
      ensures verdicts == old(verdicts)[target := if allowed then Allowed else Denied]
      ensures trace == old(trace) + [Settled(target, allowed)]
    {
      var queued := verdicts[target].queue;
      OnlyPendingChanges(verdicts, target, if allowed then Allowed else Denied);
      verdicts := verdicts[target := if allowed then Allowed else Denied];
      if allowed {
        Flush(target, queued);
      }
      trace := trace + [Settled(target, allowed)];
      VerdictTells(old(verdicts), verdicts, old(trace), trace, old(sent), sent, target, allowed);
      StillSolicited(client, replies, origins, old(sent), sent);
    }

    method Flush(target: SocketAddr, queued: seq<Bytes>)
      modifies this`sent
      ensures Handed(old(sent), sent, target, queued)
    {
      for i := 0 to |queued|
        invariant Handed(old(sent), sent, target, queued[..i])
      {
        HandedMore(old(sent), sent, target, queued[..i], queued[i]);
        assert queued[..i + 1] == queued[..i] + [queued[i]];
        sent := sent + [(target, queued[i])];
      }
      assert queued[..|queued|] == queued;
    }

    /** A datagram from upstream; the IPv6 socket reports IPv4 peers as mapped. */
    method OnReply(source: SocketAddr, payload: Bytes, fromV6: bool)
      requires Valid() && (!fromV6 ==> source.ip.V4?)
      modifies this`replies, this`origins
      ensures Valid()
      ensures var from := Canonical(source);
              if client.Some? && from in verdicts && verdicts[from].Allowed? then
                && replies == old(replies) + [(client.value, Datagram(EndpointBytes(from), payload))]
                && origins == old(origins) + [Origin(from, payload, |sent|)]
              else replies == old(replies) && origins == old(origins)
    {
      var from := if fromV6 then Canonical(source) else source;
      assert from == Canonical(source);
      if client.None? || from !in verdicts || !verdicts[from].Allowed? { return; }
      var packet := EncodeDatagram(from, payload);
      assert Tells(verdicts, trace, sent, from) && sent[..|sent|] == sent;
      replies := replies + [(client.value, packet)];
      origins := origins + [Origin(from, payload, |sent|)];
    }
  }

  lemma TakeTells(verdicts: Verdicts, verdicts': Verdicts, trace: seq<Happening>, trace': seq<Happening>,
                  sent: seq<(SocketAddr, Bytes)>, sent': seq<(SocketAddr, Bytes)>, target: SocketAddr, payload: Bytes)
    requires AllTell(verdicts, trace, sent)
    requires verdicts' == verdicts[target := Took(verdicts, target, payload)]
    requires trace' == trace + [Arrived(target, payload)]
    requires sent' == if target in verdicts && verdicts[target].Allowed? then sent + [(target, payload)] else sent
    ensures AllTell(verdicts', trace', sent')
  {
    forall t ensures Tells(verdicts', trace', sent', t) {
      if t == target {
        TellsArrival(verdicts, trace, sent, t, payload);
      } else {
        AppendSent(sent, target, payload, t);
        TellsOther(verdicts, verdicts', trace, Arrived(target, payload), sent, sent', t);
      }
    }
  }

  lemma VerdictTells(verdicts: Verdicts, verdicts': Verdicts, trace: seq<Happening>, trace': seq<Happening>,
                     sent: seq<(SocketAddr, Bytes)>, sent': seq<(SocketAddr, Bytes)>, target: SocketAddr, allowed: bool)
    requires AllTell(verdicts, trace, sent) && IsPending(verdicts, target)
    requires Handed(sent, sent', target, if allowed then verdicts[target].queue else [])
    requires verdicts' == verdicts[target := if allowed then Allowed else Denied]
    requires trace' == trace + [Settled(target, allowed)]
    ensures AllTell(verdicts', trace', sent')
  {
    forall t ensures Tells(verdicts', trace', sent', t) {
      if t == target {
        TellsVerdict(verdicts, trace, sent, sent', t, allowed);
      } else {
        TellsOther(verdicts, verdicts', trace, Settled(target, allowed), sent, sent', t);
      }
    }
  }
}
