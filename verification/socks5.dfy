/** SOCKS5 on the wire, in both directions: datagrams as whole packets, the
    handshake as a stream (RFC 1928 and RFC 1929). */
module Socks5 {
  import opened Net
  import opened Grammar

  const VERSION: u8 := 5
  const AUTH_VERSION: u8 := 1
  const ATYP_IPV4: u8 := 1
  const ATYP_DOMAIN: u8 := 3
  const ATYP_IPV6: u8 := 4

  type Bytes = seq<u8>

  datatype Address = Ip(endpoint: SocketAddr) | Domain(name: string, port: u16)

  datatype Request = Request(command: u8, address: Address)

  datatype CodecError =
    | Io
    | Version(version: u8)
    | Reserved
    | AddressType(kind: u8)
    | BadDomain(error: GrammarError)
    | Fragmented
    | Truncated

  datatype Result<+T> = Ok(value: T) | Err(error: CodecError)

  /** Bytes as the hostname grammar reads them. */
  function Chars(bytes: Bytes): (s: string)
    ensures |s| == |bytes|
  {
    seq(|bytes|, i requires 0 <= i < |bytes| => bytes[i] as char)
  }

  function U16(high: u8, low: u8): u16 {
    high * 0x100 + low
  }

  function U16Bytes(n: u16): Bytes {
    [n / 0x100, n % 0x100]
  }

  //--- the format --------------------------------------------------------------------------------

  /** Section 5 of RFC 1928: address type, address, port. */
  function EndpointBytes(a: SocketAddr): Bytes {
    [if a.ip.V4? then ATYP_IPV4 else ATYP_IPV6] + a.ip.octets + U16Bytes(a.port)
  }

  function DomainBytes(name: Bytes, port: u16): Bytes
    requires |name| < 0x100
  {
    [ATYP_DOMAIN, |name|] + name + U16Bytes(port)
  }

  /** Section 7 of RFC 1928, unfragmented. */
  function Datagram(address: Bytes, payload: Bytes): Bytes {
    [0, 0, 0] + address + payload
  }

  /** Section 4 of RFC 1928. */
  function RequestBytes(command: u8, address: Bytes): Bytes {
    [VERSION, command, 0] + address
  }

  function GreetingBytes(methods: Bytes): Bytes
    requires |methods| < 0x100
  {
    [VERSION, |methods|] + methods
  }

  /** Section 2 of RFC 1929. */
  function CredentialsBytes(username: Bytes, password: Bytes): Bytes
    requires |username| < 0x100 && |password| < 0x100
  {
    [AUTH_VERSION, |username|] + username + [|password|] + password
  }

  /** The layouts byte by byte: ports with the high byte first, and the codes of
      the address types and of both versions. */
  lemma OnTheWire(octets: Bytes, raw: Bytes, high: u8, low: u8, other: Bytes, code: u8)
    requires |raw| < 0x100 && |other| < 0x100
    ensures |octets| == 4 ==> EndpointBytes(SocketAddr(V4(octets), 256 * high + low)) == [1] + octets + [high, low]
    ensures |octets| == 16 ==> EndpointBytes(SocketAddr(V6(octets), 256 * high + low)) == [4] + octets + [high, low]
    ensures DomainBytes(raw, 256 * high + low) == [3, |raw|] + raw + [high, low]
    ensures Datagram(octets, other) == [0, 0, 0] + octets + other
    ensures RequestBytes(code, octets) == [5, code, 0] + octets
    ensures GreetingBytes(raw) == [5, |raw|] + raw
    ensures CredentialsBytes(raw, other) == [1, |raw|] + raw + [|other|] + other
  {
    var port: u16 := 256 * high + low;
    assert port / 0x100 == high && port % 0x100 == low;
  }

  /** The bytes spell the address: an endpoint exactly, a domain in any case. */
  ghost predicate Spells(bytes: Bytes, address: Address) {
    match address
    case Ip(endpoint) => bytes == EndpointBytes(endpoint)
    case Domain(name, port) =>
      exists raw: Bytes {:trigger DomainBytes(raw, port)} ::
        && |raw| < 0x100 && bytes == DomainBytes(raw, port)
        && ValidateHostname(Chars(raw)).Name? && name == Lower(Chars(raw))
  }

  //--- encoding ----------------------------------------------------------------------------------

  method EncodeSocketAddr(out: Bytes, address: SocketAddr) returns (extended: Bytes)
    ensures extended == out + EndpointBytes(address)
  {
    extended := out;
    if address.ip.V4? {
      extended := extended + [ATYP_IPV4];
      extended := extended + address.ip.octets;
    } else {
      extended := extended + [ATYP_IPV6];
      extended := extended + address.ip.octets;
    }
    extended := extended + U16Bytes(address.port);
  }

  method EncodeDatagram(from: SocketAddr, payload: Bytes) returns (out: Bytes)
    ensures out == Datagram(EndpointBytes(from), payload)
    ensures ParseDatagram(out) == Ok((Ip(from), payload))
  {
    out := [0, 0, 0];
    out := EncodeSocketAddr(out, from);
    out := out + payload;
    EndpointsParse(from, payload);
  }

  /** A reply is laid out like a request, with the code for the command. */
  method EncodeReply(code: u8, bound: SocketAddr) returns (out: Bytes)
    ensures out == RequestBytes(code, EndpointBytes(bound))
    ensures ParseRequest(out) == Ok((Request(code, Ip(bound)), []))
  {
    out := [VERSION, code, 0];
    out := EncodeSocketAddr(out, bound);
    EndpointRequests(code, bound, []);
    assert out + [] == out;
  }

  //--- datagrams ---------------------------------------------------------------------------------

  /** `rest.get(from..to)`. */
  function Get(bytes: Bytes, from: nat, to: nat): Option<Bytes>
    requires from <= to
  {
    if to <= |bytes| then Some(bytes[from..to]) else None
  }

  function PortAt(rest: Bytes, at: nat): Option<u16> {
    var two := Get(rest, at, at + 2);
    if two.None? then None else Some(U16(two.value[0], two.value[1]))
  }

  /** Reads the header of section 7 of RFC 1928; complaints in the order the
      fields come. */
  function ParseDatagram(packet: Bytes): Result<(Address, Bytes)> {
    if |packet| < 4 then Err(Truncated)
    else if packet[0] != 0 || packet[1] != 0 then Err(Reserved)
    else if packet[2] != 0 then Err(Fragmented)
    else
      var rest := packet[4..];
      if packet[3] == ATYP_IPV4 then ParseEndpoint(rest, 4)
      else if packet[3] == ATYP_IPV6 then ParseEndpoint(rest, 16)
      else if packet[3] == ATYP_DOMAIN then ParseDomain(rest)
      else Err(AddressType(packet[3]))
  }

  function ParseEndpoint(rest: Bytes, size: nat): Result<(Address, Bytes)>
    requires size == 4 || size == 16
  {
    var octets, port := Get(rest, 0, size), PortAt(rest, size);
    if octets.None? || port.None? then Err(Truncated)
    else
      var ip: IpAddr := if size == 4 then V4(octets.value) else V6(octets.value);
      Ok((Ip(SocketAddr(ip, port.value)), rest[size + 2..]))
  }

  /** The name is judged before the port is looked at. */
  function ParseDomain(rest: Bytes): Result<(Address, Bytes)> {
    if rest == [] then Err(Truncated)
    else
      var size: nat := rest[0];
      var name := Get(rest, 1, 1 + size);
      if name.None? then Err(Truncated)
      else
        match ValidateHostname(Chars(name.value))
        case Invalid(error) => Err(BadDomain(error))
        case Name(valid) =>
          var port := PortAt(rest, 1 + size);
          if port.None? then Err(Truncated) else Ok((Domain(Lower(valid), port.value), rest[size + 3..]))
  }

  /** Decoding undoes encoding, for every endpoint and payload. */
  lemma EndpointsParse(a: SocketAddr, payload: Bytes)
    ensures ParseDatagram(Datagram(EndpointBytes(a), payload)) == Ok((Ip(a), payload))
  {
    var packet := Datagram(EndpointBytes(a), payload);
    var n := |a.ip.octets|;
    var rest := packet[4..];
    assert rest == a.ip.octets + U16Bytes(a.port) + payload;
    assert rest[..n] == a.ip.octets && rest[n..n + 2] == U16Bytes(a.port) && rest[n + 2..] == payload;
  }

  lemma DomainsParse(raw: Bytes, port: u16, payload: Bytes)
    requires |raw| < 0x100
    ensures ParseDatagram(Datagram(DomainBytes(raw, port), payload)) ==
              match ValidateHostname(Chars(raw)) {
                case Invalid(error) => Err(BadDomain(error))
                case Name(_) => Ok((Domain(Lower(Chars(raw)), port), payload))
              }
  {
    var packet := Datagram(DomainBytes(raw, port), payload);
    var n := |raw|;
    var rest := packet[4..];
    assert rest == [n] + raw + U16Bytes(port) + payload;
    assert rest[1..1 + n] == raw && rest[1 + n..n + 3] == U16Bytes(port) && rest[n + 3..] == payload;
  }

  lemma U16RoundTrips(bytes: Bytes)
    requires |bytes| == 2
    ensures U16Bytes(U16(bytes[0], bytes[1])) == bytes
  {
  }

  /** What a domain field is read from spells the name that was read. */
  lemma FieldSpells(raw: Bytes, high: u8, low: u8)
    requires |raw| < 0x100 && ValidateHostname(Chars(raw)).Name?
    ensures Spells([ATYP_DOMAIN, |raw|] + raw + [high, low], Domain(Lower(Chars(raw)), U16(high, low)))
  {
    U16RoundTrips([high, low]);
    assert DomainBytes(raw, U16(high, low)) == [ATYP_DOMAIN, |raw|] + raw + [high, low];
  }

  lemma EndpointSpells(octets: Bytes, high: u8, low: u8, ip: IpAddr)
    requires octets == ip.octets
    ensures EndpointBytes(SocketAddr(ip, U16(high, low)))
            == [if ip.V4? then ATYP_IPV4 else ATYP_IPV6] + octets + [high, low]
  {
    U16RoundTrips([high, low]);
  }

  lemma EndpointSplits(kind: u8, rest: Bytes, n: nat)
    requires n + 2 <= |rest|
    ensures [kind] + rest == [kind] + rest[..n] + [rest[n], rest[n + 1]] + rest[n + 2..]
  {
  }

  lemma DomainSplits(kind: u8, rest: Bytes, n: u8)
    requires n as int + 3 <= |rest| && rest[0] == n
    ensures [kind] + rest == [kind, n] + rest[1..n + 1] + [rest[n + 1], rest[n + 2]] + rest[n + 3..]
  {
  }

  /** The bytes of an address and the rest are the whole, after any prefix. */
  lemma Reattached(bytes: Bytes, prefix: Bytes, address: Bytes, tail: Bytes)
    requires |prefix| <= |bytes| && bytes[..|prefix|] == prefix && bytes[|prefix|..] == address + tail
    ensures bytes == prefix + address + tail
  {
    assert bytes == bytes[..|prefix|] + bytes[|prefix|..];
  }

  /** The bytes of an endpoint field spell the endpoint read from them. */
  lemma ReadEndpointSpells(kind: u8, rest: Bytes, n: nat) returns (address: Bytes)
    requires n as int + 2 <= |rest|
    requires (n == 4 && kind == ATYP_IPV4) || (n == 16 && kind == ATYP_IPV6)
    ensures [kind] + rest == address + rest[n + 2..]
    ensures var ip: IpAddr := if n == 4 then V4(rest[..n]) else V6(rest[..n]);
            Spells(address, Ip(SocketAddr(ip, U16(rest[n], rest[n + 1]))))
  {
    var ip: IpAddr := if n == 4 then V4(rest[..n]) else V6(rest[..n]);
    EndpointSplits(kind, rest, n);
    EndpointSpells(rest[..n], rest[n], rest[n + 1], ip);
    address := [kind] + rest[..n] + [rest[n], rest[n + 1]];
  }

  lemma ReadDomainSpells(rest: Bytes, n: u8) returns (address: Bytes)
    requires n as int + 3 <= |rest| && rest[0] == n && ValidateHostname(Chars(rest[1..n + 1])).Name?
    ensures [ATYP_DOMAIN] + rest == address + rest[n + 3..]
    ensures Spells(address, Domain(Lower(Chars(rest[1..n + 1])), U16(rest[n + 1], rest[n + 2])))
  {
    DomainSplits(ATYP_DOMAIN, rest, n);
    FieldSpells(rest[1..n + 1], rest[n + 1], rest[n + 2]);
    address := [ATYP_DOMAIN, n] + rest[1..n + 1] + [rest[n + 1], rest[n + 2]];
  }

  lemma AcceptedEndpoint(packet: Bytes) returns (address: Bytes)
    requires |packet| >= 4 && packet[..3] == [0, 0, 0] && packet[3] != ATYP_DOMAIN && ParseDatagram(packet).Ok?
    ensures var (parsed, payload) := ParseDatagram(packet).value;
            Spells(address, parsed) && packet[3..] == address + payload
  {
    var n: nat := if packet[3] == ATYP_IPV4 then 4 else 16;
    var rest := packet[4..];
    address := ReadEndpointSpells(packet[3], rest, n);
    assert packet[3..] == [packet[3]] + rest;
  }

  lemma AcceptedDomain(packet: Bytes) returns (address: Bytes)
    requires |packet| >= 4 && packet[..3] == [0, 0, 0] && packet[3] == ATYP_DOMAIN && ParseDatagram(packet).Ok?
    ensures var (parsed, payload) := ParseDatagram(packet).value;
            Spells(address, parsed) && packet[3..] == address + payload
  {
    var rest := packet[4..];
    address := ReadDomainSpells(rest, rest[0]);
    assert packet[3..] == [packet[3]] + rest;
  }

  /** An accepted packet re-encodes to the same bytes. */
  lemma AcceptedReencodes(packet: Bytes) returns (address: Bytes)
    requires ParseDatagram(packet).Ok?
    ensures var (parsed, payload) := ParseDatagram(packet).value;
            Spells(address, parsed) && packet == Datagram(address, payload)
  {
    assert packet[..3] == [0, 0, 0];
    if packet[3] == ATYP_DOMAIN {
      address := AcceptedDomain(packet);
    } else {
      address := AcceptedEndpoint(packet);
    }
    Reattached(packet, [0, 0, 0], address, ParseDatagram(packet).value.1);
  }

  /** The packets that parse are exactly the encodings, and to what they encode. */
  lemma ParsesExactlyEncodings(packet: Bytes, parsed: Address, payload: Bytes)
    ensures ParseDatagram(packet) == Ok((parsed, payload)) <==>
              exists address: Bytes :: Spells(address, parsed) && packet == Datagram(address, payload)
  {
    if ParseDatagram(packet) == Ok((parsed, payload)) {
      var address := AcceptedReencodes(packet);
      assert Spells(address, parsed) && packet == Datagram(address, payload);
    }
    if address: Bytes :| Spells(address, parsed) && packet == Datagram(address, payload) {
      match parsed
      case Ip(endpoint) => EndpointsParse(endpoint, payload);
      case Domain(name, port) =>
        var raw: Bytes :| |raw| < 0x100 && address == DomainBytes(raw, port)
                          && ValidateHostname(Chars(raw)).Name? && name == Lower(Chars(raw));
        DomainsParse(raw, port, payload);
    }
  }

  /** Where the name of a domain ends, in a packet or a request. */
  function NameEnd(bytes: Bytes): nat
    requires |bytes| > 4
  {
    5 + bytes[4] as int
  }

  /** A packet with a whole header, from which no complaint has come so far. */
  predicate IsPlain(packet: Bytes) {
    |packet| >= 4 && packet[0] == 0 && packet[1] == 0 && packet[2] == 0
  }

  /** A packet is cut short in its header, in its address or its port, but not
      before a bad name is found. */
  predicate IsCutShort(packet: Bytes) {
    || |packet| < 4
    || (IsPlain(packet) && packet[3] == 1 && |packet| < 10)
    || (IsPlain(packet) && packet[3] == 4 && |packet| < 22)
    || (IsPlain(packet) && packet[3] == 3
        && (|packet| == 4 || |packet| < NameEnd(packet)
            || (|packet| < NameEnd(packet) + 2 && ValidateHostname(Chars(packet[5..NameEnd(packet)])).Name?)))
  }

  /** Why a packet is dropped: exactly one complaint, the first that applies. */
  lemma DropsExactly(packet: Bytes)
    ensures ParseDatagram(packet) == Err(Truncated) <==> IsCutShort(packet)
    ensures ParseDatagram(packet) == Err(Reserved) <==> |packet| >= 4 && (packet[0] != 0 || packet[1] != 0)
    ensures ParseDatagram(packet) == Err(Fragmented) <==>
              |packet| >= 4 && packet[0] == 0 && packet[1] == 0 && packet[2] != 0
    ensures forall kind :: ParseDatagram(packet) == Err(AddressType(kind)) <==>
              IsPlain(packet) && packet[3] == kind && kind !in [1, 3, 4]
    ensures forall error :: ParseDatagram(packet) == Err(BadDomain(error)) <==>
              && IsPlain(packet) && packet[3] == 3 && |packet| > 4 && |packet| >= NameEnd(packet)
              && ValidateHostname(Chars(packet[5..NameEnd(packet)])) == Invalid(error)
  {
    if IsPlain(packet) && packet[3] == 3 && |packet| > 4 && |packet| >= NameEnd(packet) {
      assert packet[4..][1..NameEnd(packet) - 4] == packet[5..NameEnd(packet)];
    }
  }

  //--- streams -----------------------------------------------------------------------------------

  /** The first `n` bytes and what follows them; an end of file in between is an
      I/O error. */
  function Cut(bytes: Bytes, n: nat): Result<(Bytes, Bytes)> {
    if n <= |bytes| then Ok((bytes[..n], bytes[n..])) else Err(Io)
  }

  /** `read_request` as a function of the stream: the request and what is left. */
  function ParseRequest(bytes: Bytes): Result<(Request, Bytes)> {
    if bytes == [] then Err(Io)
    else if bytes[0] != VERSION then Err(Version(bytes[0]))
    else if |bytes| < 3 then Err(Io)
    else if bytes[2] != 0 then Err(Reserved)
    else if |bytes| < 4 then Err(Io)
    else if bytes[3] == ATYP_IPV4 then RequestEndpoint(bytes[1], bytes[4..], 4)
    else if bytes[3] == ATYP_IPV6 then RequestEndpoint(bytes[1], bytes[4..], 16)
    else if bytes[3] == ATYP_DOMAIN then RequestDomain(bytes[1], bytes[4..])
    else Err(AddressType(bytes[3]))
  }

  function RequestEndpoint(command: u8, rest: Bytes, size: nat): Result<(Request, Bytes)>
    requires size == 4 || size == 16
  {
    if |rest| < size + 2 then Err(Io)
    else
      var ip: IpAddr := if size == 4 then V4(rest[..size]) else V6(rest[..size]);
      Ok((Request(command, Ip(SocketAddr(ip, U16(rest[size], rest[size + 1])))), rest[size + 2..]))
  }

  /** Here the port is read before the name is judged. */
  function RequestDomain(command: u8, rest: Bytes): Result<(Request, Bytes)> {
    if rest == [] || |rest| < (rest[0] as int) + 3 then Err(Io)
    else
      var size: nat := rest[0];
      match ValidateHostname(Chars(rest[1..1 + size]))
      case Invalid(error) => Err(BadDomain(error))
      case Name(valid) =>
        Ok((Request(command, Domain(Lower(valid), U16(rest[1 + size], rest[2 + size]))), rest[size + 3..]))
  }

  function ParseGreeting(bytes: Bytes): Result<(Bytes, Bytes)> {
    if bytes == [] then Err(Io)
    else if bytes[0] != VERSION then Err(Version(bytes[0]))
    else if |bytes| < 2 then Err(Io)
    else Cut(bytes[2..], bytes[1])
  }

  function ParseCredentials(bytes: Bytes): Result<((Bytes, Bytes), Bytes)> {
    if bytes == [] then Err(Io)
    else if bytes[0] != AUTH_VERSION then Err(Version(bytes[0]))
    else if |bytes| < 2 || |bytes| < (bytes[1] as int) + 3 then Err(Io)
    else
      var n: nat := bytes[1];
      var size: nat, rest := bytes[2 + n], bytes[3 + n..];
      if |rest| < size then Err(Io) else Ok(((bytes[2..2 + n], rest[..size]), rest[size..]))
  }

  /** A stream ends before its request does. */
  predicate EndsEarly(bytes: Bytes) {
    || bytes == []
    || (bytes[0] == 5 && |bytes| < 3)
    || (bytes[0] == 5 && |bytes| == 3 && bytes[2] == 0)
    || (IsRequestHead(bytes) && bytes[3] == 1 && |bytes| < 10)
    || (IsRequestHead(bytes) && bytes[3] == 4 && |bytes| < 22)
    || (IsRequestHead(bytes) && bytes[3] == 3 && (|bytes| == 4 || |bytes| < NameEnd(bytes) + 2))
  }

  predicate IsRequestHead(bytes: Bytes) {
    |bytes| >= 4 && bytes[0] == 5 && bytes[2] == 0
  }

  /** Why a request is refused. Here the port has to be there before a name is
      judged. */
  lemma RefusesExactly(bytes: Bytes)
    ensures ParseRequest(bytes) == Err(Io) <==> EndsEarly(bytes)
    ensures forall version :: ParseRequest(bytes) == Err(Version(version)) <==>
              bytes != [] && bytes[0] == version && version != 5
    ensures ParseRequest(bytes) == Err(Reserved) <==> |bytes| >= 3 && bytes[0] == 5 && bytes[2] != 0
    ensures forall kind :: ParseRequest(bytes) == Err(AddressType(kind)) <==>
              IsRequestHead(bytes) && bytes[3] == kind && kind !in [1, 3, 4]
    ensures forall error :: ParseRequest(bytes) == Err(BadDomain(error)) <==>
              && IsRequestHead(bytes) && bytes[3] == 3 && |bytes| > 4 && |bytes| >= NameEnd(bytes) + 2
              && ValidateHostname(Chars(bytes[5..NameEnd(bytes)])) == Invalid(error)
  {
    if IsRequestHead(bytes) && bytes[3] == 3 && |bytes| > 4 && |bytes| >= NameEnd(bytes) + 2 {
      assert bytes[4..][1..NameEnd(bytes) - 4] == bytes[5..NameEnd(bytes)];
    }
  }

  lemma EndpointRequests(command: u8, a: SocketAddr, tail: Bytes)
    ensures ParseRequest(RequestBytes(command, EndpointBytes(a)) + tail) == Ok((Request(command, Ip(a)), tail))
  {
    var bytes := RequestBytes(command, EndpointBytes(a)) + tail;
    var n := |a.ip.octets|;
    var rest := bytes[4..];
    assert rest == a.ip.octets + U16Bytes(a.port) + tail;
    assert rest[..n] == a.ip.octets && rest[n + 2..] == tail;
    assert rest[n] == U16Bytes(a.port)[0] && rest[n + 1] == U16Bytes(a.port)[1];
  }

  lemma DomainRequests(command: u8, raw: Bytes, port: u16, tail: Bytes)
    requires |raw| < 0x100
    ensures ParseRequest(RequestBytes(command, DomainBytes(raw, port)) + tail) ==
              match ValidateHostname(Chars(raw)) {
                case Invalid(error) => Err(BadDomain(error))
                case Name(_) => Ok((Request(command, Domain(Lower(Chars(raw)), port)), tail))
              }
  {
    var bytes := RequestBytes(command, DomainBytes(raw, port)) + tail;
    var n := |raw|;
    var rest := bytes[4..];
    assert rest == [n] + raw + U16Bytes(port) + tail;
    assert rest[1..1 + n] == raw && rest[n + 3..] == tail;
    assert rest[1 + n] == U16Bytes(port)[0] && rest[2 + n] == U16Bytes(port)[1];
  }

  lemma RequestReencodes(bytes: Bytes) returns (address: Bytes)
    requires ParseRequest(bytes).Ok?
    ensures var (request, tail) := ParseRequest(bytes).value;
            Spells(address, request.address) && bytes == RequestBytes(request.command, address) + tail
  {
    var (request, tail) := ParseRequest(bytes).value;
    var rest := bytes[4..];
    if request.address.Ip? {
      address := ReadEndpointSpells(bytes[3], rest, |request.address.endpoint.ip.octets|);
    } else {
      address := ReadDomainSpells(rest, rest[0]);
    }
    assert bytes[3..] == [bytes[3]] + rest;
    Reattached(bytes, [VERSION, request.command, 0], address, tail);
  }

  /** A request is read exactly when the stream starts with one, and exactly its
      bytes are consumed. */
  lemma ReadsExactlyRequests(bytes: Bytes, request: Request, tail: Bytes)
    ensures ParseRequest(bytes) == Ok((request, tail)) <==>
              exists address: Bytes :: Spells(address, request.address) && bytes == RequestBytes(request.command, address) + tail
  {
    if ParseRequest(bytes) == Ok((request, tail)) {
      var address := RequestReencodes(bytes);
      assert Spells(address, request.address) && bytes == RequestBytes(request.command, address) + tail;
    }
    if address: Bytes :| Spells(address, request.address) && bytes == RequestBytes(request.command, address) + tail {
      match request.address
      case Ip(endpoint) => EndpointRequests(request.command, endpoint, tail);
      case Domain(name, port) =>
        var raw: Bytes :| |raw| < 0x100 && address == DomainBytes(raw, port)
                          && ValidateHostname(Chars(raw)).Name? && name == Lower(Chars(raw));
        DomainRequests(request.command, raw, port, tail);
    }
  }

  lemma ReadsExactlyGreetings(bytes: Bytes, methods: Bytes, tail: Bytes)
    ensures ParseGreeting(bytes) == Ok((methods, tail)) <==>
              |methods| < 0x100 && bytes == GreetingBytes(methods) + tail
  {
    if ParseGreeting(bytes) == Ok((methods, tail)) {
      assert bytes == bytes[..2] + bytes[2..];
    }
    if |methods| < 0x100 && bytes == GreetingBytes(methods) + tail {
      assert bytes[2..] == methods + tail;
    }
  }

  lemma CredentialsSplit(bytes: Bytes, n: nat, username: Bytes, password: Bytes, tail: Bytes)
    requires n + 3 <= |bytes| && username == bytes[2..2 + n] && bytes[3 + n..] == password + tail
    ensures bytes == [bytes[0], bytes[1]] + username + [bytes[2 + n]] + password + tail
  {
    assert bytes == bytes[..2] + bytes[2..2 + n] + [bytes[2 + n]] + bytes[3 + n..];
    assert bytes[..2] == [bytes[0], bytes[1]];
  }

  lemma CredentialsParse(username: Bytes, password: Bytes, tail: Bytes)
    requires |username| < 0x100 && |password| < 0x100
    ensures ParseCredentials(CredentialsBytes(username, password) + tail) == Ok(((username, password), tail))
  {
    var bytes := CredentialsBytes(username, password) + tail;
    var n := |username|;
    assert bytes[2..2 + n] == username && bytes[2 + n] == |password|;
    assert bytes[3 + n..] == password + tail;
  }

  lemma ReadsExactlyCredentials(bytes: Bytes, username: Bytes, password: Bytes, tail: Bytes)
    ensures ParseCredentials(bytes) == Ok(((username, password), tail)) <==>
              |username| < 0x100 && |password| < 0x100 && bytes == CredentialsBytes(username, password) + tail
  {
    if ParseCredentials(bytes) == Ok(((username, password), tail)) {
      CredentialsSplit(bytes, bytes[1], username, password, tail);
    }
    if |username| < 0x100 && |password| < 0x100 && bytes == CredentialsBytes(username, password) + tail {
      CredentialsParse(username, password, tail);
    }
  }

  /** A client's byte stream; reading consumes it, and an early end of file
      leaves nothing. */
  class Reader {
    var rest: Bytes

    constructor (bytes: Bytes)
      ensures rest == bytes
    {
      rest := bytes;
    }

    method ReadExact(n: nat) returns (r: Result<Bytes>)
      modifies this
      ensures n <= |old(rest)| ==> r == Ok(old(rest)[..n]) && rest == old(rest)[n..]
      ensures n > |old(rest)| ==> r == Err(Io) && rest == []
    {
      if n > |rest| {
        rest := [];
        return Err(Io);
      }
      r := Ok(rest[..n]);
      rest := rest[n..];
    }

    method ReadU8() returns (r: Result<u8>)
      modifies this
      ensures old(rest) != [] ==> r == Ok(old(rest)[0]) && rest == old(rest)[1..]
      ensures old(rest) == [] ==> r == Err(Io) && rest == []
    {
      var byte := ReadExact(1);
      if byte.Err? { return Err(byte.error); }
      r := Ok(byte.value[0]);
    }

    method ReadU16() returns (r: Result<u16>)
      modifies this
      ensures |old(rest)| >= 2 ==> r == Ok(U16(old(rest)[0], old(rest)[1])) && rest == old(rest)[2..]
      ensures |old(rest)| < 2 ==> r == Err(Io) && rest == []
    {
      var two := ReadExact(2);
      if two.Err? { return Err(two.error); }
      r := Ok(U16(two.value[0], two.value[1]));
    }

    /** The client's method list. */
    method ReadGreeting() returns (r: Result<Bytes>)
      modifies this
      ensures var expected := ParseGreeting(old(rest));
              && (expected.Err? ==> r == Err(expected.error))
              && (expected.Ok? ==> r == Ok(expected.value.0) && rest == expected.value.1)
    {
      var version := ReadU8();
      if version.Err? { return Err(version.error); }
      if version.value != VERSION { return Err(Version(version.value)); }
      var count := ReadU8();
      if count.Err? { return Err(count.error); }
      r := ReadExact(count.value);
    }

    method ReadCredentials() returns (r: Result<(Bytes, Bytes)>)
      modifies this
      ensures var expected := ParseCredentials(old(rest));
              && (expected.Err? ==> r == Err(expected.error))
              && (expected.Ok? ==> r == Ok(expected.value.0) && rest == expected.value.1)
    {
      var version := ReadU8();
      if version.Err? { return Err(version.error); }
      if version.value != AUTH_VERSION { return Err(Version(version.value)); }
      var usernameLen := ReadU8();
      if usernameLen.Err? { return Err(usernameLen.error); }
      var username := ReadExact(usernameLen.value);
      if username.Err? { return Err(username.error); }
      assert username.value == old(rest)[2..usernameLen.value as int + 2];
      var passwordLen := ReadU8();
      if passwordLen.Err? { return Err(passwordLen.error); }
      assert rest == old(rest)[usernameLen.value as int + 3..];
      var password := ReadExact(passwordLen.value);
      if password.Err? { return Err(password.error); }
      r := Ok((username.value, password.value));
    }

    /** Reads one request, and not a byte beyond it. */
    method ReadRequest() returns (r: Result<Request>)
      modifies this
      ensures var expected := ParseRequest(old(rest));
              && (expected.Err? ==> r == Err(expected.error))
              && (expected.Ok? ==> r == Ok(expected.value.0) && rest == expected.value.1)
    {
      var version := ReadU8();
      if version.Err? { return Err(version.error); }
      if version.value != VERSION { return Err(Version(version.value)); }
      var command := ReadU8();
      if command.Err? { return Err(command.error); }
      var reserved := ReadU8();
      if reserved.Err? { return Err(reserved.error); }
      if reserved.value != 0 { return Err(Reserved); }
      var kind := ReadU8();
      if kind.Err? { return Err(kind.error); }
      assert rest == old(rest)[4..];
      var address: Result<Address>;
      if kind.value == ATYP_IPV4 {
        address := ReadEndpoint(4);
      } else if kind.value == ATYP_IPV6 {
        address := ReadEndpoint(16);
      } else if kind.value == ATYP_DOMAIN {
        address := ReadDomain();
      } else {
        return Err(AddressType(kind.value));
      }
      if address.Err? { return Err(address.error); }
      r := Ok(Request(command.value, address.value));
    }

    method ReadEndpoint(size: nat) returns (r: Result<Address>)
      requires size == 4 || size == 16
      modifies this
      ensures forall command :: Reads(RequestEndpoint(command, old(rest), size), command, r, rest)
    {
      ghost var before := rest;
      var octets := ReadExact(size);
      if octets.Err? { return Err(octets.error); }
      var port := ReadU16();
      if port.Err? { return Err(port.error); }
      var ip: IpAddr := if size == 4 then V4(octets.value) else V6(octets.value);
      r := Ok(Ip(SocketAddr(ip, port.value)));
      assert rest == before[size + 2..];
    }

    method ReadDomain() returns (r: Result<Address>)
      modifies this
      ensures forall command :: Reads(RequestDomain(command, old(rest)), command, r, rest)
    {
      ghost var before := rest;
      var size := ReadU8();
      if size.Err? { return Err(size.error); }
      var name := ReadExact(size.value);
      if name.Err? { return Err(name.error); }
      assert name.value == before[1..size.value as int + 1];
      var port := ReadU16();
      if port.Err? { return Err(port.error); }
      assert rest == before[size.value as int + 3..];
      match ValidateHostname(Chars(name.value)) {
        case Invalid(error) => r := Err(BadDomain(error));
        case Name(valid) => r := Ok(Domain(Lower(valid), port.value));
      }
    }
  }

  /** Reading an address gave what the stream function expects. */
  ghost predicate Reads(expected: Result<(Request, Bytes)>, command: u8, r: Result<Address>, rest: Bytes) {
    && (expected.Err? ==> r == Err(expected.error))
    && (expected.Ok? ==> r.Ok? && expected.value == (Request(command, r.value), rest))
  }
}
