/**
  Start-up of the server: which IPv4 (or CLI) address, which optional IPv6
  address, which port and which domain it binds, whether ACME and TLS are
  on, and the listeners that follow from those choices.
 */
module Listen {
  import opened Wrappers

  type u16 = x: int | 0 <= x < 0x1_0000

  datatype Ipv4 = Ipv4(bits: bv32)
  datatype Ipv6 = Ipv6(bits: bv128)
  datatype IpAddr = V4(v4: Ipv4) | V6(v6: Ipv6)

  /** `Ipv4Addr::UNSPECIFIED` (0.0.0.0) and `Ipv6Addr::UNSPECIFIED` (::). */
  const V4_UNSPECIFIED := Ipv4(0)
  const V6_UNSPECIFIED := Ipv6(0)

  /** The fallback port, which also means "no port given" on the command line. */
  const DEFAULT_PORT: u16 := 65530
  /** The domain that stands for "no public domain". */
  const LOCAL_DOMAIN := "local"
  const ACME_CACHE := "assets/certs"
  const CERT_PATH := "assets/certs/cert.pem"
  const KEY_PATH := "assets/certs/key.pem"

  /** `str::parse` for each address family: `None` when the text is not an address. */
  datatype Parsers = Parsers(v4: string -> Option<Ipv4>, v6: string -> Option<Ipv6>)

  /** The command-line options that bear on binding. */
  datatype Args = Args(ip: Option<IpAddr>, port: u16)

  /** The `listen` section of the configuration file; every entry is optional. */
  datatype ListenConfig = ListenConfig(
    ip: Option<string>,
    ipv6: Option<string>,
    port: Option<u16>,
    domain: Option<string>,
    acme: Option<bool>,
    tls: Option<bool>)

  function MapOption<T, U>(o: Option<T>, f: T -> U): Option<U> {
    match o
    case Some(v) => Some(f(v))
    case None => None
  }

  /** The address a configured text stands for: the parsed one, else the unspecified one. */
  function ParsedOr<A>(text: Option<string>, parse: string -> Option<A>, unspecified: A): (a: A)
    ensures text.Some? && parse(text.value).Some? ==> a == parse(text.value).value
    ensures text.None? || parse(text.value).None? ==> a == unspecified
  {
    MapOption(text, (t: string) => parse(t).UnwrapOr(unspecified)).UnwrapOr(unspecified)
  }

  /** `(ipaddr, ipv6addr)`: the main address and the optional second IPv6 address. */
  function BindAddresses(args: Args, listen: Option<ListenConfig>, parsers: Parsers): (r: (IpAddr, Option<Ipv6>))
    ensures args.ip.Some? ==> r == (args.ip.value, None)
    ensures args.ip.None? && listen.None? ==> r == (V4(V4_UNSPECIFIED), None)
    ensures args.ip.None? && listen.Some? ==>
      && r.0 == V4(ParsedOr(listen.value.ip, parsers.v4, V4_UNSPECIFIED))
      && (r.1.Some? <==> listen.value.ipv6.Some?)
      && (r.1.Some? ==> r.1.value == ParsedOr(listen.value.ipv6, parsers.v6, V6_UNSPECIFIED))
    ensures r.1.Some? ==> args.ip.None? && listen.Some? && r.0.V4?
  {
    if args.ip.Some? then
      (args.ip.value, None)
    else if listen.Some? then
      var v4 := ParsedOr(listen.value.ip, parsers.v4, V4_UNSPECIFIED);
      var v6 := MapOption(listen.value.ipv6, (t: string) => ParsedOr(Some(t), parsers.v6, V6_UNSPECIFIED));
      (V4(v4), v6)
    else
      (V4(V4_UNSPECIFIED), None)
  }

  /** The CLI port is taken when it is neither 0 nor the default. */
  predicate CliPortGiven(port: u16) {
    port > 0 && port != DEFAULT_PORT
  }

  /** `bind_port`. */
  function BindPort(args: Args, listen: Option<ListenConfig>): (r: u16)
    ensures CliPortGiven(args.port) ==> r == args.port
    ensures !CliPortGiven(args.port) && listen.Some? && listen.value.port.Some? ==> r == listen.value.port.value
    ensures !CliPortGiven(args.port) && (listen.None? || listen.value.port.None?) ==> r == DEFAULT_PORT
    ensures r == 0 ==> !CliPortGiven(args.port) && listen.Some? && listen.value.port == Some(0)
  {
    if args.port > 0 && args.port != DEFAULT_PORT then args.port
    else if listen.Some? then listen.value.port.UnwrapOr(DEFAULT_PORT)
    else DEFAULT_PORT
  }

  /** `(bind_domain, use_acme, use_tls)`. */
  datatype Security = Security(domain: string, acme: bool, tls: bool)

  function ResolveSecurity(listen: Option<ListenConfig>): (r: Security)
    ensures listen.None? ==> r == Security(LOCAL_DOMAIN, false, false)
    ensures listen.Some? ==> r.domain == listen.value.domain.UnwrapOr(LOCAL_DOMAIN)
    ensures r.acme <==> listen.Some? && r.domain != LOCAL_DOMAIN && listen.value.acme == Some(true)
    ensures r.tls <==> r.acme || (listen.Some? && listen.value.tls == Some(true))
  {
    if listen.Some? then
      var config := listen.value;
      var domain := config.domain.UnwrapOr(LOCAL_DOMAIN);
      var acme := if domain == LOCAL_DOMAIN then false else config.acme.UnwrapOr(false);
      var tls := if acme then true else config.tls.UnwrapOr(false);
      Security(domain, acme, tls)
    else
      Security(LOCAL_DOMAIN, false, false)
  }

  /** ACME needs a real domain and always brings TLS with it. */
  lemma AcmeImpliesTls(listen: Option<ListenConfig>)
    ensures var s := ResolveSecurity(listen); s.acme ==> s.tls && s.domain != LOCAL_DOMAIN
  {
  }

  datatype SocketAddr = SocketAddr(ip: IpAddr, port: u16)
  datatype Transport = Tcp | Quic
  /** How a listener secures its connections. */
  datatype Guard = Plain | Rustls(certPath: string, keyPath: string) | Acme(domain: string, cachePath: string)
  datatype Listener = Listener(transport: Transport, guard: Guard, addr: SocketAddr)

  datatype Branch = AcmeBranch | TlsBranch | TcpBranch

  /** Which of the three start-up branches runs: ACME first, then TLS, then plain TCP. */
  function ChooseBranch(security: Security): (b: Branch)
    ensures b == AcmeBranch <==> security.acme
    ensures b == TlsBranch <==> !security.acme && security.tls
    ensures b == TcpBranch <==> !security.acme && !security.tls
  {
    if security.acme then AcmeBranch else if security.tls then TlsBranch else TcpBranch
  }

  /** The listeners the chosen branch joins and binds, in the order it joins them. */
  function Listeners(addr: SocketAddr, ipv6: Option<Ipv6>, security: Security): (ls: seq<Listener>)
    ensures forall k | 0 <= k < |ls| :: ls[k].addr.port == addr.port
    ensures forall k | 0 <= k < |ls| :: ls[k].addr.ip == addr.ip || (ipv6.Some? && ls[k].addr.ip == V6(ipv6.value))
    ensures exists k | 0 <= k < |ls| :: ls[k].addr == addr && ls[k].transport == Tcp
    ensures ipv6.Some? ==> exists k | 0 <= k < |ls| :: ls[k].addr == SocketAddr(V6(ipv6.value), addr.port)
    ensures ipv6.None? ==> forall k | 0 <= k < |ls| :: ls[k].addr == addr
    ensures ChooseBranch(security) == AcmeBranch ==>
      forall k | 0 <= k < |ls| && ls[k].addr.ip == addr.ip && (ipv6.None? || addr.ip != V6(ipv6.value)) ::
        ls[k].guard == Acme(security.domain, ACME_CACHE)
    ensures ChooseBranch(security) == TlsBranch ==>
      forall k | 0 <= k < |ls| :: ls[k].guard == Rustls(CERT_PATH, KEY_PATH)
    ensures ChooseBranch(security) == TcpBranch ==>
      forall k | 0 <= k < |ls| :: ls[k].guard == Plain && ls[k].transport == Tcp
  {
    var second := if ipv6.Some? then SocketAddr(V6(ipv6.value), addr.port) else addr;
    match ChooseBranch(security)
    case AcmeBranch =>
      var acme := Acme(security.domain, ACME_CACHE);
      var ls := [Listener(Tcp, acme, addr), Listener(Quic, acme, addr)]
        + (if ipv6.Some? then [Listener(Tcp, Plain, second)] else []);
      assert ls[0].addr == addr && (ipv6.Some? ==> ls[2].addr == second);
      ls
    case TlsBranch =>
      var tls := Rustls(CERT_PATH, KEY_PATH);
      var ls := if ipv6.Some? then
          [Listener(Quic, tls, addr), Listener(Quic, tls, second), Listener(Tcp, tls, second), Listener(Tcp, tls, addr)]
        else
          [Listener(Quic, tls, addr), Listener(Tcp, tls, addr)];
      assert ls[|ls| - 1].addr == addr && ls[|ls| - 1].transport == Tcp && ls[1].addr == second;
      ls
    case TcpBranch =>
      var ls := if ipv6.Some? then [Listener(Tcp, Plain, addr), Listener(Tcp, Plain, second)]
        else [Listener(Tcp, Plain, addr)];
      assert ls[0].addr == addr && ls[|ls| - 1].addr == second;
      ls
  }

  /** What start-up binds, from the command line, the listen configuration and the address parsers. */
  function ServerListeners(args: Args, listen: Option<ListenConfig>, parsers: Parsers): (ls: seq<Listener>)
    ensures forall k | 0 <= k < |ls| :: ls[k].addr.port == BindPort(args, listen)
    ensures listen.None? ==> ls == [Listener(Tcp, Plain, SocketAddr(BindAddresses(args, listen, parsers).0, BindPort(args, listen)))]
  {
    var (ip, ipv6) := BindAddresses(args, listen, parsers);
    Listeners(SocketAddr(ip, BindPort(args, listen)), ipv6, ResolveSecurity(listen))
  }

  /**
    In the ACME branch the second, IPv6, listener is a plain TCP one: it
    gets neither the ACME certificate nor TLS.
   */
  lemma AcmeIpv6ListenerIsPlain(addr: SocketAddr, v6: Ipv6, security: Security)
    requires security.acme && addr.ip.V4?
    ensures var ls := Listeners(addr, Some(v6), security);
      forall k | 0 <= k < |ls| && ls[k].addr.ip == V6(v6) :: ls[k].guard == Plain && ls[k].transport == Tcp
  {
  }
}
