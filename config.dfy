/**
 * The configuration loader (rest/common/config/config.go): the records read
 * from microservice.yaml, the tenant default, the listen-address check and
 * rewrite, and the five package-level globals that LoadConfig publishes.
 */
module Config {
  import opened Types
  import opened GoLib

  /** A service identity: name, version and application id. */
  datatype ServiceConf = ServiceConf(name: string, version: string, appId: string)

  datatype InstanceConf = InstanceConf(hostname: string, protocol: string, listenAddress: string)

  datatype RegistryConf = RegistryConf(address: string)

  datatype TenantConf = TenantConf(domain: string)

  /** The whole file; a section missing from the YAML is None (a nil pointer). */
  datatype MicroService = MicroService(
    service: Option<ServiceConf>,
    instance: Option<InstanceConf>,
    registry: Option<RegistryConf>,
    provider: Option<ServiceConf>,
    tenant: Option<TenantConf>)

  datatype ConfigError =
    | LoadFailed(cause: string)        // the file could not be read or unmarshalled
    | ListenAddressEmpty               // "instance lister address is empty"
    | ListenAddressWrong(why: string)  // net.SplitHostPort refused the address
    | ListenPortWrong(port: string)    // the port is not an integer, or is <= 0

  const DefaultHost := "127.0.0.1"
  const DefaultDomain := "default"

  /** The port check: strconv.Atoi succeeds and yields a value above zero. */
  predicate PortAccepted(port: string) {
    var n := Atoi(port);
    n.Some? && n.value > 0
  }

  /** The listen-address check and rewrite done for an instance section. */
  function NormalizeListenAddress(addr: string): Result<string, ConfigError> {
    if addr == "" then Err(ListenAddressEmpty)
    else
      match SplitHostPort(addr)
      case Err(why) => Err(ListenAddressWrong(why))
      case Ok((host, port)) =>
        var host' := if host == "" then DefaultHost else host;
        if !PortAccepted(port) then Err(ListenPortWrong(port))
        else Ok(host' + ":" + port)
  }

  /** The tenant section after defaulting: present, with a non-empty domain. */
  function DefaultTenant(tenant: Option<TenantConf>): TenantConf {
    if tenant.None? || tenant.value.domain == "" then TenantConf(DefaultDomain)
    else tenant.value
  }

  /**
   * What LoadConfig makes of a parsed file: the tenant defaulted, and, when
   * an instance section is present, its hostname defaulted to the machine's
   * (`osHostname`, empty if os.Hostname failed) and its listen address
   * checked and rewritten.
   */
  function Normalized(file: Result<MicroService, string>, osHostname: string): Result<MicroService, ConfigError> {
    match file
    case Err(cause) => Err(LoadFailed(cause))
    case Ok(conf) =>
      var conf' := conf.(tenant := Some(DefaultTenant(conf.tenant)));
      match conf.instance
      case None => Ok(conf')
      case Some(ins) =>
        var hostname := if ins.hostname == "" then osHostname else ins.hostname;
        match NormalizeListenAddress(ins.listenAddress)
        case Err(e) => Err(e)
        case Ok(addr) => Ok(conf'.(instance := Some(ins.(hostname := hostname, listenAddress := addr))))
  }

  /** The package-level variables Service, Instance, Registry, Provider and Tenant. */
  class Globals {
    var service: Option<ServiceConf>
    var instance: Option<InstanceConf>
    var registry: Option<RegistryConf>
    var provider: Option<ServiceConf>
    var tenant: Option<TenantConf>

    constructor ()
      ensures service.None? && instance.None? && registry.None? && provider.None? && tenant.None?
    {
      service, instance, registry, provider, tenant := None, None, None, None, None;
    }

    /**
     * LoadConfig over the already-parsed file: every check runs on a local
     * copy, and the globals are assigned only after all of them passed.
     */
    method LoadConfig(file: Result<MicroService, string>, osHostname: string) returns (err: Option<ConfigError>)
      modifies this
      ensures Normalized(file, osHostname).Err? ==>
        err == Some(Normalized(file, osHostname).error) && unchanged(this)
      ensures Normalized(file, osHostname).Ok? ==>
        var conf := Normalized(file, osHostname).value;
        && err.None?
        && service == conf.service && instance == conf.instance && registry == conf.registry
        && provider == conf.provider && tenant == conf.tenant
    {
      if file.Err? {
        return Some(LoadFailed(file.error));
      }
      var conf := file.value;
      if conf.tenant.None? {
        conf := conf.(tenant := Some(TenantConf("")));
      }
      if conf.tenant.value.domain == "" {
        conf := conf.(tenant := Some(TenantConf(DefaultDomain)));
      }
      if conf.instance.Some? {
        var ins := conf.instance.value;
        if ins.hostname == "" {
          ins := ins.(hostname := osHostname);
        }
        if ins.listenAddress == "" {
          return Some(ListenAddressEmpty);
        }
        var split := SplitHostPort(ins.listenAddress);
        if split.Err? {
          return Some(ListenAddressWrong(split.error));
        }
        var (host, port) := split.value;
        if host == "" {
          host := DefaultHost;
        }
        var num := Atoi(port);
        if num.None? || num.value <= 0 {
          return Some(ListenPortWrong(port));
        }
        ins := ins.(listenAddress := host + ":" + port);
        conf := conf.(instance := Some(ins));
      }
      service := conf.service;
      instance := conf.instance;
      registry := conf.registry;
      provider := conf.provider;
      tenant := conf.tenant;
      return None;
    }
  }

  // ---------------------------------------------------------------------
  // Properties of the listen-address normalisation and of LoadConfig.

  /** An address is accepted exactly when it is non-empty, splits, and has a positive integer port. */
  lemma ListenAddressAccepted(addr: string)
    ensures NormalizeListenAddress(addr).Ok? <==>
      addr != "" && SplitHostPort(addr).Ok? && PortAccepted(SplitHostPort(addr).value.1)
    ensures addr == "" ==> NormalizeListenAddress(addr) == Err(ListenAddressEmpty)
    ensures addr != "" && SplitHostPort(addr).Ok? && !PortAccepted(SplitHostPort(addr).value.1) ==>
      NormalizeListenAddress(addr) == Err(ListenPortWrong(SplitHostPort(addr).value.1))
  {
  }

  /**
   * The stored address is the host (127.0.0.1 when empty) and the port text
   * exactly as written; when the host has no colon, splitting it again
   * gives that host and port.
   */
  lemma {:induction false} NormalizedAddressSplits(addr: string)
    requires NormalizeListenAddress(addr).Ok?
    ensures var (host, port) := SplitHostPort(addr).value;
      var host' := if host == "" then DefaultHost else host;
      && NormalizeListenAddress(addr).value == host' + ":" + port
      && (':' !in host ==> SplitHostPort(NormalizeListenAddress(addr).value) == Ok((host', port)))
  {
    var (host, port) := SplitHostPort(addr).value;
    if ':' !in host {
      SplitHostPortParts(addr);
      var host' := if host == "" then DefaultHost else host;
      SplitConcatenated(host', port);
    }
  }

  /** Normalising an already-normalised address changes nothing (for hosts without a colon). */
  lemma {:induction false} NormalizeIdempotent(addr: string)
    requires NormalizeListenAddress(addr).Ok?
    requires ':' !in SplitHostPort(addr).value.0
    ensures NormalizeListenAddress(NormalizeListenAddress(addr).value) == NormalizeListenAddress(addr)
  {
    NormalizedAddressSplits(addr);
  }

  /** strconv.Atoi("8080") is 8080. */
  lemma Atoi8080()
    ensures Atoi("8080") == Some(8080)
  {
    assert "8"[..0] == "";
    assert DecimalValue("8") == 8;
    assert "80"[..1] == "8";
    assert DecimalValue("80") == 80;
    assert "808"[..2] == "80";
    assert DecimalValue("808") == 808;
    assert "8080"[..3] == "808";
    assert DecimalValue("8080") == 8080;
  }

  /** An empty host becomes 127.0.0.1: ":8080" is stored as "127.0.0.1:8080". */
  lemma EmptyHostDefaults()
    ensures NormalizeListenAddress(":8080") == Ok("127.0.0.1:8080")
  {
    var a := ":8080";
    LastIndexAfter(a, 0, ':');
    assert a[..0] == "" && a[1..] == "8080";
    assert '[' !in a && ']' !in a;
    assert SplitHostPort(a) == Ok(("", "8080"));
    Atoi8080();
    assert DefaultHost + ":" + "8080" == "127.0.0.1:8080";
  }

  /** A port that is not a number is refused. */
  lemma NonNumericPortRejected()
    ensures NormalizeListenAddress("web:http") == Err(ListenPortWrong("http"))
  {
    var a := "web:http";
    LastIndexAfter(a, 3, ':');
    assert a[..3] == "web" && a[4..] == "http";
    assert '[' !in a && ']' !in a;
    assert SplitHostPort(a) == Ok(("web", "http"));
    assert !IsDigit("http"[0]);
  }

  /** A zero port is refused. */
  lemma ZeroPortRejected()
    ensures NormalizeListenAddress("web:0") == Err(ListenPortWrong("0"))
  {
    var a := "web:0";
    LastIndexAfter(a, 3, ':');
    assert a[..3] == "web" && a[4..] == "0";
    assert '[' !in a && ']' !in a;
    assert SplitHostPort(a) == Ok(("web", "0"));
    assert "0"[..0] == "";
    assert DecimalValue("0") == 0;
  }

  /** net.SplitHostPort("[::1]:8080") takes the host out of its brackets. */
  lemma SplitBracketedLoopback()
    ensures SplitHostPort("[::1]:8080") == Ok(("::1", "8080"))
  {
    var a := "[::1]:8080";
    assert a[6..] == "8080";
    LastIndexAfter(a, 5, ':');
    assert a[..4] == "[::1";
    FirstIndexBefore(a, 4, ']');
    assert a[1..] == "::1]:8080";
    assert a[5..] == ":8080";
    BracketedCase(a, 4);
    assert a[1..4] == "::1";
  }

  /**
   * The rewrite drops the brackets of an IPv6 host: "[::1]:8080" is stored
   * as "::1:8080".
   */
  lemma BracketedHostLosesBrackets()
    ensures NormalizeListenAddress("[::1]:8080") == Ok("::1:8080")
  {
    SplitBracketedLoopback();
    Atoi8080();
    NormalizedFromSplit("[::1]:8080", "::1", "8080");
    assert "::1" + ":" + "8080" == "::1:8080";
  }

  /** A split address with a non-empty host and an accepted port is stored as host ":" port. */
  lemma NormalizedFromSplit(addr: string, host: string, port: string)
    requires SplitHostPort(addr) == Ok((host, port)) && host != "" && PortAccepted(port)
    ensures NormalizeListenAddress(addr) == Ok(host + ":" + port)
  {
  }

  /** The stored "::1:8080" is refused by net.SplitHostPort, so the check itself would refuse it. */
  lemma RewrittenLoopbackRefused()
    ensures SplitHostPort("::1:8080") == Err(TooManyColons)
    ensures NormalizeListenAddress("::1:8080") == Err(ListenAddressWrong(TooManyColons))
  {
    var b := "::1:8080";
    assert b[4..] == "8080";
    LastIndexAfter(b, 3, ':');
    assert b[..3] == "::1";
    ColonInHostCase(b, 3);
  }

  /** The tenant domain is "default" when the section or its domain is missing, else kept. */
  lemma TenantDefaulted(file: Result<MicroService, string>, osHostname: string)
    requires Normalized(file, osHostname).Ok?
    ensures var t := Normalized(file, osHostname).value.tenant;
      && t.Some?
      && t.value.domain != ""
      && (file.value.tenant.None? || file.value.tenant.value.domain == "" ==> t.value.domain == DefaultDomain)
      && (file.value.tenant.Some? && file.value.tenant.value.domain != "" ==> t == file.value.tenant)
  {
  }

  /** Without an instance section no listen-address check runs: loading cannot fail. */
  lemma NoInstanceNoChecks(conf: MicroService, osHostname: string)
    requires conf.instance.None?
    ensures Normalized(Ok(conf), osHostname).Ok?
    ensures Normalized(Ok(conf), osHostname).value.instance.None?
  {
  }

  /**
   * With an instance section, loading succeeds exactly when its listen
   * address is accepted; then the service, registry and provider sections
   * and the protocol are the file's, and the tenant is defaulted.
   */
  lemma InstanceChecked(conf: MicroService, osHostname: string)
    requires conf.instance.Some?
    ensures Normalized(Ok(conf), osHostname).Ok? <==> NormalizeListenAddress(conf.instance.value.listenAddress).Ok?
    ensures Normalized(Ok(conf), osHostname).Err? ==>
      Normalized(Ok(conf), osHostname).error == NormalizeListenAddress(conf.instance.value.listenAddress).error
    ensures Normalized(Ok(conf), osHostname).Ok? ==>
      var c := Normalized(Ok(conf), osHostname).value;
      && c.service == conf.service && c.registry == conf.registry && c.provider == conf.provider
      && c.tenant == Some(DefaultTenant(conf.tenant))
      && c.instance.value.protocol == conf.instance.value.protocol
      && c.instance.value.listenAddress == NormalizeListenAddress(conf.instance.value.listenAddress).value
      && c.instance.value.hostname ==
           (if conf.instance.value.hostname == "" then osHostname else conf.instance.value.hostname)
  {
  }
}
