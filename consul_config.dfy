/**
 * The `consul_config` resource: the agent's option record with its declared
 * kinds and defaults, the allow-list filter that turns the record into the
 * agent's JSON configuration, the TLS switch, and the `create` and `delete`
 * actions as ordered lists of converger instructions.
 */
module ConsulConfig {

  import opened Wrappers
  import opened Json
  import opened FileSystem
  import ChefVault

  // ---------------------------------------------------------------------
  // The option record.

  /** The declared attributes, in declaration order. */
  datatype Opt =
    | Path | User | Group | BagName | BagItem
    | AclDatacenter | AclDefaultPolicy | AclDownPolicy | AclMasterToken | AclToken | AclTtl
    | Addresses | AdvertiseAddr | BindAddr | Bootstrap | BootstrapExpect | CaFile | CertFile
    | CheckUpdateInterval | ClientAddr | DataDir | Datacenter | DisableAnonymousSignature
    | DisableRemoteExec | DisableUpdateCheck | DnsConfig | Domain | EnableDebug | EnableSyslog
    | Encrypt | KeyFile | LeaveOnTerminate | LogLevel | NodeName | Ports | Protocol | Recurser
    | RetryInterval | Server | ServerName | SkipLeaveOnInterrupt | StartJoin | RejoinAfterLeave
    | StatsdAddr | StatsiteAddr | SyslogFacility | UiDir | VerifyIncoming | VerifyOutgoing
    | VerifyServerHostname | Watches

  /** The option's key in the rendered JSON (and its Ruby attribute name). */
  function Name(o: Opt): string
  {
    match o
    case Path => "path"
    case User => "user"
    case Group => "group"
    case BagName => "bag_name"
    case BagItem => "bag_item"
    case AclDatacenter => "acl_datacenter"
    case AclDefaultPolicy => "acl_default_policy"
    case AclDownPolicy => "acl_down_policy"
    case AclMasterToken => "acl_master_token"
    case AclToken => "acl_token"
    case AclTtl => "acl_ttl"
    case Addresses => "addresses"
    case AdvertiseAddr => "advertise_addr"
    case BindAddr => "bind_addr"
    case Bootstrap => "bootstrap"
    case BootstrapExpect => "bootstrap_expect"
    case CaFile => "ca_file"
    case CertFile => "cert_file"
    case CheckUpdateInterval => "check_update_interval"
    case ClientAddr => "client_addr"
    case DataDir => "data_dir"
    case Datacenter => "datacenter"
    case DisableAnonymousSignature => "disable_anonymous_signature"
    case DisableRemoteExec => "disable_remote_exec"
    case DisableUpdateCheck => "disable_update_check"
    case DnsConfig => "dns_config"
    case Domain => "domain"
    case EnableDebug => "enable_debug"
    case EnableSyslog => "enable_syslog"
    case Encrypt => "encrypt"
    case KeyFile => "key_file"
    case LeaveOnTerminate => "leave_on_terminate"
    case LogLevel => "log_level"
    case NodeName => "node_name"
    case Ports => "ports"
    case Protocol => "protocol"
    case Recurser => "recurser"
    case RetryInterval => "retry_interval"
    case Server => "server"
    case ServerName => "server_name"
    case SkipLeaveOnInterrupt => "skip_leave_on_interrupt"
    case StartJoin => "start_join"
    case RejoinAfterLeave => "rejoin_after_leave"
    case StatsdAddr => "statsd_addr"
    case StatsiteAddr => "statsite_addr"
    case SyslogFacility => "syslog_facility"
    case UiDir => "ui_dir"
    case VerifyIncoming => "verify_incoming"
    case VerifyOutgoing => "verify_outgoing"
    case VerifyServerHostname => "verify_server_hostname"
    case Watches => "watches"
  }

  const AllOptions: set<Opt> := {
    Path, User, Group, BagName, BagItem,
    AclDatacenter, AclDefaultPolicy, AclDownPolicy, AclMasterToken, AclToken, AclTtl,
    Addresses, AdvertiseAddr, BindAddr, Bootstrap, BootstrapExpect, CaFile, CertFile,
    CheckUpdateInterval, ClientAddr, DataDir, Datacenter, DisableAnonymousSignature,
    DisableRemoteExec, DisableUpdateCheck, DnsConfig, Domain, EnableDebug, EnableSyslog,
    Encrypt, KeyFile, LeaveOnTerminate, LogLevel, NodeName, Ports, Protocol, Recurser,
    RetryInterval, Server, ServerName, SkipLeaveOnInterrupt, StartJoin, RejoinAfterLeave,
    StatsdAddr, StatsiteAddr, SyslogFacility, UiDir, VerifyIncoming, VerifyOutgoing,
    VerifyServerHostname, Watches
  }

  const OptionCount := 51

  /** The option's position among the declarations. */
  function Index(o: Opt): (i: nat)
    ensures i < OptionCount
  {
    match o
    case Path => 0
    case User => 1
    case Group => 2
    case BagName => 3
    case BagItem => 4
    case AclDatacenter => 5
    case AclDefaultPolicy => 6
    case AclDownPolicy => 7
    case AclMasterToken => 8
    case AclToken => 9
    case AclTtl => 10
    case Addresses => 11
    case AdvertiseAddr => 12
    case BindAddr => 13
    case Bootstrap => 14
    case BootstrapExpect => 15
    case CaFile => 16
    case CertFile => 17
    case CheckUpdateInterval => 18
    case ClientAddr => 19
    case DataDir => 20
    case Datacenter => 21
    case DisableAnonymousSignature => 22
    case DisableRemoteExec => 23
    case DisableUpdateCheck => 24
    case DnsConfig => 25
    case Domain => 26
    case EnableDebug => 27
    case EnableSyslog => 28
    case Encrypt => 29
    case KeyFile => 30
    case LeaveOnTerminate => 31
    case LogLevel => 32
    case NodeName => 33
    case Ports => 34
    case Protocol => 35
    case Recurser => 36
    case RetryInterval => 37
    case Server => 38
    case ServerName => 39
    case SkipLeaveOnInterrupt => 40
    case StartJoin => 41
    case RejoinAfterLeave => 42
    case StatsdAddr => 43
    case StatsiteAddr => 44
    case SyslogFacility => 45
    case UiDir => 46
    case VerifyIncoming => 47
    case VerifyOutgoing => 48
    case VerifyServerHostname => 49
    case Watches => 50
  }

  /** The option declared at position `i`. */
  function OptAt(i: nat): Opt
    requires i < OptionCount
  {
    match i
    case 0 => Path
    case 1 => User
    case 2 => Group
    case 3 => BagName
    case 4 => BagItem
    case 5 => AclDatacenter
    case 6 => AclDefaultPolicy
    case 7 => AclDownPolicy
    case 8 => AclMasterToken
    case 9 => AclToken
    case 10 => AclTtl
    case 11 => Addresses
    case 12 => AdvertiseAddr
    case 13 => BindAddr
    case 14 => Bootstrap
    case 15 => BootstrapExpect
    case 16 => CaFile
    case 17 => CertFile
    case 18 => CheckUpdateInterval
    case 19 => ClientAddr
    case 20 => DataDir
    case 21 => Datacenter
    case 22 => DisableAnonymousSignature
    case 23 => DisableRemoteExec
    case 24 => DisableUpdateCheck
    case 25 => DnsConfig
    case 26 => Domain
    case 27 => EnableDebug
    case 28 => EnableSyslog
    case 29 => Encrypt
    case 30 => KeyFile
    case 31 => LeaveOnTerminate
    case 32 => LogLevel
    case 33 => NodeName
    case 34 => Ports
    case 35 => Protocol
    case 36 => Recurser
    case 37 => RetryInterval
    case 38 => Server
    case 39 => ServerName
    case 40 => SkipLeaveOnInterrupt
    case 41 => StartJoin
    case 42 => RejoinAfterLeave
    case 43 => StatsdAddr
    case 44 => StatsiteAddr
    case 45 => SyslogFacility
    case 46 => UiDir
    case 47 => VerifyIncoming
    case 48 => VerifyOutgoing
    case 49 => VerifyServerHostname
    case _ => Watches
  }

  lemma IndexOfOptAt(i: nat)
    requires i < OptionCount
    ensures Index(OptAt(i)) == i
  {
  }

  /** Positions and options correspond one to one. */
  lemma OptAtOfIndex(o: Opt)
    ensures OptAt(Index(o)) == o
  {
    OptAtOfEarlyIndex(o);
    OptAtOfLateIndex(o);
  }

  // The correspondence, proved for the two halves of the declaration separately.
  lemma OptAtOfEarlyIndex(o: Opt)
    ensures Index(o) < 26 ==> OptAt(Index(o)) == o
  {
    match o {
      case Path => case User => case Group => case BagName => case BagItem =>
      case AclDatacenter => case AclDefaultPolicy => case AclDownPolicy =>
      case AclMasterToken => case AclToken => case AclTtl => case Addresses =>
      case AdvertiseAddr => case BindAddr => case Bootstrap => case BootstrapExpect =>
      case CaFile => case CertFile => case CheckUpdateInterval => case ClientAddr =>
      case DataDir => case Datacenter => case DisableAnonymousSignature =>
      case DisableRemoteExec => case DisableUpdateCheck => case DnsConfig => case Domain =>
      case EnableDebug => case EnableSyslog => case Encrypt => case KeyFile =>
      case LeaveOnTerminate => case LogLevel => case NodeName => case Ports => case Protocol =>
      case Recurser => case RetryInterval => case Server => case ServerName =>
      case SkipLeaveOnInterrupt => case StartJoin => case RejoinAfterLeave => case StatsdAddr =>
      case StatsiteAddr => case SyslogFacility => case UiDir => case VerifyIncoming =>
      case VerifyOutgoing => case VerifyServerHostname => case Watches =>
    }
  }

  lemma OptAtOfLateIndex(o: Opt)
    ensures Index(o) >= 26 ==> OptAt(Index(o)) == o
  {
    match o {
      case Path => case User => case Group => case BagName => case BagItem =>
      case AclDatacenter => case AclDefaultPolicy => case AclDownPolicy =>
      case AclMasterToken => case AclToken => case AclTtl => case Addresses =>
      case AdvertiseAddr => case BindAddr => case Bootstrap => case BootstrapExpect =>
      case CaFile => case CertFile => case CheckUpdateInterval => case ClientAddr =>
      case DataDir => case Datacenter => case DisableAnonymousSignature =>
      case DisableRemoteExec => case DisableUpdateCheck => case DnsConfig => case Domain =>
      case EnableDebug => case EnableSyslog => case Encrypt => case KeyFile =>
      case LeaveOnTerminate => case LogLevel => case NodeName => case Ports => case Protocol =>
      case Recurser => case RetryInterval => case Server => case ServerName =>
      case SkipLeaveOnInterrupt => case StartJoin => case RejoinAfterLeave => case StatsdAddr =>
      case StatsiteAddr => case SyslogFacility => case UiDir => case VerifyIncoming =>
      case VerifyOutgoing => case VerifyServerHostname => case Watches =>
    }
  }

  /** How an attribute constrains the values it accepts. */
  datatype Kind =
    | StringKind                  // kind_of: String
    | IntegerKind                 // kind_of: Integer
    | HashKind                    // kind_of: [Hash, Mash]
    | ArrayKind                   // kind_of: Array
    | OneOf(choices: set<Value>)  // equal_to: [...]

  datatype Attribute = Attribute(kind: Kind, default: Option<Value>)

  predicate Accepts(k: Kind, v: Value)
  {
    match k
    case StringKind => v.Str?
    case IntegerKind => v.Int?
    case HashKind => v.Obj?
    case ArrayKind => v.List?
    case OneOf(choices) => v in choices
  }

  const Flag: Kind := OneOf({Bool(true), Bool(false)})
  const LogLevels: set<Value> := {Str("INFO"), Str("DEBUG"), Str("WARN")}
  const Off: Option<Value> := Some(Bool(false))

  /** Each attribute's kind and default, as declared. */
  function AttributeOf(o: Opt): Attribute
  {
    match o
    case Path => Attribute(StringKind, None)
    case User => Attribute(StringKind, Some(Str("consul")))
    case Group => Attribute(StringKind, Some(Str("consul")))
    case BagName => Attribute(StringKind, Some(Str("consul")))
    case BagItem => Attribute(StringKind, Some(Str("secrets")))
    case AclDatacenter => Attribute(StringKind, None)
    case AclDefaultPolicy => Attribute(StringKind, None)
    case AclDownPolicy => Attribute(StringKind, None)
    case AclMasterToken => Attribute(StringKind, None)
    case AclToken => Attribute(StringKind, None)
    case AclTtl => Attribute(StringKind, None)
    case Addresses => Attribute(HashKind, None)
    case AdvertiseAddr => Attribute(StringKind, None)
    case BindAddr => Attribute(StringKind, None)
    case Bootstrap => Attribute(Flag, Off)
    case BootstrapExpect => Attribute(IntegerKind, Some(Int(3)))
    case CaFile => Attribute(StringKind, None)
    case CertFile => Attribute(StringKind, None)
    case CheckUpdateInterval => Attribute(StringKind, None)
    case ClientAddr => Attribute(StringKind, None)
    case DataDir => Attribute(StringKind, None)
    case Datacenter => Attribute(StringKind, None)
    case DisableAnonymousSignature => Attribute(Flag, Off)
    case DisableRemoteExec => Attribute(Flag, Off)
    case DisableUpdateCheck => Attribute(Flag, Off)
    case DnsConfig => Attribute(HashKind, None)
    case Domain => Attribute(StringKind, None)
    case EnableDebug => Attribute(Flag, Off)
    case EnableSyslog => Attribute(Flag, Off)
    case Encrypt => Attribute(StringKind, None)
    case KeyFile => Attribute(StringKind, None)
    case LeaveOnTerminate => Attribute(Flag, Off)
    case LogLevel => Attribute(OneOf(LogLevels), Some(Str("INFO")))
    case NodeName => Attribute(StringKind, None)
    case Ports => Attribute(HashKind, None)
    case Protocol => Attribute(StringKind, None)
    case Recurser => Attribute(StringKind, None)
    case RetryInterval => Attribute(IntegerKind, None)
    case Server => Attribute(Flag, Some(Bool(true)))
    case ServerName => Attribute(StringKind, None)
    case SkipLeaveOnInterrupt => Attribute(Flag, Off)
    case StartJoin => Attribute(ArrayKind, None)
    case RejoinAfterLeave => Attribute(Flag, Off)
    case StatsdAddr => Attribute(StringKind, None)
    case StatsiteAddr => Attribute(StringKind, None)
    case SyslogFacility => Attribute(StringKind, None)
    case UiDir => Attribute(StringKind, None)
    case VerifyIncoming => Attribute(Flag, Off)
    case VerifyOutgoing => Attribute(Flag, Off)
    case VerifyServerHostname => Attribute(Flag, Off)
    case Watches => Attribute(HashKind, Some(Obj([])))
  }

  /** The record: the options that hold a value (set by the caller or defaulted). */
  type Config = map<Opt, Value>

  /** Every option holds a value of its declared kind. */
  predicate Valid(c: Config)
  {
    forall o :: o in c ==> Accepts(AttributeOf(o).kind, c[o])
  }

  /** Every declared default is a value its attribute accepts. */
  lemma DefaultAccepted(o: Opt)
    requires AttributeOf(o).default.Some?
    ensures Accepts(AttributeOf(o).kind, AttributeOf(o).default.value)
  {
    match o {
      case Path => case User => case Group => case BagName => case BagItem =>
      case AclDatacenter => case AclDefaultPolicy => case AclDownPolicy =>
      case AclMasterToken => case AclToken => case AclTtl => case Addresses =>
      case AdvertiseAddr => case BindAddr => case Bootstrap => case BootstrapExpect =>
      case CaFile => case CertFile => case CheckUpdateInterval => case ClientAddr =>
      case DataDir => case Datacenter => case DisableAnonymousSignature =>
      case DisableRemoteExec => case DisableUpdateCheck => case DnsConfig => case Domain =>
      case EnableDebug => case EnableSyslog => case Encrypt => case KeyFile =>
      case LeaveOnTerminate => case LogLevel => case NodeName => case Ports => case Protocol =>
      case Recurser => case RetryInterval => case Server => case ServerName =>
      case SkipLeaveOnInterrupt => case StartJoin => case RejoinAfterLeave => case StatsdAddr =>
      case StatsiteAddr => case SyslogFacility => case UiDir => case VerifyIncoming =>
      case VerifyOutgoing => case VerifyServerHostname => case Watches =>
    }
  }

  datatype BuildError = Invalid(options: set<Opt>)

  /** The given options whose value violates their attribute's kind. */
  function Rejected(given: Config): set<Opt>
  {
    set o | o in given && !Accepts(AttributeOf(o).kind, given[o])
  }

  /**
   * Declaring a `consul_config` resource named `name` with the options
   * `given`: each option is checked against its attribute, unset options take
   * their defaults, and `path` (the name attribute) defaults to the name.
   */
  function Build(name: string, given: Config): (r: Result<Config, BuildError>)
    ensures r.Err? <==> !Valid(given)
    ensures r.Err? ==> r.error.options != {}
    ensures r.Err? ==> forall o :: o in r.error.options <==> (o in given && !Accepts(AttributeOf(o).kind, given[o]))
    ensures r.Ok? ==> Valid(r.value) && Path in r.value
    ensures r.Ok? ==> forall o :: o in given ==> o in r.value && r.value[o] == given[o]
    ensures r.Ok? ==> forall o :: o !in given && AttributeOf(o).default.Some? ==>
      o in r.value && r.value[o] == AttributeOf(o).default.value
    ensures r.Ok? && Path !in given ==> r.value[Path] == Str(name)
    ensures r.Ok? ==> forall o :: o in r.value ==> o in given || AttributeOf(o).default.Some? || o == Path
  {
    var bad := Rejected(given);
    if bad != {} then
      var o :| o in bad;
      Err(Invalid(bad))
    else
      assert Valid(given) by {
        forall o | o in given ensures Accepts(AttributeOf(o).kind, given[o]) {
          assert o !in bad;
        }
      }
      var c := WithDefaults(name, given);
      WithDefaultsValid(name, given, c);
      Ok(c)
  }

  /** The given options over `path := name` over the declared defaults. */
  function WithDefaults(name: string, given: Config): (c: Config)
    ensures forall o :: o in given ==> o in c && c[o] == given[o]
    ensures forall o :: o !in given && AttributeOf(o).default.Some? ==>
      o in c && c[o] == AttributeOf(o).default.value
    ensures Path in c && (Path !in given ==> c[Path] == Str(name))
    ensures forall o :: o in c ==> o in given || AttributeOf(o).default.Some? || o == Path
  {
    assert AttributeOf(Path).default == None;
    map o: Opt | o in given || o == Path || AttributeOf(o).default.Some? ::
      if o in given then given[o]
      else if o == Path then Str(name)
      else AttributeOf(o).default.value
  }

  /** Filling in the defaults keeps a valid record valid. */
  lemma WithDefaultsValid(name: string, given: Config, c: Config)
    requires Valid(given) && c == WithDefaults(name, given)
    ensures Valid(c)
  {
    forall o | o in c ensures Accepts(AttributeOf(o).kind, c[o]) {
      if o in given {
      } else if o == Path {
        assert AttributeOf(Path).kind == StringKind;
      } else {
        DefaultAccepted(o);
      }
    }
  }

  /**
   * A resource declared with no options is valid; its path is its name, it
   * runs as `consul:consul`, reads the vault item `consul/secrets` and logs at
   * INFO.
   */
  lemma BuildDefaults(name: string, none: Config)
    requires none == map[]
    ensures Build(name, none).Ok?
    ensures var c := Build(name, none).value;
      Setting(c, Path) == name && Setting(c, User) == "consul" && Setting(c, Group) == "consul" &&
      Setting(c, BagName) == "consul" && Setting(c, BagItem) == "secrets" && Setting(c, LogLevel) == "INFO"
  {
    assert Valid(none);
    var c := WithDefaults(name, none);
    assert Build(name, none) == Ok(c);
    DefaultOwner(name, none, c);
    DefaultBag(name, none, c);
  }

  /** With no options, `bootstrap_expect` is 3, `server` is true and `watches` is empty. */
  lemma BuildDefaultValues(name: string, none: Config)
    requires none == map[]
    ensures Build(name, none).Ok?
    ensures var c := Build(name, none).value;
      BootstrapExpect in c && c[BootstrapExpect] == Int(3) && Server in c && c[Server] == Bool(true) &&
      Watches in c && c[Watches] == Obj([])
  {
    assert Valid(none);
    var c := WithDefaults(name, none);
    assert Build(name, none) == Ok(c);
    DefaultTyped(name, none, c);
  }

  /** With no options, TLS is off and no TLS path or datacenter is set. */
  lemma BuildDefaultsTlsOff(name: string, none: Config)
    requires none == map[]
    ensures Build(name, none).Ok?
    ensures var c := Build(name, none).value;
      !Tls(c) && CaFile !in c && CertFile !in c && KeyFile !in c && Datacenter !in c
  {
    assert Valid(none);
    var c := WithDefaults(name, none);
    assert Build(name, none) == Ok(c);
    DefaultVerifyOff(name, none, c);
    DefaultPathsUnset(name, none, c);
  }

  /** With no options given, an option other than `path` holds exactly its declared default. */
  lemma DefaultHeld(name: string, none: Config, c: Config, o: Opt)
    requires none == map[] && c == WithDefaults(name, none) && o != Path
    ensures o in c <==> AttributeOf(o).default.Some?
    ensures o in c ==> c[o] == AttributeOf(o).default.value
  {
  }

  // The record built from no options, a few attributes at a time.

  lemma DefaultOwner(name: string, none: Config, c: Config)
    requires none == map[] && c == WithDefaults(name, none)
    ensures Setting(c, Path) == name && Setting(c, User) == "consul" && Setting(c, Group) == "consul"
  {
    DefaultHeld(name, none, c, User);
    DefaultHeld(name, none, c, Group);
  }

  lemma DefaultBag(name: string, none: Config, c: Config)
    requires none == map[] && c == WithDefaults(name, none)
    ensures Setting(c, BagName) == "consul" && Setting(c, BagItem) == "secrets" && Setting(c, LogLevel) == "INFO"
  {
    DefaultHeld(name, none, c, BagName);
    DefaultHeld(name, none, c, BagItem);
    DefaultHeld(name, none, c, LogLevel);
  }

  lemma DefaultTyped(name: string, none: Config, c: Config)
    requires none == map[] && c == WithDefaults(name, none)
    ensures BootstrapExpect in c && c[BootstrapExpect] == Int(3) && Server in c && c[Server] == Bool(true) &&
      Watches in c && c[Watches] == Obj([])
  {
    DefaultHeld(name, none, c, BootstrapExpect);
    DefaultHeld(name, none, c, Server);
    DefaultHeld(name, none, c, Watches);
  }

  lemma DefaultVerifyOff(name: string, none: Config, c: Config)
    requires none == map[] && c == WithDefaults(name, none)
    ensures !Tls(c)
  {
    DefaultHeld(name, none, c, VerifyIncoming);
    DefaultHeld(name, none, c, VerifyOutgoing);
  }

  lemma DefaultPathsUnset(name: string, none: Config, c: Config)
    requires none == map[] && c == WithDefaults(name, none)
    ensures CaFile !in c && CertFile !in c && KeyFile !in c && Datacenter !in c
  {
    DefaultHeld(name, none, c, CaFile);
    DefaultHeld(name, none, c, CertFile);
    DefaultHeld(name, none, c, KeyFile);
    DefaultHeld(name, none, c, Datacenter);
  }

  /** `log_level` accepts exactly INFO, DEBUG and WARN. */
  lemma BuildLogLevel(name: string, v: Value)
    ensures Build(name, map[LogLevel := v]).Ok? <==>
      v == Str("INFO") || v == Str("DEBUG") || v == Str("WARN")
  {
    var g := map[LogLevel := v];
    if v == Str("INFO") || v == Str("DEBUG") || v == Str("WARN") {
      assert v in LogLevels;
      assert Valid(g);
    } else {
      assert v !in LogLevels;
      assert !Accepts(AttributeOf(LogLevel).kind, g[LogLevel]);
    }
  }

  /** An `equal_to: [true, false]` option accepts exactly the booleans. */
  lemma BuildFlag(name: string, o: Opt, v: Value)
    requires AttributeOf(o).kind == Flag
    ensures Build(name, map[o := v]).Ok? <==> v.Bool?
  {
    var g := map[o := v];
    if v.Bool? {
      assert v in {Bool(true), Bool(false)};
      assert Valid(g);
    } else {
      assert !Accepts(AttributeOf(o).kind, g[o]);
    }
  }

  /** The options declared `equal_to: [true, false]`. */
  lemma FlagOptions(o: Opt)
    ensures AttributeOf(o).kind == Flag <==>
      o in {Bootstrap, DisableAnonymousSignature, DisableRemoteExec, DisableUpdateCheck,
            EnableDebug, EnableSyslog, LeaveOnTerminate, Server, SkipLeaveOnInterrupt,
            RejoinAfterLeave, VerifyIncoming, VerifyOutgoing, VerifyServerHostname}
  {
  }

  // ---------------------------------------------------------------------
  // tls? and to_json.

  /** Ruby truthiness of an option: it holds a value other than `false`. */
  predicate Truthy(c: Config, o: Opt)
  {
    o in c && c[o] != Bool(false)
  }

  /** `tls?`: `verify_incoming || verify_outgoing`. */
  predicate Tls(c: Config)
  {
    Truthy(c, VerifyIncoming) || Truthy(c, VerifyOutgoing)
  }

  /** The keep-list: the options that are agent settings. */
  predicate InForKeeps(o: Opt)
  {
    match o
    case AclDatacenter | AclDefaultPolicy | AclDownPolicy | AclMasterToken | AclToken | AclTtl
      | Addresses | AdvertiseAddr | BindAddr | Bootstrap | BootstrapExpect | CheckUpdateInterval
      | ClientAddr | DataDir | Datacenter | DisableAnonymousSignature | DisableRemoteExec
      | DisableUpdateCheck | DnsConfig | Domain | EnableDebug | EnableSyslog | Encrypt
      | LeaveOnTerminate | LogLevel | NodeName | Ports | Protocol | Recurser | RetryInterval
      | Server | ServerName | SkipLeaveOnInterrupt | StartJoin | RejoinAfterLeave | StatsdAddr
      | StatsiteAddr | SyslogFacility | UiDir | VerifyIncoming | VerifyOutgoing
      | VerifyServerHostname | Watches => true
    case _ => false
  }

  /** The TLS file paths, kept only while TLS is on. */
  predicate IsTlsPath(o: Opt)
  {
    o == CaFile || o == CertFile || o == KeyFile
  }

  /** Options that steer the resource itself and are never agent settings. */
  predicate IsBookkeeping(o: Opt)
  {
    o == Path || o == User || o == Group || o == BagName || o == BagItem
  }

  /** The keep-list with the TLS paths concatenated when TLS is on. */
  predicate Kept(o: Opt, tls: bool)
  {
    InForKeeps(o) || (tls && IsTlsPath(o))
  }

  /** `to_json`, before serialisation: the record restricted to the keep-list. */
  function Render(c: Config): (r: Config)
    ensures forall o :: o in r ==> o in c && r[o] == c[o]
    ensures forall o :: o in r ==> InForKeeps(o) || (Tls(c) && IsTlsPath(o))
    ensures forall o :: o in c && InForKeeps(o) ==> o in r
    ensures Tls(c) ==> forall o :: o in c && IsTlsPath(o) ==> o in r
    ensures forall o :: IsBookkeeping(o) ==> o !in r
    ensures !Tls(c) ==> forall o :: IsTlsPath(o) ==> o !in r
  {
    var tls := Tls(c);
    map o | o in c && Kept(o, tls) :: c[o]
  }

  /**
   * The options `r` holds that are declared at position `i` or later, in
   * declaration order: the key order of the rendered object.
   */
  function KeyOrder(r: Config, i: nat): seq<Opt>
    decreases OptionCount - i
  {
    if i >= OptionCount then []
    else
      var rest := KeyOrder(r, i + 1);
      if OptAt(i) in r then [OptAt(i)] + rest else rest
  }

  /** `KeyOrder` lists exactly the options of `r` from position `i` on, each once, in declaration order. */
  lemma {:induction false} KeyOrderSound(r: Config, i: nat)
    ensures forall o :: o in KeyOrder(r, i) ==> o in r && i <= Index(o)
    ensures forall o :: o in r && i <= Index(o) ==> o in KeyOrder(r, i)
    ensures forall a, b :: 0 <= a < b < |KeyOrder(r, i)| ==> Index(KeyOrder(r, i)[a]) < Index(KeyOrder(r, i)[b])
    decreases OptionCount - i
  {
    if i < OptionCount {
      IndexOfOptAt(i);
      KeyOrderSound(r, i + 1);
      forall o | o in r && i <= Index(o) ensures o in KeyOrder(r, i) {
        if Index(o) == i {
          OptAtOfIndex(o);
        }
      }
    }
  }

  /** The fields of the rendered object for the keys `keys`: `to_hash` as an ordered list. */
  function Fields(r: Config, keys: seq<Opt>): seq<(string, Value)>
  {
    if keys == [] then []
    else if keys[0] in r then [(Name(keys[0]), r[keys[0]])] + Fields(r, keys[1..])
    else Fields(r, keys[1..])
  }

  /** The document `to_json` pretty-prints: the filtered record, keys in declaration order. */
  function ConfigDocument(c: Config): Value
  {
    var r := Render(c);
    Obj(Fields(r, KeyOrder(r, 0)))
  }

  /** When `r` holds every key, one field per key, named as the option and holding its value. */
  lemma {:induction false} FieldsOfKeys(r: Config, keys: seq<Opt>)
    requires forall o :: o in keys ==> o in r
    ensures |Fields(r, keys)| == |keys|
    ensures forall k :: 0 <= k < |keys| ==> Fields(r, keys)[k] == (Name(keys[k]), r[keys[k]])
  {
    if keys != [] {
      assert keys[0] in keys;
      assert forall o :: o in keys[1..] ==> o in keys;
      FieldsOfKeys(r, keys[1..]);
    }
  }

  /**
   * `to_json`'s object: one field per rendered option, in declaration order,
   * named as the attribute and holding the option's value.
   */
  lemma ConfigDocumentFields(c: Config)
    ensures var r, keys := Render(c), KeyOrder(Render(c), 0);
      ConfigDocument(c).Obj? && |ConfigDocument(c).fields| == |keys| &&
      (forall k :: 0 <= k < |keys| ==> keys[k] in r && ConfigDocument(c).fields[k] == (Name(keys[k]), r[keys[k]])) &&
      (forall o :: o in r <==> o in keys) &&
      (forall a, b :: 0 <= a < b < |keys| ==> Index(keys[a]) < Index(keys[b]))
  {
    KeyOrderSound(Render(c), 0);
    FieldsOfKeys(Render(c), KeyOrder(Render(c), 0));
  }

  /** Every declared attribute is a setting, a TLS path or bookkeeping, and only one of them. */
  lemma AttributesPartitioned(o: Opt)
    ensures o in AllOptions
    ensures InForKeeps(o) || IsTlsPath(o) || IsBookkeeping(o)
    ensures InForKeeps(o) ==> !IsTlsPath(o) && !IsBookkeeping(o)
    ensures IsTlsPath(o) ==> !IsBookkeeping(o)
  {
  }

  /** `tls?` looks at the two verify flags only, never at the TLS paths. */
  lemma TlsIgnoresPaths(c: Config, paths: Config)
    requires forall o :: o in paths ==> IsTlsPath(o)
    ensures Tls(c + paths) == Tls(c)
    ensures Tls(c - {CaFile, CertFile, KeyFile}) == Tls(c)
  {
  }

  /** For a valid record `tls?` is the disjunction of the two boolean flags. */
  lemma TlsOfValid(c: Config)
    requires Valid(c)
    ensures Tls(c) <==>
      (VerifyIncoming in c && c[VerifyIncoming] == Bool(true)) ||
      (VerifyOutgoing in c && c[VerifyOutgoing] == Bool(true))
  {
  }

  /** Filtering an already filtered record changes nothing. */
  lemma RenderIdempotent(c: Config)
    ensures Render(Render(c)) == Render(c)
  {
    assert InForKeeps(VerifyIncoming) && InForKeeps(VerifyOutgoing);
  }

  // ---------------------------------------------------------------------
  // The keep-list as line 88 writes it: `for_keeps << %i{ca_file cert_file key_file}`
  // appends the three-element array as ONE element, and `include?` compares
  // whole elements, so no option ever matches it.

  datatype KeepEntry = Symbol(opt: Opt) | Symbols(opts: seq<Opt>)

  function KeepListAsWritten(tls: bool): set<KeepEntry>
  {
    var base := set o | o in AllOptions && InForKeeps(o) :: Symbol(o);
    if tls then base + {Symbols([CaFile, CertFile, KeyFile])} else base
  }

  function RenderAsWritten(c: Config): Config
  {
    var keep := KeepListAsWritten(Tls(c));
    map o | o in c && Symbol(o) in keep :: c[o]
  }

  /** `include?` on the as-written list matches exactly the options of line 87. */
  lemma AsWrittenIncludes(tls: bool, o: Opt)
    ensures Symbol(o) in KeepListAsWritten(tls) <==> InForKeeps(o)
  {
    AttributesPartitioned(o);
  }

  /** As written, the filter is the intended one minus the TLS paths, whatever `tls?` says. */
  lemma AsWrittenDropsTlsPaths(c: Config)
    ensures forall o :: o in RenderAsWritten(c) <==> o in Render(c) && !IsTlsPath(o)
    ensures forall o :: o in RenderAsWritten(c) ==> RenderAsWritten(c)[o] == Render(c)[o]
  {
    var written, intended := RenderAsWritten(c), Render(c);
    forall o ensures o in written <==> o in intended && !IsTlsPath(o) {
      AsWrittenIncludes(Tls(c), o);
      AttributesPartitioned(o);
    }
  }

  /** An input that shows it: TLS on and `ca_file` set, yet `ca_file` is not rendered. */
  lemma AsWrittenOmitsCaFile()
    ensures var c := map[VerifyIncoming := Bool(true), CaFile := Str("/etc/consul/ca.pem")];
      CaFile in Render(c) && CaFile !in RenderAsWritten(c)
  {
    var c := map[VerifyIncoming := Bool(true), CaFile := Str("/etc/consul/ca.pem")];
    AsWrittenDropsTlsPaths(c);
  }

  /** Without TLS neither reading renders a TLS path. */
  lemma NoTlsNoPathsEitherReading(c: Config)
    requires !Tls(c)
    ensures forall o :: IsTlsPath(o) ==> o !in Render(c) && o !in RenderAsWritten(c)
  {
    AsWrittenDropsTlsPaths(c);
  }

  /** `to_json`'s object as line 88 is written: the as-written filter, keys in declaration order. */
  function ConfigDocumentAsWritten(c: Config): Value
  {
    var r := RenderAsWritten(c);
    Obj(Fields(r, KeyOrder(r, 0)))
  }

  /**
   * As written, `to_json`'s object has one field per option the as-written
   * filter keeps, and none of them is a TLS path.
   */
  lemma AsWrittenDocumentLacksTlsPaths(c: Config)
    ensures var keys := KeyOrder(RenderAsWritten(c), 0);
      var fields := ConfigDocumentAsWritten(c).fields;
      |fields| == |keys| &&
      forall k :: 0 <= k < |keys| ==> !IsTlsPath(keys[k]) && keys[k] in c && fields[k] == (Name(keys[k]), c[keys[k]])
  {
    var r := RenderAsWritten(c);
    RenderedFields(r);
    AsWrittenDropsTlsPaths(c);
  }

  /** The object of any filtered record: one field per key of `KeyOrder`, holding the record's value. */
  lemma RenderedFields(r: Config)
    ensures var keys := KeyOrder(r, 0);
      |Fields(r, keys)| == |keys| &&
      forall k :: 0 <= k < |keys| ==> keys[k] in r && Fields(r, keys)[k] == (Name(keys[k]), r[keys[k]])
  {
    KeyOrderSound(r, 0);
    FieldsOfKeys(r, KeyOrder(r, 0));
  }

  /** The intended object has a field for every TLS path that is set while `tls?` holds. */
  lemma DocumentHasTlsPaths(c: Config, o: Opt)
    requires Tls(c) && IsTlsPath(o) && o in c
    ensures (Name(o), c[o]) in ConfigDocument(c).fields
  {
    ConfigDocumentFields(c);
    var keys := KeyOrder(Render(c), 0);
    var k :| 0 <= k < |keys| && keys[k] == o;
    assert ConfigDocument(c).fields[k] == (Name(o), c[o]);
  }

  // ---------------------------------------------------------------------
  // The actions.

  const ConfigMode := "0640"
  const CertMode := "0644"
  const KeyMode := "0640"

  datatype ActionError =
    | MissingPath(option: Opt)                 // `File.dirname(nil)` or `file nil`
    | SecretNotFound(bag: string, item: string) // `chef_vault_item` found no item

  /** A string option's value; "" for an option a built record always holds as a string. */
  function Setting(c: Config, o: Opt): string
  {
    if o in c && c[o].Str? then c[o].s else ""
  }

  /** A string option that may be unset (Ruby `nil`). */
  function PathOf(c: Config, o: Opt): Option<string>
  {
    if o in c && c[o].Str? then Some(c[o].s) else None
  }

  function VaultKey(c: Config): ChefVault.Key
  {
    (Setting(c, BagName), Setting(c, BagItem))
  }

  /** `item[field]` as file content: `nil` when the item has no such field. */
  function SecretContent(item: ChefVault.Item, field: string): Option<Content>
  {
    if field in item then Some(Text(item[field])) else None
  }

  /** The two instructions every `create` ends with, `doc` being the file's document. */
  function MainFile(c: Config, doc: Value): seq<Instr>
  {
    var path := Setting(c, Path);
    [ EnsureDir(Dirname(path)),
      WriteFile(path, Some(Document(doc)), ConfigMode, Setting(c, User), Setting(c, Group), false) ]
  }

  /**
   * `action(:create)`: the instructions it hands to the converger, or the
   * error that aborts it.  Every error is raised while the instructions are
   * being collected, before any of them runs.
   */
  function CreatePlan(c: Config, store: ChefVault.Store): Result<seq<Instr>, ActionError>
  {
    CreateInstructions(c, ConfigDocument(c), store)
  }

  /**
   * The instructions of `create` for any document `doc` the configuration
   * file is to hold; `CreatePlan` gives it `to_json`.  What the action
   * promises holds whatever the document is, so it is stated here.
   */
  function CreateInstructions(c: Config, doc: Value, store: ChefVault.Store): Result<seq<Instr>, ActionError>
  {
    if !Tls(c) then Ok(MainFile(c, doc))
    else
      var ca, cert, key := PathOf(c, CaFile), PathOf(c, CertFile), PathOf(c, KeyFile);
      if ca.None? then Err(MissingPath(CaFile))
      else if VaultKey(c) !in store then Err(SecretNotFound(Setting(c, BagName), Setting(c, BagItem)))
      else if cert.None? then Err(MissingPath(CertFile))
      else if key.None? then Err(MissingPath(KeyFile))
      else
        Ok(SecretFiles(c, ca.value, cert.value, key.value, store[VaultKey(c)]) + MainFile(c, doc))
  }

  /** The six instructions that install the TLS files, each after its directory. */
  function SecretFiles(c: Config, ca: string, cert: string, key: string, item: ChefVault.Item): seq<Instr>
  {
    var user, group := Setting(c, User), Setting(c, Group);
    [ EnsureDir(Dirname(ca)),
      WriteFile(ca, SecretContent(item, "ca_certificate"), CertMode, user, group, false),
      EnsureDir(Dirname(cert)),
      WriteFile(cert, SecretContent(item, "certificate"), CertMode, user, group, false),
      EnsureDir(Dirname(key)),
      WriteFile(key, SecretContent(item, "private_key"), KeyMode, user, group, true) ]
  }

  /** `action(:delete)`: the certificate and key (TLS only), then the configuration file. */
  function DeletePlan(c: Config): Result<seq<Instr>, ActionError>
  {
    var path := Setting(c, Path);
    if !Tls(c) then Ok([Delete(path)])
    else
      var cert, key := PathOf(c, CertFile), PathOf(c, KeyFile);
      if cert.None? then Err(MissingPath(CertFile))
      else if key.None? then Err(MissingPath(KeyFile))
      else Ok([Delete(cert.value), Delete(key.value), Delete(path)])
  }

  // ---------------------------------------------------------------------
  // What the actions promise.

  /** `create` fails only with TLS on, and only for an unset TLS path or a missing vault item. */
  lemma CreateFailure(c: Config, doc: Value, store: ChefVault.Store)
    ensures CreateInstructions(c, doc, store).Err? <==>
      Tls(c) && (PathOf(c, CaFile).None? || VaultKey(c) !in store ||
                 PathOf(c, CertFile).None? || PathOf(c, KeyFile).None?)
    ensures CreateInstructions(c, doc, store) == Err(SecretNotFound(Setting(c, BagName), Setting(c, BagItem))) <==>
      Tls(c) && PathOf(c, CaFile).Some? && VaultKey(c) !in store
  {
  }

  /** Without TLS, `create` is the directory and the configuration file, and nothing else. */
  lemma CreateWithoutTls(c: Config, doc: Value, store: ChefVault.Store)
    requires !Tls(c)
    ensures CreateInstructions(c, doc, store) ==
      Ok([ EnsureDir(Dirname(Setting(c, Path))),
           WriteFile(Setting(c, Path), Some(Document(doc)), "0640",
                     Setting(c, User), Setting(c, Group), false) ])
  {
  }

  /**
   * With TLS, `create` writes the CA certificate, the certificate and the key,
   * each after its directory and with its own mode, before the configuration file.
   */
  lemma CreateWithTls(c: Config, doc: Value, store: ChefVault.Store)
    requires Tls(c) && CreateInstructions(c, doc, store).Ok?
    ensures var plan, user, group := CreateInstructions(c, doc, store).value, Setting(c, User), Setting(c, Group);
      var item := store[(Setting(c, BagName), Setting(c, BagItem))];
      var ca, cert, key := PathOf(c, CaFile).value, PathOf(c, CertFile).value, PathOf(c, KeyFile).value;
      |plan| == 8 &&
      plan[0] == EnsureDir(Dirname(ca)) &&
      plan[1] == WriteFile(ca, SecretContent(item, "ca_certificate"), "0644", user, group, false) &&
      plan[2] == EnsureDir(Dirname(cert)) &&
      plan[3] == WriteFile(cert, SecretContent(item, "certificate"), "0644", user, group, false) &&
      plan[4] == EnsureDir(Dirname(key)) &&
      plan[5] == WriteFile(key, SecretContent(item, "private_key"), "0640", user, group, true) &&
      plan[6..] == MainFile(c, doc)
  {
    var ca, cert, key := PathOf(c, CaFile).value, PathOf(c, CertFile).value, PathOf(c, KeyFile).value;
    var secrets := SecretFiles(c, ca, cert, key, store[VaultKey(c)]);
    assert CreateInstructions(c, doc, store).value == secrets + MainFile(c, doc);
    assert (secrets + MainFile(c, doc))[6..] == MainFile(c, doc);
  }

  /** Whatever TLS says, a successful `create` ends with the configuration file and deletes nothing. */
  lemma CreateEndsWithMainFile(c: Config, doc: Value, store: ChefVault.Store)
    requires CreateInstructions(c, doc, store).Ok?
    ensures var plan := CreateInstructions(c, doc, store).value;
      |plan| >= 2 && plan[|plan| - 2..] == MainFile(c, doc)
    ensures forall i :: i in CreateInstructions(c, doc, store).value ==> !i.Delete?
  {
    if Tls(c) {
      CreateWithTls(c, doc, store);
      var plan := CreateInstructions(c, doc, store).value;
      assert plan == plan[..6] + MainFile(c, doc);
    }
  }

  /** `create` consults the vault only for the item `(bag_name, bag_item)`. */
  lemma CreateReadsOneItem(c: Config, doc: Value, s1: ChefVault.Store, s2: ChefVault.Store)
    requires (VaultKey(c) in s1) == (VaultKey(c) in s2)
    requires VaultKey(c) in s1 ==> s1[VaultKey(c)] == s2[VaultKey(c)]
    ensures CreateInstructions(c, doc, s1) == CreateInstructions(c, doc, s2)
  {
  }

  /** After a successful `create` the configuration file holds `to_json`, mode 0640, owned by user and group. */
  lemma CreateWritesConfig(c: Config, doc: Value, store: ChefVault.Store, t: Tree)
    requires CreateInstructions(c, doc, store).Ok?
    ensures var after, path := Apply(t, CreateInstructions(c, doc, store).value), Setting(c, Path);
      Get(after, path) == Some(File(Document(doc), "0640", Setting(c, User), Setting(c, Group)))
  {
    var plan := CreateInstructions(c, doc, store).value;
    ApplyLastTouch(t, plan, |plan| - 1, Setting(c, Path));
  }

  /**
   * After a successful `create` with TLS on, each of the three secret files
   * that no later instruction names again (their paths, the directories after
   * them and the configuration file are distinct) holds its secret with its
   * mode and owners; a field the item lacks leaves the content as it was.
   */
  lemma CreateInstallsSecrets(c: Config, doc: Value, store: ChefVault.Store, t: Tree)
    requires Tls(c) && CreateInstructions(c, doc, store).Ok?
    requires var plan := CreateInstructions(c, doc, store).value;
      LastToName(plan, 1) && LastToName(plan, 3) && LastToName(plan, 5)
    ensures var after, user, group := Apply(t, CreateInstructions(c, doc, store).value), Setting(c, User), Setting(c, Group);
      var item := store[VaultKey(c)];
      HasFile(after, PathOf(c, CaFile).value, SecretContent(item, "ca_certificate"), "0644", user, group) &&
      HasFile(after, PathOf(c, CertFile).value, SecretContent(item, "certificate"), "0644", user, group) &&
      HasFile(after, PathOf(c, KeyFile).value, SecretContent(item, "private_key"), "0640", user, group)
  {
    var plan := CreateInstructions(c, doc, store).value;
    CreateWithTls(c, doc, store);
    WriteLands(t, plan, 1);
    WriteLands(t, plan, 3);
    WriteLands(t, plan, 5);
  }

  /** The paths `create` may touch. */
  function CreateTargets(c: Config): set<string>
  {
    var path := Setting(c, Path);
    var main := {Dirname(path), path};
    if !Tls(c) || PathOf(c, CaFile).None? || PathOf(c, CertFile).None? || PathOf(c, KeyFile).None? then main
    else
      var ca, cert, key := PathOf(c, CaFile).value, PathOf(c, CertFile).value, PathOf(c, KeyFile).value;
      main + {Dirname(ca), ca, Dirname(cert), cert, Dirname(key), key}
  }

  /** `create` leaves every other path as it was. */
  lemma CreateFrame(c: Config, doc: Value, store: ChefVault.Store, t: Tree, p: string)
    requires CreateInstructions(c, doc, store).Ok? && p !in CreateTargets(c)
    ensures Get(Apply(t, CreateInstructions(c, doc, store).value), p) == Get(t, p)
  {
    CreateTargetsCover(c, doc, store);
    ApplyFrame(t, CreateInstructions(c, doc, store).value, p);
  }

  /** Every instruction of a successful `create` is on one of `CreateTargets`. */
  lemma CreateTargetsCover(c: Config, doc: Value, store: ChefVault.Store)
    requires CreateInstructions(c, doc, store).Ok?
    ensures Targets(CreateInstructions(c, doc, store).value) <= CreateTargets(c)
  {
    var plan, main := CreateInstructions(c, doc, store).value, MainFile(c, doc);
    MainTargets(c, doc);
    if Tls(c) {
      var ca, cert, key := PathOf(c, CaFile).value, PathOf(c, CertFile).value, PathOf(c, KeyFile).value;
      var secrets := SecretFiles(c, ca, cert, key, store[VaultKey(c)]);
      assert plan == secrets + main;
      SecretTargets(c, ca, cert, key, store[VaultKey(c)]);
      TargetsConcat(secrets, main);
    }
  }

  /** The configuration file's instructions are on its directory and itself. */
  lemma MainTargets(c: Config, doc: Value)
    ensures Targets(MainFile(c, doc)) == {Dirname(Setting(c, Path)), Setting(c, Path)}
  {
    var main := MainFile(c, doc);
    TargetsOfPair(main);
  }

  /** The TLS instructions are on the three files and their directories. */
  lemma SecretTargets(c: Config, ca: string, cert: string, key: string, item: ChefVault.Item)
    ensures Targets(SecretFiles(c, ca, cert, key, item)) == {Dirname(ca), ca, Dirname(cert), cert, Dirname(key), key}
  {
    var s := SecretFiles(c, ca, cert, key, item);
    TargetsOfSix(s, Dirname(ca), ca, Dirname(cert), cert, Dirname(key), key);
  }

  /** Converging `create` again, after a complete or an interrupted run, changes nothing more. */
  lemma CreateIdempotent(c: Config, doc: Value, store: ChefVault.Store, t: Tree, k: nat)
    requires CreateInstructions(c, doc, store).Ok? && k <= |CreateInstructions(c, doc, store).value|
    ensures var plan := CreateInstructions(c, doc, store).value;
      Apply(Apply(t, plan), plan) == Apply(t, plan) &&
      Apply(Apply(t, plan[..k]), plan) == Apply(t, plan)
  {
    ApplyIdempotent(t, CreateInstructions(c, doc, store).value);
    ResumeAfterPartialRun(t, CreateInstructions(c, doc, store).value, k);
  }

  /** `delete` fails only with TLS on and the certificate or key path unset. */
  lemma DeleteFailure(c: Config)
    ensures DeletePlan(c).Err? <==> Tls(c) && (PathOf(c, CertFile).None? || PathOf(c, KeyFile).None?)
  {
  }

  /**
   * A successful `delete` removes the certificate and the key (TLS only) and
   * the configuration file, and leaves every other path, the CA certificate
   * and all directories included, as it was.
   */
  lemma DeleteRemoves(c: Config, t: Tree)
    requires DeletePlan(c).Ok?
    ensures var gone := if Tls(c) then {PathOf(c, CertFile).value, PathOf(c, KeyFile).value, Setting(c, Path)}
                        else {Setting(c, Path)};
      Apply(t, DeletePlan(c).value) == t - gone
  {
    var plan := DeletePlan(c).value;
    ApplyDeletions(t, plan);
    var gone := if Tls(c) then {PathOf(c, CertFile).value, PathOf(c, KeyFile).value, Setting(c, Path)}
                else {Setting(c, Path)};
    assert Targets(plan) == gone by {
      assert forall i :: i in plan ==> i.path in gone;
      assert forall x :: x in gone ==> exists i :: i in plan && i.path == x;
    }
  }

  /** `delete` keeps the CA certificate unless it shares a path with a file it removes. */
  lemma DeleteKeepsCaFile(c: Config, t: Tree)
    requires DeletePlan(c).Ok? && Tls(c) && PathOf(c, CaFile).Some?
    requires PathOf(c, CaFile).value !in {PathOf(c, CertFile).value, PathOf(c, KeyFile).value, Setting(c, Path)}
    ensures Get(Apply(t, DeletePlan(c).value), PathOf(c, CaFile).value) == Get(t, PathOf(c, CaFile).value)
  {
    DeleteRemoves(c, t);
  }

  // ---------------------------------------------------------------------
  // The actions, run against the vault and the node's disk.

  /**
   * The body of `action(:create)`: collects the instructions in the order the
   * action declares them, fetching the vault item where the action does.
   */
  method CollectCreate(c: Config, doc: Value, vault: ChefVault.Vault) returns (r: Result<seq<Instr>, ActionError>)
    modifies vault
    ensures r == CreateInstructions(c, doc, vault.items)
    ensures vault.fetches ==
      old(vault.fetches) + (if Tls(c) && PathOf(c, CaFile).Some? then [VaultKey(c)] else [])
  {
    var user, group := Setting(c, User), Setting(c, Group);
    var plan: seq<Instr> := [];
    if Tls(c) {
      var ca := PathOf(c, CaFile);
      if ca.None? {
        return Err(MissingPath(CaFile));
      }
      plan := plan + [EnsureDir(Dirname(ca.value))];
      var found := vault.Fetch(Setting(c, BagName), Setting(c, BagItem));
      if found.None? {
        return Err(SecretNotFound(Setting(c, BagName), Setting(c, BagItem)));
      }
      var item := found.value;
      plan := plan + [WriteFile(ca.value, SecretContent(item, "ca_certificate"), CertMode, user, group, false)];
      var cert := PathOf(c, CertFile);
      if cert.None? {
        return Err(MissingPath(CertFile));
      }
      plan := plan + [EnsureDir(Dirname(cert.value))];
      plan := plan + [WriteFile(cert.value, SecretContent(item, "certificate"), CertMode, user, group, false)];
      var key := PathOf(c, KeyFile);
      if key.None? {
        return Err(MissingPath(KeyFile));
      }
      plan := plan + [EnsureDir(Dirname(key.value))];
      plan := plan + [WriteFile(key.value, SecretContent(item, "private_key"), KeyMode, user, group, true)];
      assert plan == SecretFiles(c, ca.value, cert.value, key.value, vault.items[VaultKey(c)]);
    }
    var secrets := plan;
    var path := Setting(c, Path);
    plan := plan + [EnsureDir(Dirname(path))];
    plan := plan + [WriteFile(path, Some(Document(doc)), ConfigMode, user, group, false)];
    assert plan == secrets + MainFile(c, doc);
    assert !Tls(c) ==> secrets + MainFile(c, doc) == MainFile(c, doc);
    return Ok(plan);
  }

  /**
   * `action(:create)`: the instructions, with `to_json` as the configuration
   * file's document, handed to the converger only when every one was collected.
   */
  method CreateAction(c: Config, vault: ChefVault.Vault, disk: Disk) returns (r: Outcome<ActionError>)
    modifies vault, disk
    ensures r.Pass? <==> CreatePlan(c, vault.items).Ok?
    ensures r.Fail? ==> r.error == CreatePlan(c, vault.items).error && disk.files == old(disk.files)
    ensures r.Pass? ==> disk.files == Apply(old(disk.files), CreatePlan(c, vault.items).value)
    ensures vault.fetches ==
      old(vault.fetches) + (if Tls(c) && PathOf(c, CaFile).Some? then [VaultKey(c)] else [])
  {
    var plan := CollectCreate(c, ConfigDocument(c), vault);
    if plan.Err? {
      return Fail(plan.error);
    }
    disk.Converge(plan.value);
    r := Pass;
  }

  /** `action(:delete)`: the certificate and key files (TLS only), then the configuration file. */
  method DeleteAction(c: Config, disk: Disk) returns (r: Outcome<ActionError>)
    modifies disk
    ensures r.Pass? <==> DeletePlan(c).Ok?
    ensures r.Fail? ==> r.error == DeletePlan(c).error && disk.files == old(disk.files)
    ensures r.Pass? ==> disk.files == Apply(old(disk.files), DeletePlan(c).value)
  {
    var plan: seq<Instr> := [];
    if Tls(c) {
      var cert := PathOf(c, CertFile);
      if cert.None? {
        return Fail(MissingPath(CertFile));
      }
      plan := plan + [Delete(cert.value)];
      var key := PathOf(c, KeyFile);
      if key.None? {
        return Fail(MissingPath(KeyFile));
      }
      plan := plan + [Delete(key.value)];
    }
    plan := plan + [Delete(Setting(c, Path))];
    disk.Converge(plan);
    r := Pass;
  }
}
