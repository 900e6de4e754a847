/** The Nacos configuration-centre adapter: the `NacosClient` wrapper around the SDK's
    config client (config/source/nacos/client.go) and the dynamic configuration that
    owns it (config/source/nacos/impl.go). Both files form one Go package and refer to
    each other (the configuration is the client's container), so they form one module.

    The SDK (`clients.CreateConfigClient`, `PublishConfig`, `SearchConfig`, `GetConfig`)
    is outside the model: each call is a function parameter that maps the request the
    adapter builds to the SDK's answer. Channels are booleans (`exitClosed`, `doneClosed`);
    the mutexes and `sync.Once` guarding them are left out.
 */
module Nacos {

  import opened Common
  import opened GoStrings

  const NacosClientName: string := "nacos config"
  /** Page size of the key search: one page of at most this many keys is read. */
  const MaxKeysNum: nat := 9999
  /** `config.DefaultGroup`. The config package is not part of this model; "micro" is the
      value the adapter's own documentation gives for the default group. */
  const DefaultGroup: string := "micro"

  /** The value of the run-time panic raised by closing a closed channel. */
  const CloseOfClosedChannel: Error := Panic("close of closed channel")

  // ---------------------------------------------------------------------------
  // URLs and the values read from them

  /** The URL parameters the adapter reads (their string spellings live in the
      framework's constant package). */
  datatype ParamKey =
    | ConfigNamespaceKey | RegistryTimeoutKey
    | NacosLogDirKey | NacosCacheDirKey | NacosEndpoint
    | NacosUsername | NacosPassword | NacosNamespaceId

  /** The parts of `common.URL` the adapter uses. */
  datatype Url = Url(location: string, primitiveUrl: string, params: map<ParamKey, string>)

  /** `url.GetParam(key, default)`: the parameter's value, or `default` when it is unset
      (a missing and an empty parameter read the same through `url.Values.Get`). */
  function GetParam(url: Url, key: ParamKey, default: string): (r: string)
    ensures key in url.params && url.params[key] != "" ==> r == url.params[key]
    ensures key !in url.params || url.params[key] == "" ==> r == default
  {
    if key in url.params && url.params[key] != "" then url.params[key] else default
  }

  /** The root path of a dynamic configuration: the configured namespace, or the default
      group, between "/" and "/config". */
  function RootPath(url: Url): (r: string)
    ensures |r| >= 8 && r[0] == '/' && r[|r| - 7..] == "/config"
    ensures r[1..|r| - 7] == GetParam(url, ConfigNamespaceKey, DefaultGroup)
  {
    "/" + GetParam(url, ConfigNamespaceKey, DefaultGroup) + "/config"
  }

  /** Distinct namespaces give distinct root paths. */
  lemma RootPathInjective(a: Url, b: Url)
    requires GetParam(a, ConfigNamespaceKey, DefaultGroup) != GetParam(b, ConfigNamespaceKey, DefaultGroup)
    ensures RootPath(a) != RootPath(b)
  {
  }

  /** Without a namespace parameter the root path is built from the default group. */
  lemma RootPathDefault(url: Url)
    requires ConfigNamespaceKey !in url.params
    ensures RootPath(url) == "/micro/config"
  {
  }

  // ---------------------------------------------------------------------------
  // Group names

  /** `resolvedGroup`: '/' is special to Nacos, so each '/' of a group name becomes '-';
      the empty group is returned as it is. */
  function ResolvedGroup(group: string): (r: string)
    ensures |r| == |group|
    ensures '/' !in r
    ensures forall i :: 0 <= i < |group| && group[i] != '/' ==> r[i] == group[i]
    ensures forall i :: 0 <= i < |group| && group[i] == '/' ==> r[i] == '-'
  {
    if |group| <= 0 then group else ReplaceAll(group, '/', '-')
  }

  lemma ResolvedGroupEmpty()
    ensures ResolvedGroup("") == ""
  {
  }

  /** Resolving a resolved group changes nothing. */
  lemma ResolvedGroupIdempotent(group: string)
    ensures ResolvedGroup(ResolvedGroup(group)) == ResolvedGroup(group)
  {
    var r := ResolvedGroup(group);
    var rr := ResolvedGroup(r);
    assert forall i :: 0 <= i < |r| ==> r[i] != '/';
    assert forall i :: 0 <= i < |rr| ==> rr[i] == r[i];
  }

  // ---------------------------------------------------------------------------
  // Durations and the SDK's timeout fields

  type Int64 = x: int | -0x8000_0000_0000_0000 <= x < 0x8000_0000_0000_0000

  const Millisecond: nat := 1_000_000

  /** `d / time.Millisecond` on Go's int64 durations: division truncated toward zero. */
  function MillisOf(d: Int64): (r: int)
    ensures 0 <= d ==> 0 <= r && r * Millisecond <= d < (r + 1) * Millisecond
    ensures d < 0 ==> r <= 0 && (r - 1) * Millisecond < d <= r * Millisecond
  {
    var n: int := d;
    if n >= 0 then n / Millisecond else -((-n) / Millisecond)
  }

  /** `int32(x)`: the two's-complement value of the low 32 bits of `x`. */
  function WrapInt32(x: int): (r: int)
    ensures -0x8000_0000 <= r < 0x8000_0000
    ensures (x - r) % 0x1_0000_0000 == 0
  {
    var m := x % 0x1_0000_0000;
    if m >= 0x8000_0000 then m - 0x1_0000_0000 else m
  }

  /** `uint64(x)` of an int32 value: sign extension to 64 bits, read as unsigned. */
  function Uint64OfInt32(x: int): (r: nat)
    requires -0x8000_0000 <= x < 0x8000_0000
    ensures r <= MaxUint64
    ensures (r - x) % 0x1_0000_0000_0000_0000 == 0
  {
    if x < 0 then x + 0x1_0000_0000_0000_0000 else x
  }

  /** `uint64(int32(timeout / time.Millisecond))`, the value of both `TimeoutMs` and
      `ListenInterval` handed to the SDK. */
  function TimeoutMs(timeout: Int64): (r: nat)
    ensures r < 0x8000_0000 || 0x1_0000_0000_0000_0000 - 0x8000_0000 <= r <= MaxUint64
  {
    Uint64OfInt32(WrapInt32(MillisOf(timeout)))
  }

  /** Below 2^31 milliseconds (about 24.8 days) the conversion is the plain millisecond count. */
  lemma TimeoutMsExact(timeout: Int64)
    requires 0 <= timeout < 0x8000_0000 * Millisecond
    ensures TimeoutMs(timeout) == timeout / Millisecond
  {
  }

  /** From 2^31 milliseconds on the int32 conversion wraps and the SDK receives a
      value close to 2^64. */
  lemma TimeoutMsWraps()
    ensures TimeoutMs(0x8000_0000 * Millisecond) == 0x1_0000_0000_0000_0000 - 0x8000_0000
  {
  }

  /** A negative duration of one millisecond becomes the largest uint64. */
  lemma TimeoutMsNegative()
    ensures TimeoutMs(-(Millisecond as int)) == MaxUint64
  {
  }

  // ---------------------------------------------------------------------------
  // Server addresses

  /** `nacosconst.ServerConfig`: one Nacos server. */
  datatype ServerConfig = ServerConfig(ipAddr: string, port: nat)

  /** `nacosconst.ClientConfig` as filled in by `initNacosConfigClient`. */
  datatype ClientConfig = ClientConfig(
    timeoutMs: nat, listenInterval: nat, notLoadCacheAtStart: bool,
    logDir: string, cacheDir: string, endpoint: string,
    username: string, password: string, namespaceId: string)

  /** The SDK's config client: its identity and the configuration it was created from. */
  datatype ConfigClient = ConfigClient(handle: nat, servers: seq<ServerConfig>, config: ClientConfig)

  /** `clients.CreateConfigClient`: the handle of a new SDK client, or the SDK's error. */
  type CreateClient = (seq<ServerConfig>, ClientConfig) -> Result<nat>

  /** Every address has a ':' (indexing segment 1 of an address without one panics). */
  predicate AllHavePort(addrs: seq<string>)
  {
    forall i :: 0 <= i < |addrs| ==> ':' in addrs[i]
  }

  lemma AllHavePortPrefix(addrs: seq<string>, k: nat)
    requires AllHavePort(addrs) && k <= |addrs|
    ensures AllHavePort(addrs[..k])
  {
    var pre := addrs[..k];
    forall j | 0 <= j < |pre| ensures ':' in pre[j] {
      assert pre[j] == addrs[j];
    }
  }

  /** One "host:port" address: the host is segment 0, the port segment 1 parsed as a
      decimal uint64; an unparsable port gives no server. */
  function ServerConfigOf(addr: string): Option<ServerConfig>
    requires ':' in addr
  {
    SplitHasSecond(addr, ':');
    var split := Split(addr, ':');
    match ParseUint10(split[1])
    case None => None
    case Some(port) => Some(ServerConfig(split[0], port))
  }

  function Entry(addr: string): seq<ServerConfig>
    requires ':' in addr
  {
    match ServerConfigOf(addr)
    case None => []
    case Some(c) => [c]
  }

  /** The server list built from an address list, in input order. */
  function ServerConfigs(addrs: seq<string>): seq<ServerConfig>
    requires AllHavePort(addrs)
    decreases |addrs|
  {
    if addrs == [] then []
    else ServerConfigs(addrs[..|addrs| - 1]) + Entry(addrs[|addrs| - 1])
  }

  /** The server list of a concatenation is the concatenation of the server lists:
      entries keep their relative order. */
  lemma {:induction false} ServerConfigsConcat(a: seq<string>, b: seq<string>)
    requires AllHavePort(a) && AllHavePort(b)
    ensures AllHavePort(a + b)
    ensures ServerConfigs(a + b) == ServerConfigs(a) + ServerConfigs(b)
    decreases |b|
  {
    assert AllHavePort(a + b) by {
      forall i | 0 <= i < |a + b| ensures ':' in (a + b)[i] {
        if i < |a| { assert (a + b)[i] == a[i]; } else { assert (a + b)[i] == b[i - |a|]; }
      }
    }
    if b == [] {
      assert a + b == a;
    } else {
      var b' := b[..|b| - 1];
      assert AllHavePort(b') by {
        forall i | 0 <= i < |b'| ensures ':' in b'[i] { assert b'[i] == b[i]; }
      }
      ServerConfigsConcat(a, b');
      assert (a + b)[..|a + b| - 1] == a + b';
      assert (a + b)[|a + b| - 1] == b[|b| - 1];
    }
  }

  /** A server is in the list exactly when some address yields it. */
  lemma {:induction false} ServerConfigsMembers(addrs: seq<string>, c: ServerConfig)
    requires AllHavePort(addrs)
    ensures c in ServerConfigs(addrs) <==> exists i :: 0 <= i < |addrs| && ServerConfigOf(addrs[i]) == Some(c)
    decreases |addrs|
  {
    if addrs != [] {
      var init := addrs[..|addrs| - 1];
      assert AllHavePort(init) by {
        forall i | 0 <= i < |init| ensures ':' in init[i] { assert init[i] == addrs[i]; }
      }
      ServerConfigsMembers(init, c);
      if exists i :: 0 <= i < |addrs| && ServerConfigOf(addrs[i]) == Some(c) {
        var i :| 0 <= i < |addrs| && ServerConfigOf(addrs[i]) == Some(c);
        if i < |init| { assert ServerConfigOf(init[i]) == Some(c); }
      }
      if exists i :: 0 <= i < |init| && ServerConfigOf(init[i]) == Some(c) {
        var i :| 0 <= i < |init| && ServerConfigOf(init[i]) == Some(c);
        assert ServerConfigOf(addrs[i]) == Some(c);
      }
    }
  }

  /** An address whose port does not parse is skipped and the others are untouched. */
  lemma BadPortSkipped(a: seq<string>, bad: string, b: seq<string>)
    requires AllHavePort(a) && AllHavePort(b) && ':' in bad
    requires ServerConfigOf(bad) == None
    ensures AllHavePort(a + [bad] + b) && AllHavePort(a + b)
    ensures ServerConfigs(a + [bad] + b) == ServerConfigs(a + b)
  {
    assert AllHavePort([bad]);
    assert ServerConfigs([bad]) == [] by {
      assert [bad][..0] == [];
      assert Entry(bad) == [];
    }
    ServerConfigsConcat(a, [bad]);
    assert ServerConfigs(a + [bad]) == ServerConfigs(a);
    ServerConfigsConcat(a + [bad], b);
    ServerConfigsConcat(a, b);
  }

  /** `ClientConfig` of `initNacosConfigClient`: both time fields carry the converted
      timeout, the cache is not loaded at start, the rest comes from URL parameters. */
  function ClientConfigOf(timeout: Int64, url: Url): (r: ClientConfig)
    ensures r.timeoutMs == r.listenInterval == TimeoutMs(timeout)
    ensures r.notLoadCacheAtStart
  {
    ClientConfig(
      TimeoutMs(timeout), TimeoutMs(timeout), true,
      GetParam(url, NacosLogDirKey, ""), GetParam(url, NacosCacheDirKey, ""),
      GetParam(url, NacosEndpoint, ""), GetParam(url, NacosUsername, ""),
      GetParam(url, NacosPassword, ""), GetParam(url, NacosNamespaceId, ""))
  }

  /** What `initNacosConfigClient` yields: the SDK client created from the parsed servers
      and the client configuration, or the SDK's error. */
  function InitResult(addrs: seq<string>, timeout: Int64, url: Url, create: CreateClient): Result<ConfigClient>
    requires AllHavePort(addrs)
  {
    var servers := ServerConfigs(addrs);
    var config := ClientConfigOf(timeout, url);
    match create(servers, config)
    case Ok(handle) => Ok(ConfigClient(handle, servers, config))
    case Err(e) => Err(e)
  }

  /** `initNacosConfigClient`: parses the addresses one by one, skipping those whose port
      does not parse, then asks the SDK for a client. */
  method InitNacosConfigClient(addrs: seq<string>, timeout: Int64, url: Url, create: CreateClient)
    returns (r: Result<ConfigClient>)
    requires AllHavePort(addrs)
    ensures r == InitResult(addrs, timeout, url, create)
    ensures r.Ok? ==> r.value.servers == ServerConfigs(addrs) && r.value.config == ClientConfigOf(timeout, url)
  {
    var svrConfList: seq<ServerConfig> := [];
    var i := 0;
    while i < |addrs|
      invariant 0 <= i <= |addrs|
      invariant AllHavePort(addrs[..i])
      invariant svrConfList == ServerConfigs(addrs[..i])
    {
      var split := Split(addrs[i], ':');
      SplitHasSecond(addrs[i], ':');
      assert addrs[..i + 1][..i] == addrs[..i];
      AllHavePortPrefix(addrs, i + 1);
      var port := ParseUint10(split[1]);
      if port.Some? {
        svrConfList := svrConfList + [ServerConfig(split[0], port.value)];
      }
      i := i + 1;
    }
    assert addrs[..|addrs|] == addrs;
    var config := ClientConfigOf(timeout, url);
    var created := create(svrConfList, config);
    match created
    case Ok(handle) => r := Ok(ConfigClient(handle, svrConfList, config));
    case Err(e) => r := Err(e);
  }

  // ---------------------------------------------------------------------------
  // NacosClient

  /** The wrapper around the SDK's config client. `exitClosed` stands for the closed
      `exit` channel, `closeCalls` counts the calls of `Close`. */
  class NacosClient {
    const name: string
    const nacosAddrs: seq<string>
    const timeout: Int64
    var client: Option<ConfigClient>
    var exitClosed: bool
    ghost var closeCalls: nat

    constructor (name: string, nacosAddrs: seq<string>, timeout: Int64)
      ensures this.name == name && this.nacosAddrs == nacosAddrs && this.timeout == timeout
      ensures client == None && !exitClosed && closeCalls == 0
    {
      this.name := name;
      this.nacosAddrs := nacosAddrs;
      this.timeout := timeout;
      client := None;
      exitClosed := false;
      closeCalls := 0;
    }

    method SetClient(c: Option<ConfigClient>)
      modifies this`client
      ensures client == c
    {
      client := c;
    }

    /** `stop`: the first call closes `exit` and reports false; later calls report true. */
    method Stop() returns (alreadyStopped: bool)
      modifies this`exitClosed
      ensures alreadyStopped == old(exitClosed)
      ensures exitClosed
    {
      if exitClosed {
        return true;
      }
      exitClosed := true;
      return false;
    }

    /** `NacosClientValid`: not stopped and holding an SDK client. */
    method NacosClientValid() returns (valid: bool)
      ensures valid <==> !exitClosed && client.Some?
    {
      if exitClosed {
        return false;
      }
      valid := true;
      if client.None? {
        valid := false;
      }
    }
  }

  /** `(*NacosClient).Close`: a no-op on a nil client; otherwise stops it and drops its
      SDK client, after which it is never valid again. */
  method Close(n: NacosClient?)
    modifies n
    ensures n != null ==> n.exitClosed && n.client == None && n.closeCalls == old(n.closeCalls) + 1
  {
    if n == null {
      return;
    }
    n.closeCalls := n.closeCalls + 1;
    var _ := n.Stop();
    n.SetClient(None);
  }

  function NewClientMessage(url: Url): string
  {
    "newNacosClient(address:" + url.location + ")"
  }

  /** `newNacosClient`: a fresh, running client; when the SDK client cannot be created
      the client is still returned, without an SDK client, together with the error. */
  method NewNacosClient(name: string, nacosAddrs: seq<string>, timeout: Int64, url: Url, create: CreateClient)
    returns (n: NacosClient, err: Option<Error>)
    requires AllHavePort(nacosAddrs)
    ensures fresh(n)
    ensures n.name == name && n.nacosAddrs == nacosAddrs && n.timeout == timeout
    ensures !n.exitClosed && n.closeCalls == 0
    ensures match InitResult(nacosAddrs, timeout, url, create)
            case Err(e) => err == Some(WithMessage(e, NewClientMessage(url))) && n.client == None
            case Ok(c) => err == None && n.client == Some(c)
  {
    n := new NacosClient(name, nacosAddrs, timeout);
    var configClient := InitNacosConfigClient(nacosAddrs, timeout, url, create);
    if configClient.Err? {
      return n, Some(WithMessage(configClient.error, NewClientMessage(url)));
    }
    n.SetClient(Some(configClient.value));
    return n, None;
  }

  /** The options of `ValidateNacosClient`. */
  datatype ClientOption = WithNacosName(name: string)

  /** The name left by applying the options in order: the last one wins. */
  function NacosNameOf(opts: seq<ClientOption>): string
    decreases |opts|
  {
    if opts == [] then "" else opts[|opts| - 1].name
  }

  // ---------------------------------------------------------------------------
  // The dynamic configuration

  /** A request to the SDK naming one configuration entry. */
  datatype ConfigParam = ConfigParam(dataId: string, group: string, content: string)

  /** The SDK's answer to `PublishConfig`. */
  datatype PublishReply = PublishReply(ok: bool, err: Option<Error>)

  /** The SDK's key search request. */
  datatype SearchParam = SearchParam(search: string, group: string, pageNo: nat, pageSize: nat)

  /** One item of a search result page. */
  datatype PageItem = PageItem(dataId: string, content: string)

  /** `config.Options` as far as the adapter reads it. */
  datatype ConfigOptions = ConfigOptions(group: string)

  /** The options left by applying `opts` in order to empty options. */
  function ConfigOptionsOf(opts: seq<ConfigOptions -> ConfigOptions>): ConfigOptions
    decreases |opts|
  {
    if opts == [] then ConfigOptions("") else opts[|opts| - 1](ConfigOptionsOf(opts[..|opts| - 1]))
  }

  /** `nacosDynamicConfiguration`. `doneClosed` stands for the closed `done` channel. */
  class DynamicConfiguration {
    const url: Url
    const rootPath: string
    var doneClosed: bool
    var client: NacosClient?

    /** The struct literal of `newNacosDynamicConfiguration`. */
    constructor (url: Url)
      ensures this.url == url && rootPath == RootPath(url)
      ensures !doneClosed && client == null
    {
      this.url := url;
      rootPath := RootPath(url);
      doneClosed := false;
      client := null;
    }

    method SetNacosClient(c: NacosClient?)
      modifies this`client
      ensures client == c
    {
      client := c;
    }

    /** `IsAvailable`: true until `done` is closed. */
    method IsAvailable() returns (available: bool)
      ensures available <==> !doneClosed
    {
      if doneClosed {
        return false;
      }
      return true;
    }

    /** `closeConfigs`: detaches the client and closes it once (a nil one is left alone). */
    method CloseConfigs()
      modifies this`client, client
      ensures client == null
      ensures old(client) != null ==>
        old(client).exitClosed && old(client).client == None && old(client).closeCalls == old(client.closeCalls) + 1
    {
      var c := client;
      client := null;
      Close(c);
    }

    /** `Destroy`: closes `done`, then the client. A second call panics on closing the
        already closed `done` and changes nothing. */
    method Destroy() returns (err: Option<Error>)
      modifies this, client
      ensures old(doneClosed) ==> err == Some(CloseOfClosedChannel) && unchanged(this) && (client != null ==> unchanged(client))
      ensures !old(doneClosed) ==> err == None && doneClosed && client == null
      ensures !old(doneClosed) && old(client) != null ==>
        old(client).exitClosed && old(client).client == None && old(client).closeCalls == old(client.closeCalls) + 1
    {
      if doneClosed {
        return Some(CloseOfClosedChannel);
      }
      doneClosed := true;
      CloseConfigs();
      err := None;
    }

    /** `PublishConfig`: publishes under the resolved group; succeeds only when the SDK
        reports no error and `ok`. The client must hold an SDK client (it is dereferenced). */
    method PublishConfig(key: string, group: string, value: string, publish: (ConfigClient, ConfigParam) -> PublishReply)
      returns (err: Option<Error>)
      requires client != null && client.client.Some?
      ensures var reply := publish(client.client.value, ConfigParam(key, ResolvedGroup(group), value));
        && (err.None? <==> reply.err.None? && reply.ok)
        && (reply.err.Some? ==> err == Some(WithStack(reply.err.value)))
        && (reply.err.None? && !reply.ok ==> err == Some(Message("publish config to Nocos failed")))
    {
      var g := ResolvedGroup(group);
      var reply := publish(client.client.value, ConfigParam(key, g, value));
      if reply.err.Some? {
        return Some(WithStack(reply.err.value));
      }
      if !reply.ok {
        return Some(Message("publish config to Nocos failed"));
      }
      return None;
    }

    /** `GetConfigKeysByGroup`: the set of data ids on the one page the SDK returns for the
        resolved group, duplicates collapsed; on a search error the empty set and the error. */
    method GetConfigKeysByGroup(group: string, search: (ConfigClient, SearchParam) -> Result<seq<PageItem>>)
      returns (keys: set<string>, err: Option<Error>)
      requires client != null && client.client.Some?
      ensures var reply := search(client.client.value, SearchParam("accurate", ResolvedGroup(group), 1, MaxKeysNum));
        && (reply.Err? ==> keys == {} && err == Some(WithMessage(reply.error, "can not find the client config")))
        && (reply.Ok? ==> err == None && forall k :: k in keys <==> exists i :: 0 <= i < |reply.value| && reply.value[i].dataId == k)
    {
      var g := ResolvedGroup(group);
      var page := search(client.client.value, SearchParam("accurate", g, 1, MaxKeysNum));
      keys := {};
      if page.Err? {
        return keys, Some(WithMessage(page.error, "can not find the client config"));
      }
      var items := page.value;
      var i := 0;
      while i < |items|
        invariant 0 <= i <= |items|
        invariant forall k :: k in keys <==> exists j :: 0 <= j < i && items[j].dataId == k
      {
        keys := keys + {items[i].dataId};
        i := i + 1;
      }
      return keys, None;
    }

    /** `GetRule`: applies the options in order, then reads the key under the resolved
        group of the resulting options. */
    method GetRule(key: string, opts: seq<ConfigOptions -> ConfigOptions>, get: (ConfigClient, ConfigParam) -> Result<string>)
      returns (content: string, err: Option<Error>)
      requires client != null && client.client.Some?
      ensures var reply := get(client.client.value, ConfigParam(key, ResolvedGroup(ConfigOptionsOf(opts).group), ""));
        && (reply.Err? ==> content == "" && err == Some(WithStack(reply.error)))
        && (reply.Ok? ==> content == reply.value && err == None)
    {
      var tmpOpts := ConfigOptions("");
      var i := 0;
      while i < |opts|
        invariant 0 <= i <= |opts|
        invariant tmpOpts == ConfigOptionsOf(opts[..i])
      {
        assert opts[..i + 1][..i] == opts[..i];
        tmpOpts := opts[i](tmpOpts);
        i := i + 1;
      }
      assert opts[..|opts|] == opts;
      var reply := get(client.client.value, ConfigParam(key, ResolvedGroup(tmpOpts.group), ""));
      if reply.Err? {
        return "", Some(WithStack(reply.error));
      }
      return reply.value, None;
    }

    /** `GetProperties`: the configuration stored under `key`, read as `GetRule` reads it. */
    method GetProperties(key: string, opts: seq<ConfigOptions -> ConfigOptions>, get: (ConfigClient, ConfigParam) -> Result<string>)
      returns (content: string, err: Option<Error>)
      requires client != null && client.client.Some?
      ensures var reply := get(client.client.value, ConfigParam(key, ResolvedGroup(ConfigOptionsOf(opts).group), ""));
        && (reply.Err? ==> content == "" && err == Some(WithStack(reply.error)))
        && (reply.Ok? ==> content == reply.value && err == None)
    {
      content, err := GetRule(key, opts, get);
    }

    /** `GetInternalProperty`: the same read, through `GetProperties`. */
    method GetInternalProperty(key: string, opts: seq<ConfigOptions -> ConfigOptions>, get: (ConfigClient, ConfigParam) -> Result<string>)
      returns (content: string, err: Option<Error>)
      requires client != null && client.client.Some?
      ensures var reply := get(client.client.value, ConfigParam(key, ResolvedGroup(ConfigOptionsOf(opts).group), ""));
        && (reply.Err? ==> content == "" && err == Some(WithStack(reply.error)))
        && (reply.Ok? ==> content == reply.value && err == None)
    {
      content, err := GetProperties(key, opts, get);
    }

    /** `RemoveConfig` is not implemented by the adapter: it always succeeds. */
    function RemoveConfig(key: string, group: string): (err: Option<Error>)
      ensures err == None
    {
      None
    }
  }

  /** `ValidateNacosClient`: makes sure the container holds a client with an SDK client,
      creating only what is missing. A nil container is an error; so is a timeout that
      does not parse (the parse of the URL's timeout parameter is given as `timeout`). */
  method ValidateNacosClient(container: DynamicConfiguration?, opts: seq<ClientOption>, timeout: Result<Int64>, create: CreateClient)
    returns (err: Option<Error>)
    requires container != null && timeout.Ok? && (container.client == null || container.client.client.None?) ==>
      AllHavePort(Split(container.url.location, ','))
    modifies container, if container != null then container.client else null
    ensures container == null ==> err == Some(Message("container can not be null"))
    ensures container != null && timeout.Err? ==>
      err == Some(WithMessage(timeout.error, NewClientMessage(container.url)))
      && container.client == old(container.client)
      && (container.client != null ==> unchanged(container.client))
    ensures container != null && timeout.Ok? && old(container.client) == null ==>
      var addrs := Split(container.url.location, ',');
      match InitResult(addrs, timeout.value, container.url, create)
      case Err(e) =>
        err == Some(WithMessage(WithMessage(e, NewClientMessage(container.url)), NewClientMessage(container.url)))
        && container.client == null
      case Ok(c) =>
        err == None && container.client != null && fresh(container.client)
        && container.client.client == Some(c) && !container.client.exitClosed
        && container.client.name == NacosNameOf(opts) && container.client.nacosAddrs == addrs
        && container.client.timeout == timeout.value
    ensures container != null && timeout.Ok? && old(container.client) != null && old(container.client.client).Some? ==>
      err == None && container.client == old(container.client) && unchanged(container.client)
    ensures container != null && timeout.Ok? && old(container.client) != null && old(container.client.client).None? ==>
      container.client == old(container.client)
      && container.client.exitClosed == old(container.client.exitClosed)
      && match InitResult(Split(container.url.location, ','), timeout.value, container.url, create)
         case Err(e) => err == Some(WithMessage(e, NewClientMessage(container.url))) && container.client.client == None
         case Ok(c) => err == None && container.client.client == Some(c)
    ensures err == None ==> container != null && container.client != null && container.client.client.Some?
    ensures container != null ==> container.doneClosed == old(container.doneClosed)
  {
    if container == null {
      return Some(Message("container can not be null"));
    }
    var nacosName := "";
    var i := 0;
    while i < |opts|
      invariant 0 <= i <= |opts|
      invariant nacosName == NacosNameOf(opts[..i])
    {
      nacosName := opts[i].name;
      i := i + 1;
    }
    assert opts[..|opts|] == opts;
    var url := container.url;
    if timeout.Err? {
      return Some(WithMessage(timeout.error, NewClientMessage(url)));
    }
    var nacosAddresses := Split(url.location, ',');
    if container.client == null {
      var newClient, e := NewNacosClient(nacosName, nacosAddresses, timeout.value, url, create);
      if e.Some? {
        return Some(WithMessage(e.value, NewClientMessage(url)));
      }
      container.SetNacosClient(newClient);
    }
    if container.client.client.None? {
      var configClient := InitNacosConfigClient(nacosAddresses, timeout.value, url, create);
      if configClient.Err? {
        return Some(WithMessage(configClient.error, NewClientMessage(url)));
      }
      container.client.SetClient(Some(configClient.value));
    }
    return WithMessageOf(None, "newNacosClient(address:" + url.primitiveUrl + ")");
  }

  /** `newNacosDynamicConfiguration`: a configuration whose client is ready, or nil and
      the error of `ValidateNacosClient`. The restart goroutine it starts is not modelled. */
  method NewDynamicConfiguration(url: Url, timeout: Result<Int64>, create: CreateClient)
    returns (c: DynamicConfiguration?, err: Option<Error>)
    requires timeout.Ok? ==> AllHavePort(Split(url.location, ','))
    ensures c == null <==> err.Some?
    ensures timeout.Err? ==> c == null && err == Some(WithMessage(timeout.error, NewClientMessage(url)))
    ensures timeout.Ok? ==>
      var addrs := Split(url.location, ',');
      match InitResult(addrs, timeout.value, url, create)
      case Err(e) => c == null && err == Some(WithMessage(WithMessage(e, NewClientMessage(url)), NewClientMessage(url)))
      case Ok(cc) =>
        && c != null && err == None && c.client != null && c.client.client == Some(cc)
        && c.client.nacosAddrs == addrs && c.client.timeout == timeout.value
    ensures c != null ==>
      fresh(c) && c.url == url && c.rootPath == RootPath(url) && !c.doneClosed
      && c.client != null && fresh(c.client) && c.client.client.Some? && !c.client.exitClosed
      && c.client.name == NacosClientName
  {
    var conf := new DynamicConfiguration(url);
    err := ValidateNacosClient(conf, [WithNacosName(NacosClientName)], timeout, create);
    if err.Some? {
      return null, err;
    }
    return conf, None;
  }
}
