/** The rpc server's copy of the options builder (server/rpc/options.go). It starts from
    the same record, applies the options with the same loop and defaults the same
    fields from the server package's defaults, so it builds exactly what the server
    package's builder builds. */
module RpcOptions {

  import opened Common
  import ServerOptions

  /** `rpc.newOptions`: `err` is the panic of an option, which escapes in Go. */
  method NewOptions(opts: seq<ServerOptions.ServerOption>, d: ServerOptions.Defaults)
    returns (o: ServerOptions.Options, err: Option<Error>)
    ensures fresh(o)
    ensures match ServerOptions.Build(opts, d)
            case Ok(v) => err == None && o.Snapshot() == v
            case Err(e) => err == Some(e)
  {
    o := new ServerOptions.Options(d);
    for i := 0 to |opts|
      invariant ServerOptions.ApplyAll(ServerOptions.Initial(d), opts) == ServerOptions.ApplyAll(o.Snapshot(), opts[i..])
    {
      assert opts[i..][1..] == opts[i + 1..];
      err := o.Apply(opts[i]);
      if err.Some? {
        return;
      }
    }
    o.ApplyDefaults(d);
    err := None;
  }

  /** What the rpc builder leaves in the fields it defaults: never a nil broker,
      registry, transport or registration check, and never an empty address, name, id or
      version when the defaults are non-empty. */
  lemma DefaultsFilled(opts: seq<ServerOptions.ServerOption>, d: ServerOptions.Defaults)
    requires ServerOptions.Build(opts, d).Ok?
    requires d.address != "" && d.name != "" && d.id != "" && d.version != ""
    ensures var v := ServerOptions.Build(opts, d).value;
      && v.broker != Nil && v.registry != Nil && v.transport != Nil && v.registerCheck != Nil
      && v.address != "" && v.name != "" && v.id != "" && v.version != ""
  {
    ServerOptions.BuildComponents(opts, d, ServerOptions.BrokerF);
    ServerOptions.BuildComponents(opts, d, ServerOptions.RegistryF);
    ServerOptions.BuildComponents(opts, d, ServerOptions.TransportF);
    ServerOptions.BuildComponents(opts, d, ServerOptions.RegisterCheckF);
    ServerOptions.BuildStrings(opts, d, ServerOptions.AddressF);
    ServerOptions.BuildStrings(opts, d, ServerOptions.NameF);
    ServerOptions.BuildStrings(opts, d, ServerOptions.IdF);
    ServerOptions.BuildStrings(opts, d, ServerOptions.VersionF);
  }

  /** With no options the builder gives the defaults, empty maps and no wrappers. */
  lemma NoOptions(d: ServerOptions.Defaults)
    ensures ServerOptions.Build([], d).Ok?
    ensures var v := ServerOptions.Build([], d).value;
      && v.codecs == map[] && v.metadata == map[] && v.hdlrWrappers == [] && v.subWrappers == []
      && v.registerTTL == d.registerTTL && v.registerInterval == d.registerInterval
      && v.broker == Builtin && v.registry == Builtin && v.transport == Builtin && v.registerCheck == Builtin
      && v.address == d.address && v.name == d.name && v.id == d.id && v.version == d.version
  {
  }
}
