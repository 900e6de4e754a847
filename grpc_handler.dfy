/** The server side of the gRPC transport (transport/grpc/handler.go): each incoming
    stream is wrapped in a socket and handed to the transport's accept function, and a
    panic in that function is contained at this boundary. */
module GrpcHandler {

  import opened Common

  /** How the accept function `fn` ended: it returned, having closed the socket or not,
      or it panicked with a value (given here by its `%v` rendering). */
  datatype FnOutcome = Returned(closedSocket: bool) | Panicked(value: string)

  const TransportId: string := "go.micro.transport"
  const RecoveredPrefix: string := "panic recovered: "

  /** The error `Stream` returns in place of a panic with value `v`. */
  function Recovered(v: string): Error
  {
    InternalServerError(TransportId, RecoveredPrefix + v)
  }

  /** The panic value an error of this transport reports, if it is a recovered panic. */
  function PanicValue(e: Error): Option<string>
  {
    if e.InternalServerError? && e.id == TransportId
       && |RecoveredPrefix| <= |e.detail| && e.detail[..|RecoveredPrefix|] == RecoveredPrefix
    then Some(e.detail[|RecoveredPrefix|..])
    else None
  }

  /** The recovered error carries the transport's id and the whole panic value: no two
      panic values give the same error. */
  lemma RecoveredKeepsValue(v: string)
    ensures Recovered(v).id == TransportId
    ensures PanicValue(Recovered(v)) == Some(v)
  {
    var d := RecoveredPrefix + v;
    assert d[..|RecoveredPrefix|] == RecoveredPrefix;
    assert d[|RecoveredPrefix|..] == v;
  }

  lemma RecoveredInjective(v: string, w: string)
    ensures Recovered(v) == Recovered(w) <==> v == w
  {
    RecoveredKeepsValue(v);
    RecoveredKeepsValue(w);
  }

  /** `grpcTransportSocket`: the addresses of the two ends, and whether it was closed. */
  class GrpcTransportSocket {
    const local: string
    var remote: string
    var closed: bool

    constructor (local: string)
      ensures this.local == local && remote == "" && !closed
    {
      this.local := local;
      remote := "";
      closed := false;
    }

    method Close()
      modifies this
      ensures closed && remote == old(remote)
    {
      closed := true;
    }
  }

  /** `microTransport`: the listen address and the accept function. The function belongs
      to the server, so it is given by what it does with a socket's two addresses: whether
      it closes the socket and whether it panics. */
  class MicroTransport {
    const addr: string
    const fn: (string, string) -> FnOutcome
    /** The sockets handed to `fn`, in order. */
    ghost var served: seq<GrpcTransportSocket>

    constructor (addr: string, fn: (string, string) -> FnOutcome)
      ensures this.addr == addr && this.fn == fn && served == []
    {
      this.addr := addr;
      this.fn := fn;
      served := [];
    }

    /** `Stream`: builds the socket for one gRPC stream, whose peer address is `peer` when
        the stream's context holds peer information, runs `fn` on it once, and turns a
        panic into a closed socket and an internal server error. */
    method Stream(peer: Option<string>) returns (err: Option<Error>, sock: GrpcTransportSocket)
      modifies this
      ensures fresh(sock)
      ensures sock.local == addr
      ensures sock.remote == if peer.Some? then peer.value else ""
      ensures served == old(served) + [sock]
      ensures match fn(sock.local, sock.remote)
              case Returned(closedByFn) => err == None && sock.closed == closedByFn
              case Panicked(v) => err == Some(Recovered(v)) && sock.closed
    {
      sock := new GrpcTransportSocket(addr);
      if peer.Some? {
        sock.remote := peer.value;
      }
      err := None;
      served := served + [sock];
      var outcome := fn(sock.local, sock.remote);
      if outcome.Returned? && outcome.closedSocket {
        sock.Close();
      } else if outcome.Panicked? {
        sock.Close();
        err := Some(Recovered(outcome.value));
      }
    }
  }
}
