/** The parts of gRPC's client-side resolver package that the Kubernetes
    resolver builds and calls: addresses, the state handed to the client
    connection, and the connection itself as an append-only sink. */
module Grpc {

  /** What an address is used for; the Kubernetes resolver only produces
      `Backend` addresses. */
  datatype AddressType = Backend | GrpcLb

  /** One endpoint ("host:port") together with its type. */
  datatype Address = Address(addr: string, kind: AddressType)

  /** The resolver state pushed to the client connection: the ordered list
      of endpoints (the service config is never set by this resolver). */
  datatype State = State(addresses: seq<Address>)

  /** The endpoint strings a state carries, in order. */
  function AddrsOf(s: State): (addrs: seq<string>) {
    seq(|s.addresses|, i requires 0 <= i < |s.addresses| => s.addresses[i].addr)
  }

  /** The client connection the resolver reports to. Only `UpdateState` is
      used, and the model records each call in the ghost log `updates`. */
  class ClientConn {
    ghost var updates: seq<State>

    constructor ()
      ensures updates == []
    {
      updates := [];
    }

    method UpdateState(s: State)
      modifies this
      ensures updates == old(updates) + [s]
    {
      updates := updates + [s];
    }
  }
}
