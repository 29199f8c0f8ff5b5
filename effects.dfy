/** Calls into collaborators whose internals are not modelled: the node
    traffic-limit refresh, node port arrangement and the push of a host's
    configuration to its agent. Each call is recorded, in order, so that a
    service's contract can say which calls it made and in what order. */
module Effects {

  datatype Call =
    | RefreshNodeObsLimit(nodeCode: string, limitResetIndex: int)
    | ArrangeNodePorts(nodeCode: string)
    | ClientHostConfig(hostCode: string)

  class Outbox {
    var calls: seq<Call>

    constructor ()
      ensures calls == []
    {
      calls := [];
    }

    method Send(c: Call)
      modifies this
      ensures calls == old(calls) + [c]
    {
      calls := calls + [c];
    }
  }
}
