/** Rows of the relational tables the control plane reads and writes, as the
    services use them. Decimal amounts are integers; timestamps are Unix seconds. */
module Model {

  /** How a plan is paid for. The repository's numeric constants for the two
      charged kinds are not part of this model, so every other value is `Other`. */
  datatype ChargingType = CycleDay | OnlyOnce | Other(tag: int)

  /** The kinds of tunnel a credential can belong to. */
  datatype TunnelType = HostTunnel | ForwardTunnel | PrivateTunnel | ProxyTunnel | P2PTunnel

  /** An account, stored under its code; `version` is the optimistic-concurrency counter. */
  datatype SystemUser = SystemUser(amount: int, version: int)

  /** A relay node as stored in the `GostNode` table. */
  datatype GostNode = GostNode(
    code: string,
    key: string,
    name: string,
    remark: string,
    web: int,
    tunnel: int,
    forward: int,
    proxy: int,
    p2p: int,
    domain: string,
    denyDomainPrefix: string,
    address: string,
    replaceAddress: string,
    urlTpl: string,
    protocol: string,
    httpPort: string,
    forwardPorts: string,
    p2pDisableForward: int,
    rules: string,
    tags: string,
    indexValue: int,
    limitResetIndex: int,
    limitTotal: int,
    limitKind: int)

  /** A plan offered on one node. */
  datatype NodeConfig = NodeConfig(
    code: string,
    nodeCode: string,
    chargingType: ChargingType,
    cycle: int,
    amount: int,
    limiter: int)

  /** A tenant's agent. */
  datatype GostClient = GostClient(code: string, userCode: string, name: string)

  /** A claimed domain prefix on a node. */
  datatype GostNodeDomain = GostNodeDomain(prefix: string, nodeCode: string)

  /** A domain-bound host tunnel, with the charging terms copied from its plan. */
  datatype GostClientHost = GostClientHost(
    code: string,
    name: string,
    targetIp: string,
    targetPort: string,
    targetHttps: int,
    domainPrefix: string,
    nodeCode: string,
    clientCode: string,
    userCode: string,
    chargingType: ChargingType,
    cycle: int,
    amount: int,
    limiter: int,
    expAt: int)

  /** A generated credential pair bound to one tunnel. */
  datatype GostAuth = GostAuth(tunnelType: TunnelType, tunnelCode: string, user: string, password: string)

  /** The key a credential row is identified by: tunnel type and tunnel code. */
  type AuthKey = (TunnelType, string)

  function AuthKeyOf(a: GostAuth): AuthKey {
    (a.tunnelType, a.tunnelCode)
  }

  /** The content of every table at one moment. Each map is keyed by the
      column the model takes as the table's unique key: the code for accounts,
      nodes, plans, clients and hosts, the prefix alone for domains, and
      (tunnel type, tunnel code) for credentials. The schema is not part of
      this model, so these keys are modelling choices. */
  datatype Tables = Tables(
    users: map<string, SystemUser>,
    nodes: map<string, GostNode>,
    configs: map<string, NodeConfig>,
    clients: map<string, GostClient>,
    domains: map<string, GostNodeDomain>,
    hosts: map<string, GostClientHost>,
    auths: map<AuthKey, GostAuth>)
}
