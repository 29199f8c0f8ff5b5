/** Administrator node creation: build the node row from the request, insert
    it, then publish its limit snapshot and arrange its ports. */
module NodeService {
  import opened Common
  import opened Model
  import opened Repository
  import opened Cache
  import opened Effects

  const ErrOperationFailed: string := "操作失败"

  datatype CreateReq = CreateReq(
    name: string,
    remark: string,
    rules: seq<string>,
    tags: seq<string>,
    web: int,
    tunnel: int,
    forward: int,
    proxy: int,
    p2p: int,
    address: string,
    replaceAddress: string,
    protocol: string,
    httpPort: string,
    domain: string,
    denyDomainPrefix: string,
    urlTpl: string,
    forwardPorts: string,
    p2pDisableForward: int,
    indexValue: int,
    limitResetIndex: int,
    limitTotal: int,
    limitKind: int)

  /** The row the service inserts. `key` is the freshly generated UUID and `code`
      the identity the store gives the new row. */
  function BuildNode(req: CreateReq, key: string, code: string): GostNode {
    GostNode(
      code := code,
      key := key,
      name := req.name,
      remark := req.remark,
      web := req.web,
      tunnel := req.tunnel,
      forward := req.forward,
      proxy := req.proxy,
      p2p := req.p2p,
      domain := req.domain,
      denyDomainPrefix := req.denyDomainPrefix,
      address := req.address,
      replaceAddress := req.replaceAddress,
      urlTpl := req.urlTpl,
      protocol := req.protocol,
      httpPort := req.httpPort,
      forwardPorts := req.forwardPorts,
      p2pDisableForward := req.p2pDisableForward,
      rules := Join(req.rules, ","),
      tags := Join(req.tags, ","),
      indexValue := req.indexValue,
      limitResetIndex := req.limitResetIndex,
      limitTotal := req.limitTotal,
      limitKind := req.limitKind)
  }

  /** The limit snapshot published for a node. */
  function NodeInfoOf(n: GostNode): NodeInfo {
    NodeInfo(n.code, n.limitResetIndex, n.limitTotal, n.limitKind)
  }

  /** Feature flags, addresses, domain settings, ports and limits are taken
      from the request as they are. */
  lemma BuildNodeCopiesRequest(req: CreateReq, key: string, code: string)
    ensures var n := BuildNode(req, key, code);
            && n.code == code && n.key == key && n.name == req.name && n.remark == req.remark
            && n.web == req.web && n.tunnel == req.tunnel && n.forward == req.forward
            && n.proxy == req.proxy && n.p2p == req.p2p
            && n.address == req.address && n.replaceAddress == req.replaceAddress
            && n.protocol == req.protocol && n.httpPort == req.httpPort
            && n.domain == req.domain && n.denyDomainPrefix == req.denyDomainPrefix
            && n.urlTpl == req.urlTpl && n.forwardPorts == req.forwardPorts
            && n.p2pDisableForward == req.p2pDisableForward && n.indexValue == req.indexValue
            && n.limitResetIndex == req.limitResetIndex && n.limitTotal == req.limitTotal
            && n.limitKind == req.limitKind
  {
  }

  /** Empty rule and tag lists are stored as empty strings. */
  lemma EmptyListsStoreEmptyStrings(req: CreateReq, key: string, code: string)
    requires req.rules == [] && req.tags == []
    ensures BuildNode(req, key, code).rules == "" && BuildNode(req, key, code).tags == ""
  {
  }

  /** The stored comma-joined columns give the request's lists back when they
      are split at commas, provided the lists are non-empty and no element
      holds a comma. */
  lemma StoredListsSplitBack(req: CreateReq, key: string, code: string)
    requires |req.rules| >= 1 && forall i :: 0 <= i < |req.rules| ==> ',' !in req.rules[i]
    requires |req.tags| >= 1 && forall i :: 0 <= i < |req.tags| ==> ',' !in req.tags[i]
    ensures Split(BuildNode(req, key, code).rules, ',') == req.rules
    ensures Split(BuildNode(req, key, code).tags, ',') == req.tags
  {
    SplitJoin(req.rules, ',');
    SplitJoin(req.tags, ',');
  }

  /** The published snapshot carries the stored node's limits under its code. */
  lemma PublishedLimitsMatchStored(req: CreateReq, key: string, code: string)
    ensures var n := BuildNode(req, key, code);
            var info := NodeInfoOf(n);
            && info.code == code
            && info.limitResetIndex == n.limitResetIndex == req.limitResetIndex
            && info.limitTotal == n.limitTotal == req.limitTotal
            && info.limitKind == n.limitKind == req.limitKind
  {
  }

  /** The service. The insert is its only failure: then it answers "操作失败"
      and nothing else happens. Otherwise it refreshes the node's traffic
      limit, publishes the snapshot and arranges the node's ports, in that
      order. `fault` stands for a store error on the insert. */
  method Create(store: Store, cache: RuntimeCache, outbox: Outbox,
                req: CreateReq, key: string, code: string, fault: bool)
    returns (r: Outcome)
    modifies store, cache`nodeInfos, outbox
    ensures r == if code !in old(store.nodes) && !fault then Ok else Err(ErrOperationFailed)
    ensures r.Err? ==> && store.Snapshot() == old(store.Snapshot())
                       && cache.nodeInfos == old(cache.nodeInfos)
                       && outbox.calls == old(outbox.calls)
    ensures r.Ok? ==> && store.Snapshot() == old(store.Snapshot()).(nodes := old(store.nodes)[code := BuildNode(req, key, code)])
                      && cache.nodeInfos == old(cache.nodeInfos)[code := NodeInfoOf(BuildNode(req, key, code))]
                      && outbox.calls == old(outbox.calls) + [RefreshNodeObsLimit(code, req.limitResetIndex), ArrangeNodePorts(code)]
  {
    var node := BuildNode(req, key, code);
    var ok := store.CreateNode(node, fault);
    if !ok {
      return Err(ErrOperationFailed);
    }
    outbox.Send(RefreshNodeObsLimit(node.code, node.limitResetIndex));
    cache.SetNodeInfo(NodeInfo(node.code, node.limitResetIndex, node.limitTotal, node.limitKind));
    outbox.Send(ArrangeNodePorts(node.code));
    r := Ok;
  }
}
