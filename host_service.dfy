/** Tenant host-tunnel provisioning: cheap input checks, then one transaction
    that claims a domain prefix, charges the plan with a version-matched debit
    and inserts the host tunnel and its credentials, then publishes the
    credential lookup and the tunnel snapshot. Any error inside the
    transaction rolls every table back. */
module HostService {
  import opened Common
  import opened Model
  import opened Repository
  import opened Cache
  import opened Effects

  const ErrTargetIp: string := "内网IP格式错误"
  const ErrTargetPort: string := "内网端口格式错误"
  const ErrFeatureDisabled: string := "管理员未启用该功能"
  const ErrUser: string := "用户错误"
  const ErrNode: string := "节点错误"
  const ErrPrefixDenied: string := "该域名前缀被禁止使用"
  const ErrWebDisabled: string := "该节点未启用域名解析功能"
  const ErrPrefixUsed: string := "该域名前缀已被使用"
  const ErrConfig: string := "套餐错误"
  const ErrClient: string := "客户端错误"
  const ErrBalance: string := "积分不足"
  const ErrOperationFailed: string := "操作失败"

  const SecondsPerDay: int := 24 * 60 * 60

  datatype CreateReq = CreateReq(
    name: string,
    targetIp: string,
    targetPort: string,
    targetHttps: int,
    nodeCode: string,
    clientCode: string,
    configCode: string)

  /** Answers of collaborators that are not modelled: the address and port
      validators, the `FuncWeb` system setting, the node's prefix denylist
      check and the node rule verification (which may read the tables and
      fails with a message of its own). */
  datatype Env = Env(
    validateLocalIp: string -> bool,
    validatePort: string -> bool,
    funcWeb: string,
    checkDomainPrefix: (GostNode, string) -> bool,
    verifyAll: (Tables, string, GostNode) -> Option<string>)

  /** Values drawn at random or from the clock: the 8-letter domain prefix, the
      code the store gives the host row, the two 10-character credentials,
      and the current Unix time. */
  datatype Generated = Generated(prefix: string, hostCode: string, authUser: string, authPassword: string, now: int)

  /** Store errors, one per write of the transaction. */
  datatype Faults = Faults(domainInsert: bool, debit: bool, hostInsert: bool, authInsert: bool)

  const NoFaults: Faults := Faults(false, false, false, false)

  /** The two kinds of plan that debit the account. */
  predicate Charged(ct: ChargingType) {
    ct.CycleDay? || ct.OnlyOnce?
  }

  /** Expiry: a cyclic plan runs `cycle` days from now; any other ends now. */
  function ExpiresAt(cfg: NodeConfig, now: int): int {
    if cfg.chargingType.CycleDay? then now + cfg.cycle * SecondsPerDay else now
  }

  /** The plan must exist under the requested code and belong to the node. */
  predicate PlanOnNode(t: Tables, configCode: string, nodeCode: string) {
    configCode in t.configs && t.configs[configCode].nodeCode == nodeCode
  }

  /** The client must exist under the requested code and belong to the caller. */
  predicate ClientOwnedBy(t: Tables, clientCode: string, userCode: string) {
    clientCode in t.clients && t.clients[clientCode].userCode == userCode
  }

  /** The checks made before the transaction opens, in order. */
  function PreCheck(env: Env, req: CreateReq): Option<string> {
    if !env.validateLocalIp(req.targetIp) then Some(ErrTargetIp)
    else if !env.validatePort(req.targetPort) then Some(ErrTargetPort)
    else if env.funcWeb != "1" then Some(ErrFeatureDisabled)
    else None
  }

  /** The reads and checks inside the transaction up to the client lookup, in
      order; the domain row is inserted between the rule check and the plan
      lookup, so a taken prefix (or a store error there) fails at that point. */
  function ClaimCheck(t: Tables, env: Env, claims: string, req: CreateReq, g: Generated, faults: Faults): (e: Option<string>)
    ensures e.None? ==> claims in t.users && req.nodeCode in t.nodes && req.configCode in t.configs
  {
    if claims !in t.users then Some(ErrUser)
    else if req.nodeCode !in t.nodes then Some(ErrNode)
    else
      var node := t.nodes[req.nodeCode];
      if !env.checkDomainPrefix(node, g.prefix) then Some(ErrPrefixDenied)
      else if node.web != 1 then Some(ErrWebDisabled)
      else if env.verifyAll(t, claims, node).Some? then env.verifyAll(t, claims, node)
      else if g.prefix in t.domains || faults.domainInsert then Some(ErrPrefixUsed)
      else if !PlanOnNode(t, req.configCode, node.code) then Some(ErrConfig)
      else if !ClientOwnedBy(t, req.clientCode, claims) then Some(ErrClient)
      else None
  }

  /** The charging switch: a charged plan needs a balance of at least its price
      and a debit the store accepts; any other plan is not charged. */
  function ChargeCheck(user: SystemUser, cfg: NodeConfig, faults: Faults): Option<string> {
    if Charged(cfg.chargingType) && user.amount < cfg.amount then Some(ErrBalance)
    else if Charged(cfg.chargingType) && faults.debit then Some(ErrOperationFailed)
    else None
  }

  /** The host and credential inserts. */
  function InsertCheck(t: Tables, g: Generated, faults: Faults): Option<string> {
    if g.hostCode in t.hosts || faults.hostInsert then Some(ErrOperationFailed)
    else if (HostTunnel, g.hostCode) in t.auths || faults.authInsert then Some(ErrOperationFailed)
    else None
  }

  /** What the transaction answers on tables `t`: the first check or write that
      fails decides the error. */
  function TxVerdict(t: Tables, env: Env, claims: string, req: CreateReq, g: Generated, faults: Faults): Outcome {
    match ClaimCheck(t, env, claims, req, g, faults)
    case Some(e) => Err(e)
    case None =>
      match ChargeCheck(t.users[claims], t.configs[req.configCode], faults)
      case Some(e) => Err(e)
      case None =>
        match InsertCheck(t, g, faults)
        case Some(e) => Err(e)
        case None => Ok
  }

  /** What the whole service answers. */
  function Verdict(t: Tables, env: Env, claims: string, req: CreateReq, g: Generated, faults: Faults): Outcome {
    match PreCheck(env, req)
    case Some(e) => Err(e)
    case None => TxVerdict(t, env, claims, req, g, faults)
  }

  /** The host row: owners from the request and the caller, charging terms
      and limiter from the plan. */
  function NewHost(req: CreateReq, claims: string, g: Generated, cfg: NodeConfig): GostClientHost {
    GostClientHost(
      code := g.hostCode,
      name := req.name,
      targetIp := req.targetIp,
      targetPort := req.targetPort,
      targetHttps := req.targetHttps,
      domainPrefix := g.prefix,
      nodeCode := req.nodeCode,
      clientCode := req.clientCode,
      userCode := claims,
      chargingType := cfg.chargingType,
      cycle := cfg.cycle,
      amount := cfg.amount,
      limiter := cfg.limiter,
      expAt := ExpiresAt(cfg, g.now))
  }

  /** The credential row bound to the host tunnel. */
  function NewAuth(g: Generated): GostAuth {
    GostAuth(HostTunnel, g.hostCode, g.authUser, g.authPassword)
  }

  /** The tunnel snapshot published for a host. */
  function TunnelOf(h: GostClientHost): TunnelInfo {
    TunnelInfo(h.code, HostTunnel, h.clientCode, h.userCode, h.nodeCode, h.chargingType, h.expAt, h.limiter)
  }

  /** The accounts after the charging switch: a charged plan debits its price
      with the version read at the start of the transaction. */
  function Charge(users: map<string, SystemUser>, claims: string, cfg: NodeConfig): map<string, SystemUser>
    requires claims in users
  {
    var user := users[claims];
    if Charged(cfg.chargingType)
    then VersionedUpdate(users, claims, user.version, user.amount - cfg.amount, user.version + 1)
    else users
  }

  /** The tables a successful transaction commits. */
  function Committed(t: Tables, claims: string, req: CreateReq, g: Generated): Tables
    requires claims in t.users && req.nodeCode in t.nodes && req.configCode in t.configs
  {
    var user := t.users[claims];
    var node := t.nodes[req.nodeCode];
    var cfg := t.configs[req.configCode];
    t.(users := Charge(t.users, claims, cfg),
       domains := t.domains[g.prefix := GostNodeDomain(g.prefix, node.code)],
       hosts := t.hosts[g.hostCode := NewHost(req, claims, g, cfg)],
       auths := t.auths[(HostTunnel, g.hostCode) := NewAuth(g)])
  }

  // ------------------------------------------------------------------
  // What the verdict and the committed tables promise
  // ------------------------------------------------------------------

  /** An invalid address, an invalid port or the disabled feature is reported
      before anything in the store is read, in that order. */
  lemma PreChecksComeFirst(t: Tables, env: Env, claims: string, req: CreateReq, g: Generated, faults: Faults)
    ensures !env.validateLocalIp(req.targetIp) ==> Verdict(t, env, claims, req, g, faults) == Err(ErrTargetIp)
    ensures env.validateLocalIp(req.targetIp) && !env.validatePort(req.targetPort)
            ==> Verdict(t, env, claims, req, g, faults) == Err(ErrTargetPort)
    ensures env.validateLocalIp(req.targetIp) && env.validatePort(req.targetPort) && env.funcWeb != "1"
            ==> Verdict(t, env, claims, req, g, faults) == Err(ErrFeatureDisabled)
  {
  }

  /** Inside the transaction the account is checked before the node, the node
      before the prefix denylist, the denylist before the node's web flag, the
      flag before the node rules, the rules before the prefix claim, the claim
      before the plan lookup and the plan before the client lookup: the first
      failure decides the error. */
  lemma TransactionCheckOrder(t: Tables, env: Env, claims: string, req: CreateReq, g: Generated, faults: Faults)
    requires PreCheck(env, req).None?
    ensures claims !in t.users ==> Verdict(t, env, claims, req, g, faults) == Err(ErrUser)
    ensures claims in t.users && req.nodeCode !in t.nodes ==> Verdict(t, env, claims, req, g, faults) == Err(ErrNode)
    ensures claims in t.users && req.nodeCode in t.nodes ==>
              var node := t.nodes[req.nodeCode];
              && (!env.checkDomainPrefix(node, g.prefix) ==> Verdict(t, env, claims, req, g, faults) == Err(ErrPrefixDenied))
              && (env.checkDomainPrefix(node, g.prefix) && node.web != 1
                  ==> Verdict(t, env, claims, req, g, faults) == Err(ErrWebDisabled))
              && (env.checkDomainPrefix(node, g.prefix) && node.web == 1 && env.verifyAll(t, claims, node).Some?
                  ==> Verdict(t, env, claims, req, g, faults) == Err(env.verifyAll(t, claims, node).value))
    ensures RulesPass(t, env, claims, req, g) && (g.prefix in t.domains || faults.domainInsert)
            ==> Verdict(t, env, claims, req, g, faults) == Err(ErrPrefixUsed)
    ensures RulesPass(t, env, claims, req, g) && g.prefix !in t.domains && !faults.domainInsert
            && !PlanOnNode(t, req.configCode, t.nodes[req.nodeCode].code)
            ==> Verdict(t, env, claims, req, g, faults) == Err(ErrConfig)
    ensures RulesPass(t, env, claims, req, g) && g.prefix !in t.domains && !faults.domainInsert
            && PlanOnNode(t, req.configCode, t.nodes[req.nodeCode].code) && !ClientOwnedBy(t, req.clientCode, claims)
            ==> Verdict(t, env, claims, req, g, faults) == Err(ErrClient)
  {
  }

  /** The account and node exist and the denylist, web-flag and rule checks
      pass: what the transaction has established before it claims the prefix. */
  predicate RulesPass(t: Tables, env: Env, claims: string, req: CreateReq, g: Generated) {
    && claims in t.users && req.nodeCode in t.nodes
    && env.checkDomainPrefix(t.nodes[req.nodeCode], g.prefix)
    && t.nodes[req.nodeCode].web == 1
    && env.verifyAll(t, claims, t.nodes[req.nodeCode]).None?
  }

  /** Every condition the provisioning needs, as one conjunction, without the
      order in which the service tests them. */
  predicate Admissible(t: Tables, env: Env, claims: string, req: CreateReq, g: Generated) {
    && env.validateLocalIp(req.targetIp) && env.validatePort(req.targetPort) && env.funcWeb == "1"
    && claims in t.users && req.nodeCode in t.nodes
    && env.checkDomainPrefix(t.nodes[req.nodeCode], g.prefix)
    && t.nodes[req.nodeCode].web == 1
    && env.verifyAll(t, claims, t.nodes[req.nodeCode]).None?
    && g.prefix !in t.domains
    && PlanOnNode(t, req.configCode, t.nodes[req.nodeCode].code)
    && ClientOwnedBy(t, req.clientCode, claims)
    && (Charged(t.configs[req.configCode].chargingType) ==> t.users[claims].amount >= t.configs[req.configCode].amount)
    && g.hostCode !in t.hosts
    && (HostTunnel, g.hostCode) !in t.auths
  }

  /** The store accepts every write the request issues. */
  predicate StoreAccepts(t: Tables, req: CreateReq, faults: Faults) {
    && !faults.domainInsert && !faults.hostInsert && !faults.authInsert
    && (req.configCode in t.configs && Charged(t.configs[req.configCode].chargingType) ==> !faults.debit)
  }

  /** Provisioning succeeds exactly when every condition holds and the store
      accepts every write. */
  lemma SucceedsIffAdmissible(t: Tables, env: Env, claims: string, req: CreateReq, g: Generated, faults: Faults)
    ensures Verdict(t, env, claims, req, g, faults) == Ok <==> Admissible(t, env, claims, req, g) && StoreAccepts(t, req, faults)
  {
  }

  /** A charged plan whose price exceeds the balance is refused with "积分不足"
      once the lookups have passed, whatever the store would do next. */
  lemma InsufficientBalanceRejected(t: Tables, env: Env, claims: string, req: CreateReq, g: Generated, faults: Faults)
    requires PreCheck(env, req).None? && ClaimCheck(t, env, claims, req, g, faults).None?
    requires Charged(t.configs[req.configCode].chargingType)
    requires t.users[claims].amount < t.configs[req.configCode].amount
    ensures Verdict(t, env, claims, req, g, faults) == Err(ErrBalance)
  {
  }

  /** A balance equal to the price is enough, and it is spent to zero. */
  lemma ExactBalanceSuffices(t: Tables, env: Env, claims: string, req: CreateReq, g: Generated)
    requires PreCheck(env, req).None? && ClaimCheck(t, env, claims, req, g, NoFaults).None?
    requires Charged(t.configs[req.configCode].chargingType)
    requires t.users[claims].amount == t.configs[req.configCode].amount
    requires g.hostCode !in t.hosts && (HostTunnel, g.hostCode) !in t.auths
    ensures Verdict(t, env, claims, req, g, NoFaults) == Ok
    ensures Committed(t, claims, req, g).users[claims].amount == 0
  {
    FreshVersionDebits(t.users, claims, t.configs[req.configCode].amount);
  }

  /** A successful provisioning debits a charged plan's price exactly once,
      from a balance that covered it, raising the version by one; an uncharged
      plan leaves every account as it was; no other account changes. */
  lemma SuccessDebitsExactly(t: Tables, env: Env, claims: string, req: CreateReq, g: Generated, faults: Faults)
    requires Verdict(t, env, claims, req, g, faults) == Ok
    ensures claims in t.users && req.nodeCode in t.nodes && req.configCode in t.configs
    ensures var u := t.users[claims];
            var cfg := t.configs[req.configCode];
            var after := Committed(t, claims, req, g).users;
            && after.Keys == t.users.Keys
            && (Charged(cfg.chargingType) ==> u.amount >= cfg.amount && after[claims] == SystemUser(u.amount - cfg.amount, u.version + 1))
            && (!Charged(cfg.chargingType) ==> after == t.users)
            && forall c :: c in t.users && c != claims ==> after[c] == t.users[c]
  {
    FreshVersionDebits(t.users, claims, t.configs[req.configCode].amount);
  }

  /** The committed rows: the claimed prefix (fresh before) bound to the node,
      the host row with the plan's charging terms and the caller's ownership,
      and the credentials bound to (host tunnel, host code). Nodes, plans and
      clients are untouched. */
  lemma SuccessCommitsRows(t: Tables, env: Env, claims: string, req: CreateReq, g: Generated, faults: Faults)
    requires Verdict(t, env, claims, req, g, faults) == Ok
    ensures claims in t.users && req.nodeCode in t.nodes && req.configCode in t.configs
    ensures var after := Committed(t, claims, req, g);
            var cfg := t.configs[req.configCode];
            var node := t.nodes[req.nodeCode];
            && g.prefix !in t.domains && g.hostCode !in t.hosts && (HostTunnel, g.hostCode) !in t.auths
            && after.domains == t.domains[g.prefix := GostNodeDomain(g.prefix, node.code)]
            && after.hosts.Keys == t.hosts.Keys + {g.hostCode}
            && (forall c :: c in t.hosts ==> after.hosts[c] == t.hosts[c])
            && after.auths == t.auths[(HostTunnel, g.hostCode) := GostAuth(HostTunnel, g.hostCode, g.authUser, g.authPassword)]
            && after.nodes == t.nodes && after.configs == t.configs && after.clients == t.clients
    ensures var h := Committed(t, claims, req, g).hosts[g.hostCode];
            var cfg := t.configs[req.configCode];
            && h.code == g.hostCode && h.domainPrefix == g.prefix
            && h.chargingType == cfg.chargingType && h.cycle == cfg.cycle
            && h.amount == cfg.amount && h.limiter == cfg.limiter
            && h.nodeCode == req.nodeCode && h.clientCode == req.clientCode && h.userCode == claims
            && h.name == req.name && h.targetIp == req.targetIp && h.targetPort == req.targetPort
            && h.targetHttps == req.targetHttps
            && h.expAt == (if cfg.chargingType.CycleDay? then g.now + cfg.cycle * SecondsPerDay else g.now)
  {
  }

  /** Every host holds a claimed prefix and no two hosts share one. */
  ghost predicate PrefixesUnique(t: Tables) {
    && (forall c :: c in t.hosts ==> t.hosts[c].domainPrefix in t.domains)
    && (forall c1, c2 :: c1 in t.hosts && c2 in t.hosts && c1 != c2 ==> t.hosts[c1].domainPrefix != t.hosts[c2].domainPrefix)
  }

  /** Provisioning keeps host prefixes unique: the new host's prefix was not
      claimed before, so no live host holds it. */
  lemma CommitKeepsPrefixesUnique(t: Tables, env: Env, claims: string, req: CreateReq, g: Generated, faults: Faults)
    requires Verdict(t, env, claims, req, g, faults) == Ok
    requires PrefixesUnique(t)
    ensures claims in t.users && req.nodeCode in t.nodes && req.configCode in t.configs
    ensures PrefixesUnique(Committed(t, claims, req, g))
  {
    var after := Committed(t, claims, req, g);
    assert g.prefix !in t.domains && g.hostCode !in t.hosts;
    forall c | c in t.hosts
      ensures t.hosts[c].domainPrefix != g.prefix
    {
    }
    assert after.hosts[g.hostCode].domainPrefix == g.prefix;
  }

  // ------------------------------------------------------------------
  // The service
  // ------------------------------------------------------------------

  /** `claims` is the caller's account code. */
  method Create(store: Store, cache: RuntimeCache, outbox: Outbox, env: Env,
                claims: string, req: CreateReq, g: Generated, faults: Faults)
    returns (r: Outcome)
    modifies store, cache`gostAuths, cache`tunnelInfos, outbox
    ensures r == Verdict(old(store.Snapshot()), env, claims, req, g, faults)
    ensures r.Err? ==> && store.Snapshot() == old(store.Snapshot())
                       && cache.gostAuths == old(cache.gostAuths)
                       && cache.tunnelInfos == old(cache.tunnelInfos)
                       && outbox.calls == old(outbox.calls)
    ensures r.Ok? ==> && claims in old(store.users) && req.nodeCode in old(store.nodes) && req.configCode in old(store.configs)
                      && store.Snapshot() == Committed(old(store.Snapshot()), claims, req, g)
                      && cache.gostAuths == old(cache.gostAuths)[(g.authUser, g.authPassword) := g.hostCode]
                      && cache.tunnelInfos == old(cache.tunnelInfos)[g.hostCode := TunnelOf(NewHost(req, claims, g, old(store.configs)[req.configCode]))]
                      && outbox.calls == old(outbox.calls) + [ClientHostConfig(g.hostCode)]
  {
    if !env.validateLocalIp(req.targetIp) {
      return Err(ErrTargetIp);
    }
    if !env.validatePort(req.targetPort) {
      return Err(ErrTargetPort);
    }
    if env.funcWeb != "1" {
      return Err(ErrFeatureDisabled);
    }
    var before := store.Snapshot();
    r := Transaction(store, cache, outbox, env, claims, req, g, faults);
    if r.Err? {
      store.Restore(before);
    }
  }

  /** The body of the transaction. On an error it may leave some writes
      behind; `Create` rolls them back. */
  method Transaction(store: Store, cache: RuntimeCache, outbox: Outbox, env: Env,
                     claims: string, req: CreateReq, g: Generated, faults: Faults)
    returns (r: Outcome)
    modifies store, cache`gostAuths, cache`tunnelInfos, outbox
    ensures r == TxVerdict(old(store.Snapshot()), env, claims, req, g, faults)
    ensures r.Err? ==> && cache.gostAuths == old(cache.gostAuths)
                       && cache.tunnelInfos == old(cache.tunnelInfos)
                       && outbox.calls == old(outbox.calls)
    ensures r.Ok? ==> && claims in old(store.users) && req.nodeCode in old(store.nodes) && req.configCode in old(store.configs)
                      && store.Snapshot() == Committed(old(store.Snapshot()), claims, req, g)
                      && cache.gostAuths == old(cache.gostAuths)[(g.authUser, g.authPassword) := g.hostCode]
                      && cache.tunnelInfos == old(cache.tunnelInfos)[g.hostCode := TunnelOf(NewHost(req, claims, g, old(store.configs)[req.configCode]))]
                      && outbox.calls == old(outbox.calls) + [ClientHostConfig(g.hostCode)]
  {
    ghost var t := store.Snapshot();
    var user, cfg, e;
    user, cfg, e := ClaimPhase(store, env, claims, req, g, faults);
    if e.Some? {
      return Err(e.value);
    }
    var expAt;
    e, expAt := ChargePhase(store, claims, user, cfg, g.now, faults);
    if e.Some? {
      return Err(e.value);
    }
    assert store.hosts == t.hosts && store.auths == t.auths;
    e := InsertAndPublish(store, cache, outbox, claims, req, g, cfg, expAt, faults);
    if e.Some? {
      return Err(e.value);
    }
    r := Ok;
  }

  /** Reads the account and the node, runs the prefix, feature and rule checks,
      claims the prefix, then reads the plan and the client. */
  method ClaimPhase(store: Store, env: Env, claims: string, req: CreateReq, g: Generated, faults: Faults)
    returns (user: SystemUser, cfg: NodeConfig, e: Option<string>)
    modifies store
    ensures e == ClaimCheck(old(store.Snapshot()), env, claims, req, g, faults)
    ensures e.None? ==> && user == old(store.users)[claims]
                        && cfg == old(store.configs)[req.configCode]
                        && store.Snapshot() == old(store.Snapshot()).(domains := old(store.domains)[g.prefix :=
                             GostNodeDomain(g.prefix, old(store.nodes)[req.nodeCode].code)])
  {
    cfg := NodeConfig("", "", Other(0), 0, 0, 0);
    if claims !in store.users {
      user := SystemUser(0, 0);
      return user, cfg, Some(ErrUser);
    }
    user := store.users[claims];
    if req.nodeCode !in store.nodes {
      return user, cfg, Some(ErrNode);
    }
    var node := store.nodes[req.nodeCode];
    if !env.checkDomainPrefix(node, g.prefix) {
      return user, cfg, Some(ErrPrefixDenied);
    }
    if node.web != 1 {
      return user, cfg, Some(ErrWebDisabled);
    }
    var ruleError := env.verifyAll(store.Snapshot(), claims, node);
    if ruleError.Some? {
      return user, cfg, ruleError;
    }
    var ok := store.CreateDomain(GostNodeDomain(g.prefix, node.code), faults.domainInsert);
    if !ok {
      return user, cfg, Some(ErrPrefixUsed);
    }
    if !(req.configCode in store.configs && store.configs[req.configCode].nodeCode == node.code) {
      return user, cfg, Some(ErrConfig);
    }
    cfg := store.configs[req.configCode];
    if !(req.clientCode in store.clients && store.clients[req.clientCode].userCode == claims) {
      return user, cfg, Some(ErrClient);
    }
    e := None;
  }

  /** The charging switch. `user` is the account as read at the start of the
      transaction; its version guards the debit. */
  method ChargePhase(store: Store, claims: string, user: SystemUser, cfg: NodeConfig, now: int, faults: Faults)
    returns (e: Option<string>, expAt: int)
    requires claims in store.users && store.users[claims] == user
    modifies store
    ensures e == ChargeCheck(user, cfg, faults)
    ensures expAt == ExpiresAt(cfg, now)
    ensures e.None? ==> store.Snapshot() == old(store.Snapshot()).(users := Charge(old(store.users), claims, cfg))
  {
    expAt := now;
    e := None;
    match cfg.chargingType {
      case CycleDay =>
        expAt := now + cfg.cycle * SecondsPerDay;
        if user.amount < cfg.amount {
          return Some(ErrBalance), expAt;
        }
        var ok := store.UpdateUserVersioned(claims, user.version, user.amount - cfg.amount, user.version + 1, faults.debit);
        if !ok {
          return Some(ErrOperationFailed), expAt;
        }
      case OnlyOnce =>
        if user.amount < cfg.amount {
          return Some(ErrBalance), expAt;
        }
        var ok := store.UpdateUserVersioned(claims, user.version, user.amount - cfg.amount, user.version + 1, faults.debit);
        if !ok {
          return Some(ErrOperationFailed), expAt;
        }
      case Other(_) =>
    }
  }

  /** Inserts the host row, whose expiry `expAt` the charging switch computed,
      and its credentials, then publishes the credential lookup, pushes the
      host configuration and publishes the tunnel snapshot. */
  method InsertAndPublish(store: Store, cache: RuntimeCache, outbox: Outbox, claims: string, req: CreateReq,
                          g: Generated, cfg: NodeConfig, expAt: int, faults: Faults)
    returns (e: Option<string>)
    requires expAt == ExpiresAt(cfg, g.now)
    modifies store, cache`gostAuths, cache`tunnelInfos, outbox
    ensures e == InsertCheck(old(store.Snapshot()), g, faults)
    ensures e.Some? ==> && cache.gostAuths == old(cache.gostAuths)
                        && cache.tunnelInfos == old(cache.tunnelInfos)
                        && outbox.calls == old(outbox.calls)
    ensures e.None? ==> && store.Snapshot() == old(store.Snapshot()).(hosts := old(store.hosts)[g.hostCode := NewHost(req, claims, g, cfg)],
                                                                      auths := old(store.auths)[(HostTunnel, g.hostCode) := NewAuth(g)])
                        && cache.gostAuths == old(cache.gostAuths)[(g.authUser, g.authPassword) := g.hostCode]
                        && cache.tunnelInfos == old(cache.tunnelInfos)[g.hostCode := TunnelOf(NewHost(req, claims, g, cfg))]
                        && outbox.calls == old(outbox.calls) + [ClientHostConfig(g.hostCode)]
  {
    var host := NewHost(req, claims, g, cfg);
    assert host.expAt == expAt;
    var ok := store.CreateHost(host, faults.hostInsert);
    if !ok {
      return Some(ErrOperationFailed);
    }
    var auth := NewAuth(g);
    ok := store.CreateAuth(auth, faults.authInsert);
    if !ok {
      return Some(ErrOperationFailed);
    }
    cache.SetGostAuth(auth.user, auth.password, host.code);
    outbox.Send(ClientHostConfig(host.code));
    cache.SetTunnelInfo(TunnelOf(host));
    e := None;
  }
}
