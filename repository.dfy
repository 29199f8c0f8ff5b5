/** The transactional store: one map per table, the inserts the services issue,
    and the version-matched update that debits an account. A store failure that
    the model cannot see (a lost connection, a constraint the model does not
    know) is a boolean `fault` argument of the operation it breaks. */
module Repository {
  import opened Model

  /** `UPDATE system_user SET amount = amount', version = version'
      WHERE code = code AND version = expected`: the row changes only when its
      version still equals the one the caller read; otherwise no row matches. */
  function VersionedUpdate(users: map<string, SystemUser>, code: string, expected: int,
                           amount: int, version: int): map<string, SystemUser>
  {
    if code in users && users[code].version == expected
    then users[code := users[code].(amount := amount, version := version)]
    else users
  }

  /** Debiting with the version just read takes exactly `price` off the balance,
      raises the version by exactly one and touches no other account. */
  lemma FreshVersionDebits(users: map<string, SystemUser>, code: string, price: int)
    requires code in users
    ensures var u := users[code];
            var r := VersionedUpdate(users, code, u.version, u.amount - price, u.version + 1);
            && r.Keys == users.Keys
            && r[code] == u.(amount := u.amount - price, version := u.version + 1)
            && forall c :: c in users && c != code ==> r[c] == users[c]
  {
  }

  /** An update carrying a stale version matches no row and changes nothing. */
  lemma StaleVersionIsNoOp(users: map<string, SystemUser>, code: string, expected: int,
                           amount: int, version: int)
    requires code in users && users[code].version != expected
    ensures VersionedUpdate(users, code, expected, amount, version) == users
  {
  }

  /** Two debits that both read the same starting version: once the first has
      applied, the second matches no row, so at most one of them takes effect. */
  lemma CompetingDebitsApplyOnce(users: map<string, SystemUser>, code: string, price1: int, price2: int)
    requires code in users
    ensures var u := users[code];
            var first := VersionedUpdate(users, code, u.version, u.amount - price1, u.version + 1);
            VersionedUpdate(first, code, u.version, u.amount - price2, u.version + 1) == first
  {
  }

  /** Debits that each re-read the account before updating lose nothing: the
      balance falls by the sum of the prices and the version rises by two. */
  lemma SequentialDebitsAddUp(users: map<string, SystemUser>, code: string, price1: int, price2: int)
    requires code in users
    ensures var u := users[code];
            var first := VersionedUpdate(users, code, u.version, u.amount - price1, u.version + 1);
            var v := first[code];
            var second := VersionedUpdate(first, code, v.version, v.amount - price2, v.version + 1);
            second[code].amount == u.amount - (price1 + price2) && second[code].version == u.version + 2
  {
  }

  class Store {
    var users: map<string, SystemUser>
    var nodes: map<string, GostNode>
    var configs: map<string, NodeConfig>
    var clients: map<string, GostClient>
    var domains: map<string, GostNodeDomain>
    var hosts: map<string, GostClientHost>
    var auths: map<AuthKey, GostAuth>

    /** Every table, as one value. */
    function Snapshot(): Tables
      reads this
    {
      Tables(users, nodes, configs, clients, domains, hosts, auths)
    }

    constructor (t: Tables)
      ensures Snapshot() == t
    {
      users, nodes, configs, clients := t.users, t.nodes, t.configs, t.clients;
      domains, hosts, auths := t.domains, t.hosts, t.auths;
    }

    /** Rolls every table back to `t`. */
    method Restore(t: Tables)
      modifies this
      ensures Snapshot() == t
    {
      users, nodes, configs, clients := t.users, t.nodes, t.configs, t.clients;
      domains, hosts, auths := t.domains, t.hosts, t.auths;
    }

    /** Inserts a node; fails when its code is already a key of the node table. */
    method CreateNode(n: GostNode, fault: bool) returns (ok: bool)
      modifies this
      ensures ok == (n.code !in old(nodes) && !fault)
      ensures Snapshot() == if ok then old(Snapshot()).(nodes := old(nodes)[n.code := n]) else old(Snapshot())
    {
      ok := n.code !in nodes && !fault;
      if ok {
        nodes := nodes[n.code := n];
      }
    }

    /** Inserts a domain row; fails when its prefix is already a key of the
        domain table, whichever node claimed it. */
    method CreateDomain(d: GostNodeDomain, fault: bool) returns (ok: bool)
      modifies this
      ensures ok == (d.prefix !in old(domains) && !fault)
      ensures Snapshot() == if ok then old(Snapshot()).(domains := old(domains)[d.prefix := d]) else old(Snapshot())
    {
      ok := d.prefix !in domains && !fault;
      if ok {
        domains := domains[d.prefix := d];
      }
    }

    /** Inserts a host tunnel; fails when its code is already a key of the host table. */
    method CreateHost(h: GostClientHost, fault: bool) returns (ok: bool)
      modifies this
      ensures ok == (h.code !in old(hosts) && !fault)
      ensures Snapshot() == if ok then old(Snapshot()).(hosts := old(hosts)[h.code := h]) else old(Snapshot())
    {
      ok := h.code !in hosts && !fault;
      if ok {
        hosts := hosts[h.code := h];
      }
    }

    /** Inserts a credential row; fails when its (tunnel type, tunnel code) is
        already a key of the credential table. */
    method CreateAuth(a: GostAuth, fault: bool) returns (ok: bool)
      modifies this
      ensures ok == (AuthKeyOf(a) !in old(auths) && !fault)
      ensures Snapshot() == if ok then old(Snapshot()).(auths := old(auths)[AuthKeyOf(a) := a]) else old(Snapshot())
    {
      ok := AuthKeyOf(a) !in auths && !fault;
      if ok {
        auths := auths[AuthKeyOf(a) := a];
      }
    }

    /** The version-matched account update. It reports only a store error;
        how many rows matched is not reported. */
    method UpdateUserVersioned(code: string, expected: int, amount: int, version: int, fault: bool)
      returns (ok: bool)
      modifies this
      ensures ok == !fault
      ensures Snapshot() == if ok then old(Snapshot()).(users := VersionedUpdate(old(users), code, expected, amount, version))
                            else old(Snapshot())
    {
      ok := !fault;
      if ok {
        users := VersionedUpdate(users, code, expected, amount, version);
      }
    }
  }
}
