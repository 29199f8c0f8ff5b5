/** The runtime state cache: admission policies kept under `"admission:" + code`,
    node limit snapshots, tunnel snapshots and credential lookups. Values are
    stored as they are; serialisation is not modelled. */
module Cache {
  import opened Model

  // ------------------------------------------------------------------
  // Admission policies (an IP allow-list per resource code)
  // ------------------------------------------------------------------

  const AdmissionKeyPrefix: string := "admission:"

  /** `WhiteMap` is the membership set built from `WhiteList`. */
  datatype AdmissionInfo = AdmissionInfo(code: string, whiteEnable: int, whiteList: seq<string>, whiteMap: set<string>)

  /** What a read of a missing entry yields: Go's zero value. */
  const ZeroAdmission: AdmissionInfo := AdmissionInfo("", 0, [], {})

  function AdmissionKey(code: string): string {
    AdmissionKeyPrefix + code
  }

  /** Distinct codes never share a cache key. */
  lemma AdmissionKeyInjective(a: string, b: string)
    requires AdmissionKey(a) == AdmissionKey(b)
    ensures a == b
  {
    assert a == AdmissionKey(a)[|AdmissionKeyPrefix|..];
    assert b == AdmissionKey(b)[|AdmissionKeyPrefix|..];
  }

  /** The allow-list gate: everything passes unless the list is enabled with
      exactly the value 1; then only members of `whiteMap` pass. */
  predicate ValidWhiteIp(info: AdmissionInfo, ip: string) {
    if info.whiteEnable != 1 then true
    else ip in info.whiteMap
  }

  lemma DisabledAdmitsAll(info: AdmissionInfo, ip: string)
    requires info.whiteEnable != 1
    ensures ValidWhiteIp(info, ip)
  {
  }

  lemma EnabledAdmitsOnlyMembers(info: AdmissionInfo, ip: string)
    requires info.whiteEnable == 1
    ensures ValidWhiteIp(info, ip) <==> ip in info.whiteMap
  {
  }

  /** The elements of an allow-list. */
  function Members(list: seq<string>): set<string> {
    set ip | ip in list
  }

  /** The loop that rebuilds `WhiteMap` from `WhiteList`. */
  method MakeWhiteMap(list: seq<string>) returns (m: set<string>)
    ensures forall ip :: ip in m <==> ip in list
  {
    m := {};
    for i := 0 to |list|
      invariant forall ip :: ip in m <==> ip in list[..i]
    {
      assert list[..i + 1] == list[..i] + [list[i]];
      m := m + {list[i]};
    }
  }

  /** The entry `SetAdmissionInfo` stores: the caller's `whiteMap` is replaced
      by the members of `whiteList`. */
  function Stored(info: AdmissionInfo): AdmissionInfo {
    info.(whiteMap := Members(info.whiteList))
  }

  function PutAdmission(m: map<string, AdmissionInfo>, info: AdmissionInfo): map<string, AdmissionInfo> {
    m[AdmissionKey(info.code) := Stored(info)]
  }

  function LookupAdmission(m: map<string, AdmissionInfo>, code: string): AdmissionInfo {
    if AdmissionKey(code) in m then m[AdmissionKey(code)] else ZeroAdmission
  }

  function RemoveAdmission(m: map<string, AdmissionInfo>, code: string): map<string, AdmissionInfo> {
    m - {AdmissionKey(code)}
  }

  /** Set then Get returns the stored entry, whose gate admits exactly the
      listed addresses when enabled and every address otherwise. */
  lemma SetThenGet(m: map<string, AdmissionInfo>, info: AdmissionInfo, ip: string)
    ensures LookupAdmission(PutAdmission(m, info), info.code) == Stored(info)
    ensures ValidWhiteIp(LookupAdmission(PutAdmission(m, info), info.code), ip)
            <==> (info.whiteEnable != 1 || ip in info.whiteList)
  {
  }

  /** Whatever `whiteMap` the caller passes is discarded. */
  lemma SetDiscardsCallerWhiteMap(m: map<string, AdmissionInfo>, info: AdmissionInfo, other: set<string>)
    ensures PutAdmission(m, info.(whiteMap := other)) == PutAdmission(m, info)
  {
  }

  /** Writing the same policy twice leaves the cache as writing it once. */
  lemma SetIsIdempotent(m: map<string, AdmissionInfo>, info: AdmissionInfo)
    ensures PutAdmission(PutAdmission(m, info), info) == PutAdmission(m, info)
  {
  }

  /** Set overwrites its own key only: every other key keeps its entry. */
  lemma SetLeavesOtherKeys(m: map<string, AdmissionInfo>, info: AdmissionInfo, k: string)
    requires k != AdmissionKey(info.code)
    ensures (k in PutAdmission(m, info)) == (k in m)
    ensures k in m ==> PutAdmission(m, info)[k] == m[k]
  {
  }

  /** So the policy read back for any other code is the one read before. */
  lemma SetLeavesOtherCodes(m: map<string, AdmissionInfo>, info: AdmissionInfo, code: string)
    requires code != info.code
    ensures LookupAdmission(PutAdmission(m, info), code) == LookupAdmission(m, code)
  {
    if AdmissionKey(code) == AdmissionKey(info.code) {
      AdmissionKeyInjective(code, info.code);
    }
  }

  /** After Del, Get reads the zero value, which is disabled and so admits
      every address. */
  lemma DelThenGet(m: map<string, AdmissionInfo>, code: string, ip: string)
    ensures LookupAdmission(RemoveAdmission(m, code), code) == ZeroAdmission
    ensures ValidWhiteIp(LookupAdmission(RemoveAdmission(m, code), code), ip)
  {
  }

  /** Del removes its own code's entry only. */
  lemma DelLeavesOtherCodes(m: map<string, AdmissionInfo>, code: string, other: string)
    requires other != code
    ensures LookupAdmission(RemoveAdmission(m, code), other) == LookupAdmission(m, other)
  {
    if AdmissionKey(other) == AdmissionKey(code) {
      AdmissionKeyInjective(other, code);
    }
  }

  /** An enabled list holding 1.2.3.4 admits that address and refuses 5.6.7.8. */
  lemma AllowListExample(m: map<string, AdmissionInfo>, code: string)
    ensures var got := LookupAdmission(PutAdmission(m, AdmissionInfo(code, 1, ["1.2.3.4"], {})), code);
            ValidWhiteIp(got, "1.2.3.4") && !ValidWhiteIp(got, "5.6.7.8")
  {
    SetThenGet(m, AdmissionInfo(code, 1, ["1.2.3.4"], {}), "5.6.7.8");
  }

  // ------------------------------------------------------------------
  // Runtime snapshots published by the provisioning services
  // ------------------------------------------------------------------

  /** The limit fields of a node. */
  datatype NodeInfo = NodeInfo(code: string, limitResetIndex: int, limitTotal: int, limitKind: int)

  /** The fields of a tunnel the data path needs. */
  datatype TunnelInfo = TunnelInfo(
    code: string,
    tunnelType: TunnelType,
    clientCode: string,
    userCode: string,
    nodeCode: string,
    chargingType: ChargingType,
    expAt: int,
    limiter: int)

  class RuntimeCache {
    /** Admission policies, keyed by `AdmissionKey(code)`. */
    var admissions: map<string, AdmissionInfo>
    /** Node limit snapshots, keyed by node code. */
    var nodeInfos: map<string, NodeInfo>
    /** Tunnel snapshots, keyed by tunnel code. */
    var tunnelInfos: map<string, TunnelInfo>
    /** Credential lookup: (user, password) to the tunnel code it opens. */
    var gostAuths: map<(string, string), string>

    constructor ()
      ensures admissions == map[] && nodeInfos == map[] && tunnelInfos == map[] && gostAuths == map[]
    {
      admissions, nodeInfos, tunnelInfos, gostAuths := map[], map[], map[], map[];
    }

    method SetAdmissionInfo(info: AdmissionInfo)
      modifies this`admissions
      ensures admissions == PutAdmission(old(admissions), info)
    {
      var whiteMap := MakeWhiteMap(info.whiteList);
      assert whiteMap == Members(info.whiteList);
      admissions := admissions[AdmissionKey(info.code) := info.(whiteMap := whiteMap)];
    }

    method GetAdmissionInfo(code: string) returns (result: AdmissionInfo)
      ensures result == LookupAdmission(admissions, code)
    {
      var key := AdmissionKey(code);
      if key in admissions {
        result := admissions[key];
      } else {
        result := ZeroAdmission;
      }
    }

    method DelAdmissionInfo(code: string)
      modifies this`admissions
      ensures admissions == RemoveAdmission(old(admissions), code)
    {
      admissions := admissions - {AdmissionKey(code)};
    }

    method SetNodeInfo(info: NodeInfo)
      modifies this`nodeInfos
      ensures nodeInfos == old(nodeInfos)[info.code := info]
    {
      nodeInfos := nodeInfos[info.code := info];
    }

    method SetTunnelInfo(info: TunnelInfo)
      modifies this`tunnelInfos
      ensures tunnelInfos == old(tunnelInfos)[info.code := info]
    {
      tunnelInfos := tunnelInfos[info.code := info];
    }

    method SetGostAuth(user: string, password: string, tunnelCode: string)
      modifies this`gostAuths
      ensures gostAuths == old(gostAuths)[(user, password) := tunnelCode]
    {
      gostAuths := gostAuths[(user, password) := tunnelCode];
    }
  }
}
