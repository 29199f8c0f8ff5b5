/** The daily per-client traffic ranking of the administrator dashboard: fold
    each client row's byte counters into a map keyed by client code, keep the
    clients with traffic in both directions, sort them with the ranking's
    comparator and keep at most the first 30. */
module Dashboard {

  const RankLimit: nat := 30

  /** A row of the client table, as selected (code and name). */
  datatype ClientRow = ClientRow(code: string, name: string)

  /** A day's byte counters of one client, read from the cache. */
  datatype ClientObs = ClientObs(inputBytes: int, outputBytes: int)

  datatype ClientObsItem = ClientObsItem(code: string, name: string, online: int, inputBytes: int, outputBytes: int)

  /** The zero value an absent map entry reads as. */
  const ZeroItem: ClientObsItem := ClientObsItem("", "", 0, 0, 0)

  /** The day being ranked and the cache reads the ranking makes:
      `GetClientObs(date, code)` and `GetClientOnline(code)`. */
  datatype Sources = Sources(date: string, getClientObs: (string, string) -> ClientObs, getClientOnline: string -> bool)

  /** Online is reported as 1, offline as 2. */
  function OnlineFlag(online: bool): int {
    if online then 1 else 2
  }

  // ------------------------------------------------------------------
  // Reference definitions, one client code at a time
  // ------------------------------------------------------------------

  function Codes(rows: seq<ClientRow>): set<string> {
    set r | r in rows :: r.code
  }

  function Count(rows: seq<ClientRow>, c: string): nat
    decreases |rows|
  {
    if rows == [] then 0
    else Count(rows[..|rows| - 1], c) + (if rows[|rows| - 1].code == c then 1 else 0)
  }

  /** The inbound bytes of the rows with code `c`, summed. */
  function SumIn(rows: seq<ClientRow>, c: string, s: Sources): int
    decreases |rows|
  {
    if rows == [] then 0
    else SumIn(rows[..|rows| - 1], c, s) + (if rows[|rows| - 1].code == c then s.getClientObs(s.date, c).inputBytes else 0)
  }

  /** The outbound bytes of the rows with code `c`, summed. */
  function SumOut(rows: seq<ClientRow>, c: string, s: Sources): int
    decreases |rows|
  {
    if rows == [] then 0
    else SumOut(rows[..|rows| - 1], c, s) + (if rows[|rows| - 1].code == c then s.getClientObs(s.date, c).outputBytes else 0)
  }

  /** The name on the last row with code `c`. */
  function LastName(rows: seq<ClientRow>, c: string): string
    decreases |rows|
  {
    if rows == [] then ""
    else if rows[|rows| - 1].code == c then rows[|rows| - 1].name
    else LastName(rows[..|rows| - 1], c)
  }

  /** The summary the ranking should hold for client `c`. */
  function Expected(rows: seq<ClientRow>, s: Sources, c: string): ClientObsItem {
    ClientObsItem(c, LastName(rows, c), OnlineFlag(s.getClientOnline(c)), SumIn(rows, c, s), SumOut(rows, c, s))
  }

  /** Traffic in both directions. */
  predicate Active(item: ClientObsItem) {
    item.inputBytes > 0 && item.outputBytes > 0
  }

  /** The clients that qualify for the ranking. */
  function Eligible(rows: seq<ClientRow>, s: Sources): set<string> {
    set c | c in Codes(rows) && Active(Expected(rows, s, c))
  }

  /** The codes appearing in a result. */
  function ListedCodes(items: seq<ClientObsItem>): set<string> {
    set x | x in items :: x.code
  }

  /** Each row adds the same counter of its code again, so a client's bytes
      are the counter times the number of rows carrying its code. */
  lemma {:induction false} SumsAreCountTimesCounter(rows: seq<ClientRow>, c: string, s: Sources)
    ensures SumIn(rows, c, s) == Count(rows, c) * s.getClientObs(s.date, c).inputBytes
    ensures SumOut(rows, c, s) == Count(rows, c) * s.getClientObs(s.date, c).outputBytes
    decreases |rows|
  {
    if rows != [] {
      SumsAreCountTimesCounter(rows[..|rows| - 1], c, s);
    }
  }

  /** A code without rows has no traffic and no name. */
  lemma {:induction false} AbsentCodeIsZero(rows: seq<ClientRow>, c: string, s: Sources)
    requires c !in Codes(rows)
    ensures SumIn(rows, c, s) == 0 && SumOut(rows, c, s) == 0 && LastName(rows, c) == "" && Count(rows, c) == 0
    decreases |rows|
  {
    if rows != [] {
      assert rows[|rows| - 1] in rows;
      assert Codes(rows[..|rows| - 1]) <= Codes(rows) by {
        forall r | r in rows[..|rows| - 1] ensures r in rows { }
      }
      AbsentCodeIsZero(rows[..|rows| - 1], c, s);
    }
  }

  /** Only traffic in both directions qualifies: 100 bytes in and none out
      does not, one byte each way does. */
  lemma FilterExamples()
    ensures !Active(ClientObsItem("a", "a", 1, 100, 0))
    ensures Active(ClientObsItem("b", "b", 1, 1, 1))
  {
  }

  // ------------------------------------------------------------------
  // The comparator
  // ------------------------------------------------------------------

  /** What `sort.Sort` needs of `Less`: a strict weak order (asymmetric, with
      a transitive complement). */
  ghost predicate StrictWeakOrder(less: (ClientObsItem, ClientObsItem) -> bool) {
    && (forall x, y :: less(x, y) ==> !less(y, x))
    && (forall x, y, z :: !less(x, y) && !less(y, z) ==> !less(x, z))
  }

  /** No later element is less than an earlier one. */
  ghost predicate SortedBy(items: seq<ClientObsItem>, less: (ClientObsItem, ClientObsItem) -> bool) {
    forall i, j :: 0 <= i < j < |items| ==> !less(items[j], items[i])
  }

  // ------------------------------------------------------------------
  // The ranking, step by step
  // ------------------------------------------------------------------

  /** The first loop: one map entry per client code, overwritten with the
      row's code, name and online flag and with the row's counters added. */
  method AccumulateObs(rows: seq<ClientRow>, s: Sources) returns (m: map<string, ClientObsItem>)
    ensures m.Keys == Codes(rows)
    ensures forall c :: c in m ==> m[c] == Expected(rows, s, c)
  {
    m := map[];
    for i := 0 to |rows|
      invariant m.Keys == Codes(rows[..i])
      invariant forall c :: c in m ==> m[c] == Expected(rows[..i], s, c)
    {
      var item := rows[i];
      var obsInfo := s.getClientObs(s.date, item.code);
      var obs := if item.code in m then m[item.code] else ZeroItem;
      obs := obs.(code := item.code, name := item.name, online := OnlineFlag(s.getClientOnline(item.code)),
                  inputBytes := obs.inputBytes + obsInfo.inputBytes,
                  outputBytes := obs.outputBytes + obsInfo.outputBytes);
      if item.code !in m {
        AbsentCodeIsZero(rows[..i], item.code, s);
      }
      AccumulateStep(rows, i, s);
      assert obs == Expected(rows[..i + 1], s, item.code);
      m := m[item.code := obs];
    }
    assert rows[..|rows|] == rows;
  }

  /** One more row adds its code, replaces the name and online flag of that
      code and adds the counter to its sums; other codes keep their summary. */
  lemma AccumulateStep(rows: seq<ClientRow>, i: int, s: Sources)
    requires 0 <= i < |rows|
    ensures Codes(rows[..i + 1]) == Codes(rows[..i]) + {rows[i].code}
    ensures forall c :: c != rows[i].code ==> Expected(rows[..i + 1], s, c) == Expected(rows[..i], s, c)
    ensures Expected(rows[..i + 1], s, rows[i].code)
            == ClientObsItem(rows[i].code, rows[i].name, OnlineFlag(s.getClientOnline(rows[i].code)),
                             SumIn(rows[..i], rows[i].code, s) + s.getClientObs(s.date, rows[i].code).inputBytes,
                             SumOut(rows[..i], rows[i].code, s) + s.getClientObs(s.date, rows[i].code).outputBytes)
  {
    var before, after := rows[..i], rows[..i + 1];
    assert after == before + [rows[i]];
    assert after[..|after| - 1] == before;
    forall c | c in Codes(after) ensures c in Codes(before) + {rows[i].code} {
      var r :| r in after && r.code == c;
    }
    forall c | c in Codes(before) + {rows[i].code} ensures c in Codes(after) {
      if c in Codes(before) {
        var r :| r in before && r.code == c;
        assert r in after;
      } else {
        assert rows[i] in after;
      }
    }
  }

  /** The codes of the map's entries with traffic both ways. */
  function ActiveCodes(m: map<string, ClientObsItem>): set<string> {
    set c | c in m && Active(m[c])
  }

  /** The second loop: the entries with traffic both ways, in whatever order
      the map is walked. */
  method CollectActive(m: map<string, ClientObsItem>) returns (list: seq<ClientObsItem>)
    requires forall c :: c in m ==> m[c].code == c
    ensures forall i :: 0 <= i < |list| ==> list[i].code in ActiveCodes(m) && list[i] == m[list[i].code]
    ensures forall c :: c in ActiveCodes(m) ==> m[c] in list
    ensures forall i, j :: 0 <= i < j < |list| ==> list[i].code != list[j].code
    ensures |list| == |ActiveCodes(m)|
  {
    list := [];
    var remaining := m.Keys;
    ghost var seen: set<string> := {};
    while remaining != {}
      invariant remaining <= m.Keys
      invariant forall c :: c in seen <==> c in m && c !in remaining && Active(m[c])
      invariant forall i :: 0 <= i < |list| ==> list[i].code in seen && list[i] == m[list[i].code]
      invariant forall c :: c in seen ==> m[c] in list
      invariant forall i, j :: 0 <= i < j < |list| ==> list[i].code != list[j].code
      invariant |list| == |seen|
      decreases remaining
    {
      var k :| k in remaining;
      if Active(m[k]) {
        assert k !in seen;
        list := list + [m[k]];
        seen := seen + {k};
      }
      remaining := remaining - {k};
    }
    assert seen == ActiveCodes(m);
  }

  /** `sort.Sort` on the slice: insertion sort by adjacent swaps. */
  method SortItems(a: array<ClientObsItem>, less: (ClientObsItem, ClientObsItem) -> bool)
    requires StrictWeakOrder(less)
    modifies a
    ensures SortedBy(a[..], less)
    ensures multiset(a[..]) == multiset(old(a[..]))
  {
    for i := 0 to a.Length
      invariant SortedBy(a[..i], less)
      invariant multiset(a[..]) == multiset(old(a[..]))
    {
      var j := i;
      StartInsert(a[..], i, less);
      while j > 0 && less(a[j], a[j - 1])
        invariant Inserting(a[..], i, j, less)
        invariant multiset(a[..]) == multiset(old(a[..]))
      {
        ghost var before := a[..];
        a[j - 1], a[j] := a[j], a[j - 1];
        assert a[..] == before[j - 1 := before[j]][j := before[j - 1]];
        SwapKeeps(before, i, j, less);
        j := j - 1;
      }
      FinishInsert(a[..], i, j, less);
    }
    assert a[..a.Length] == a[..];
  }

  /** Inserting `s[j]` into the sorted run `s[..i + 1]`: every pair not
      involving position `j` is in order, and nothing after `j` is less than
      `s[j]`. */
  ghost predicate Inserting(s: seq<ClientObsItem>, i: int, j: int, less: (ClientObsItem, ClientObsItem) -> bool) {
    && 0 <= j <= i < |s|
    && (forall p, q :: 0 <= p < q <= i && p != j && q != j ==> !less(s[q], s[p]))
    && (forall q :: j < q <= i ==> !less(s[q], s[j]))
  }

  lemma StartInsert(s: seq<ClientObsItem>, i: int, less: (ClientObsItem, ClientObsItem) -> bool)
    requires 0 <= i < |s| && SortedBy(s[..i], less)
    ensures Inserting(s, i, i, less)
  {
    forall p, q | 0 <= p < q <= i && p != i && q != i
      ensures !less(s[q], s[p])
    {
      assert s[..i][p] == s[p] && s[..i][q] == s[q];
    }
  }

  /** Swapping `s[j]` with a greater predecessor moves the insertion point
      one place left. */
  lemma SwapKeeps(s: seq<ClientObsItem>, i: int, j: int, less: (ClientObsItem, ClientObsItem) -> bool)
    requires StrictWeakOrder(less)
    requires Inserting(s, i, j, less) && j > 0 && less(s[j], s[j - 1])
    ensures Inserting(s[j - 1 := s[j]][j := s[j - 1]], i, j - 1, less)
  {
  }

  /** Once the predecessor is not greater, the run `s[..i + 1]` is sorted. */
  lemma FinishInsert(s: seq<ClientObsItem>, i: int, j: int, less: (ClientObsItem, ClientObsItem) -> bool)
    requires StrictWeakOrder(less)
    requires Inserting(s, i, j, less) && (j == 0 || !less(s[j], s[j - 1]))
    ensures SortedBy(s[..i + 1], less)
  {
    forall p, q | 0 <= p < q <= i
      ensures !less(s[q], s[p])
    {
      if q == j && p < j - 1 {
        assert !less(s[j - 1], s[p]);
      }
    }
  }

  /** The ranking. `rows` are the client rows in the order the store returns
      them; `less` is the ranking's comparator. */
  method ClientObsDate(rows: seq<ClientRow>, s: Sources, less: (ClientObsItem, ClientObsItem) -> bool)
    returns (result: seq<ClientObsItem>)
    requires StrictWeakOrder(less)
    ensures |result| == if |Eligible(rows, s)| >= RankLimit then RankLimit else |Eligible(rows, s)|
    ensures forall i :: 0 <= i < |result| ==> result[i].code in Eligible(rows, s) && result[i] == Expected(rows, s, result[i].code)
    ensures forall i :: 0 <= i < |result| ==> result[i].inputBytes > 0 && result[i].outputBytes > 0
    ensures forall i, j :: 0 <= i < j < |result| ==> result[i].code != result[j].code
    ensures forall i, j :: 0 <= i < j < |result| ==> !less(result[j], result[i])
    ensures forall c, i :: c in Eligible(rows, s) && c !in ListedCodes(result) && 0 <= i < |result|
                           ==> !less(Expected(rows, s, c), result[i])
  {
    var m := AccumulateObs(rows, s);
    var list := CollectActive(m);
    var a := new ClientObsItem[|list|](k requires 0 <= k < |list| => list[k]);
    assert a[..] == list;
    SortItems(a, less);
    var sorted := a[..];
    if |sorted| >= RankLimit {
      result := sorted[..RankLimit];
    } else {
      result := sorted;
    }
    RankingFacts(rows, s, less, m, list, sorted, result);
  }

  /** Why the truncated sorted list meets the ranking's contract. */
  lemma RankingFacts(rows: seq<ClientRow>, s: Sources, less: (ClientObsItem, ClientObsItem) -> bool,
                     m: map<string, ClientObsItem>, list: seq<ClientObsItem>, sorted: seq<ClientObsItem>,
                     result: seq<ClientObsItem>)
    requires m.Keys == Codes(rows) && forall c :: c in m ==> m[c] == Expected(rows, s, c)
    requires forall i :: 0 <= i < |list| ==> list[i].code in ActiveCodes(m) && list[i] == m[list[i].code]
    requires forall c :: c in ActiveCodes(m) ==> m[c] in list
    requires forall i, j :: 0 <= i < j < |list| ==> list[i].code != list[j].code
    requires |list| == |ActiveCodes(m)|
    requires SortedBy(sorted, less) && multiset(sorted) == multiset(list)
    requires result == if |sorted| >= RankLimit then sorted[..RankLimit] else sorted
    ensures |result| == if |Eligible(rows, s)| >= RankLimit then RankLimit else |Eligible(rows, s)|
    ensures forall i :: 0 <= i < |result| ==> result[i].code in Eligible(rows, s) && result[i] == Expected(rows, s, result[i].code)
    ensures forall i :: 0 <= i < |result| ==> result[i].inputBytes > 0 && result[i].outputBytes > 0
    ensures forall i, j :: 0 <= i < j < |result| ==> result[i].code != result[j].code
    ensures forall i, j :: 0 <= i < j < |result| ==> !less(result[j], result[i])
    ensures forall c, i :: c in Eligible(rows, s) && c !in ListedCodes(result) && 0 <= i < |result|
                           ==> !less(Expected(rows, s, c), result[i])
  {
    ActiveIsEligible(rows, s, m);
    PermutedEntries(m, list, sorted);
    PrefixOf(sorted, result);
    forall c | c in Eligible(rows, s) && c !in ListedCodes(result)
      ensures forall i :: 0 <= i < |result| ==> !less(Expected(rows, s, c), result[i])
    {
      assert m[c] in list;
      LeftOutRanksLower(sorted, result, less, m[c]);
    }
  }

  /** The active entries of the accumulated map are the eligible clients. */
  lemma ActiveIsEligible(rows: seq<ClientRow>, s: Sources, m: map<string, ClientObsItem>)
    requires m.Keys == Codes(rows) && forall c :: c in m ==> m[c] == Expected(rows, s, c)
    ensures ActiveCodes(m) == Eligible(rows, s)
  {
  }

  /** The cut keeps the first 30 entries, or all of them. */
  lemma PrefixOf(sorted: seq<ClientObsItem>, result: seq<ClientObsItem>)
    requires result == if |sorted| >= RankLimit then sorted[..RankLimit] else sorted
    ensures |result| == if |sorted| >= RankLimit then RankLimit else |sorted|
    ensures forall i :: 0 <= i < |result| ==> result[i] == sorted[i]
  {
  }

  /** A permutation of the active entries is still made of active entries,
      one per code. */
  lemma PermutedEntries(m: map<string, ClientObsItem>, list: seq<ClientObsItem>, sorted: seq<ClientObsItem>)
    requires forall i :: 0 <= i < |list| ==> list[i].code in ActiveCodes(m) && list[i] == m[list[i].code]
    requires forall i, j :: 0 <= i < j < |list| ==> list[i].code != list[j].code
    requires multiset(sorted) == multiset(list)
    ensures |sorted| == |list|
    ensures forall i :: 0 <= i < |sorted| ==> sorted[i].code in ActiveCodes(m) && sorted[i] == m[sorted[i].code]
    ensures forall i, j :: 0 <= i < j < |sorted| ==> sorted[i].code != sorted[j].code
  {
    assert |sorted| == |list| by {
      assert |multiset(sorted)| == |multiset(list)|;
    }
    forall i | 0 <= i < |sorted|
      ensures sorted[i].code in ActiveCodes(m) && sorted[i] == m[sorted[i].code]
    {
      assert sorted[i] in multiset(list);
      var k :| 0 <= k < |list| && list[k] == sorted[i];
    }
    DistinctCount(list);
    forall i, j | 0 <= i < j < |sorted|
      ensures sorted[i].code != sorted[j].code
    {
      TwoOccurrences(sorted, i, j);
      assert multiset(sorted)[sorted[i]] <= 1;
    }
  }

  /** An element of the sorted list whose code did not make the cut sits at or
      after it, so it is not less than anything kept. */
  lemma LeftOutRanksLower(sorted: seq<ClientObsItem>, result: seq<ClientObsItem>,
                          less: (ClientObsItem, ClientObsItem) -> bool, x: ClientObsItem)
    requires SortedBy(sorted, less)
    requires result == if |sorted| >= RankLimit then sorted[..RankLimit] else sorted
    requires x in multiset(sorted) && x.code !in ListedCodes(result)
    ensures forall i :: 0 <= i < |result| ==> !less(x, result[i])
  {
    var j :| 0 <= j < |sorted| && sorted[j] == x;
    forall i | 0 <= i < |result|
      ensures sorted[i] != x
    {
      assert result[i] == sorted[i] && result[i] in result;
    }
    forall i | 0 <= i < |result|
      ensures !less(x, result[i])
    {
      assert result[i] == sorted[i];
    }
  }

  /** Elements of a sequence without repeated elements occur once. */
  lemma {:induction false} DistinctCount(s: seq<ClientObsItem>)
    requires forall i, j :: 0 <= i < j < |s| ==> s[i].code != s[j].code
    ensures forall x :: multiset(s)[x] <= 1
    decreases |s|
  {
    if s != [] {
      DistinctCount(s[1..]);
      assert s == [s[0]] + s[1..];
      assert s[0] !in s[1..] by {
        forall k | 0 <= k < |s[1..]| ensures s[1..][k] != s[0] {
          assert s[1..][k] == s[k + 1];
        }
      }
      assert multiset(s) == multiset([s[0]]) + multiset(s[1..]);
    }
  }

  /** An element at two positions occurs at least twice. */
  lemma TwoOccurrences(s: seq<ClientObsItem>, i: int, j: int)
    requires 0 <= i < j < |s|
    ensures s[i] == s[j] ==> multiset(s)[s[i]] >= 2
  {
    assert s == s[..j] + [s[j]] + s[j + 1..];
    assert s[i] in s[..j];
    assert multiset(s) == multiset(s[..j]) + multiset([s[j]]) + multiset(s[j + 1..]);
  }
}
