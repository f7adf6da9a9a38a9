/** The scan-result aggregation of pkg/apoch.go: which resource owns a host
    result, how the open ports are collected per resource id, which rows the
    final table holds, when the scan is skipped, and when an instance id is
    accepted from the network-interface description. */
module Apoch {
  import opened Wrappers
  import opened Types

  // ---------------------------------------------------------------------
  // lo.Filter(...)[0]: the first element that satisfies a predicate
  // ---------------------------------------------------------------------

  /** `lo.Filter`: the elements of `s` that satisfy `p`, in their order. */
  function Filter<T>(s: seq<T>, p: T -> bool): (r: seq<T>)
    ensures |r| <= |s|
    ensures forall i :: 0 <= i < |r| ==> r[i] in s && p(r[i])
    ensures forall i :: 0 <= i < |s| && p(s[i]) ==> s[i] in r
    decreases |s|
  {
    if s == [] then []
    else if p(s[0]) then [s[0]] + Filter(s[1..], p)
    else Filter(s[1..], p)
  }

  /** The index of the first element of `s` that satisfies `p`. */
  function FirstIndex<T>(s: seq<T>, p: T -> bool): (k: nat)
    requires exists i :: 0 <= i < |s| && p(s[i])
    ensures k < |s| && p(s[k])
    ensures forall j :: 0 <= j < k ==> !p(s[j])
    decreases |s|
  {
    if p(s[0]) then 0
    else
      assert exists i :: 0 <= i < |s[1..]| && p(s[1..][i]) by {
        var i :| 0 <= i < |s| && p(s[i]);
        assert s[1..][i - 1] == s[i];
      }
      1 + FirstIndex(s[1..], p)
  }

  /** Element 0 of a filtered sequence is the first match of the original. */
  lemma {:induction false} FilterStartsAtFirstMatch<T>(s: seq<T>, p: T -> bool, k: nat)
    requires k < |s| && p(s[k])
    requires forall j :: 0 <= j < k ==> !p(s[j])
    ensures |Filter(s, p)| > 0 && Filter(s, p)[0] == s[k]
    decreases k
  {
    if k > 0 {
      assert s[1..][k - 1] == s[k];
      forall j | 0 <= j < k - 1 ensures !p(s[1..][j]) {
        assert s[1..][j] == s[j + 1];
      }
      FilterStartsAtFirstMatch(s[1..], p, k - 1);
    }
  }

  // ---------------------------------------------------------------------
  // Resource lookups
  // ---------------------------------------------------------------------

  /** Some resource has public IP `ip`. */
  predicate HasIP(resources: seq<Resource>, ip: string)
  {
    exists k :: 0 <= k < |resources| && resources[k].publicIp == ip
  }

  /** Some resource has id `id`. */
  predicate HasID(resources: seq<Resource>, id: string)
  {
    exists k :: 0 <= k < |resources| && resources[k].id == id
  }

  /** The resource that owns a host result: the first resource whose public
      IP string equals the result's IP. Without a match the Go code indexes
      an empty slice and panics, so a match is required. */
  function ResourceForIP(resources: seq<Resource>, ip: string): (r: Resource)
    requires HasIP(resources, ip)
    ensures r.publicIp == ip
    ensures exists k :: 0 <= k < |resources| && resources[k] == r &&
                        forall j :: 0 <= j < k ==> resources[j].publicIp != ip
  {
    var p := (x: Resource) => x.publicIp == ip;
    var k := FirstIndex(resources, p);
    FilterStartsAtFirstMatch(resources, p, k);
    Filter(resources, p)[0]
  }

  /** The resource a report row describes: the first resource whose id
      equals the row's key. */
  function ResourceForID(resources: seq<Resource>, id: string): (r: Resource)
    requires HasID(resources, id)
    ensures r.id == id
    ensures exists k :: 0 <= k < |resources| && resources[k] == r &&
                        forall j :: 0 <= j < k ==> resources[j].id != id
  {
    var p := (x: Resource) => x.id == id;
    var k := FirstIndex(resources, p);
    FilterStartsAtFirstMatch(resources, p, k);
    Filter(resources, p)[0]
  }

  /** The id under which a host result's ports are recorded. */
  function Owner(resources: seq<Resource>, ip: string): string
    requires HasIP(resources, ip)
  {
    ResourceForIP(resources, ip).id
  }

  /** The owner of a host result is an id of some resource. */
  lemma OwnerHasID(resources: seq<Resource>, ip: string)
    requires HasIP(resources, ip)
    ensures HasID(resources, Owner(resources, ip))
  {
    var r := ResourceForIP(resources, ip);
    var k :| 0 <= k < |resources| && resources[k] == r;
    assert resources[k].id == Owner(resources, ip);
  }

  /** `lo.Map` of the resources to their public IP strings: the scan targets. */
  function PublicIPs(resources: seq<Resource>): (ips: seq<string>)
    ensures |ips| == |resources|
    ensures forall i :: 0 <= i < |resources| ==> ips[i] == resources[i].publicIp
  {
    seq(|resources|, i requires 0 <= i < |resources| => resources[i].publicIp)
  }

  /** An address is a scan target exactly when some resource owns it, so
      every result the scanner reports for a target finds its resource. */
  lemma TargetsAreOwned(resources: seq<Resource>, ip: string)
    ensures ip in PublicIPs(resources) <==> HasIP(resources, ip)
  {
    var ips := PublicIPs(resources);
    if ip in ips {
      var i :| 0 <= i < |ips| && ips[i] == ip;
      assert resources[i].publicIp == ip;
    }
    if HasIP(resources, ip) {
      var k :| 0 <= k < |resources| && resources[k].publicIp == ip;
      assert ips[k] == ip;
    }
  }

  // ---------------------------------------------------------------------
  // Port aggregation
  // ---------------------------------------------------------------------

  /** What the scanner hands to the callback: the host's IP and its open
      ports in the order reported. */
  datatype HostResult = HostResult(ip: string, ports: seq<int>)

  /** `openPorts[id]` in Go: a missing key reads as the empty (nil) list. */
  function PortsOf(m: map<string, seq<int>>, id: string): seq<int>
  {
    if id in m then m[id] else []
  }

  /** Every result's IP belongs to some resource. */
  predicate AllResolvable(resources: seq<Resource>, hs: seq<HostResult>)
  {
    forall i :: 0 <= i < |hs| ==> HasIP(resources, hs[i].ip)
  }

  /** Every key of the map is the id of some resource. */
  predicate KeysResolvable(resources: seq<Resource>, m: map<string, seq<int>>)
  {
    forall id :: id in m ==> HasID(resources, id)
  }

  /** The effect of one callback on the port map: the owner's list is
      extended by the result's ports in order (duplicates included), an
      entry appears only if there is a port to add, and no other key
      changes. */
  function Step(resources: seq<Resource>, m: map<string, seq<int>>, hr: HostResult): (r: map<string, seq<int>>)
    requires HasIP(resources, hr.ip)
    ensures var id := Owner(resources, hr.ip);
            && PortsOf(r, id) == PortsOf(m, id) + hr.ports
            && (id in r <==> id in m || hr.ports != [])
            && forall k :: k != id ==> (k in r <==> k in m) && PortsOf(r, k) == PortsOf(m, k)
  {
    if hr.ports == [] then m
    else
      var id := Owner(resources, hr.ip);
      m[id := PortsOf(m, id) + hr.ports]
  }

  /** The port map after the callback has run on each result in turn. Its
      keys are resource ids and no list in it is empty. */
  function Aggregate(resources: seq<Resource>, hs: seq<HostResult>): (m: map<string, seq<int>>)
    requires AllResolvable(resources, hs)
    ensures forall id :: id in m ==> HasID(resources, id) && m[id] != []
    decreases |hs|
  {
    if hs == [] then map[]
    else
      var last := hs[|hs| - 1];
      OwnerHasID(resources, last.ip);
      Step(resources, Aggregate(resources, hs[..|hs| - 1]), last)
  }

  /** Reference definition: the ports of all results owned by `id`,
      concatenated in delivery order. */
  function PortsFor(resources: seq<Resource>, hs: seq<HostResult>, id: string): seq<int>
    requires AllResolvable(resources, hs)
    decreases |hs|
  {
    if hs == [] then []
    else
      var last := hs[|hs| - 1];
      PortsFor(resources, hs[..|hs| - 1], id)
        + (if Owner(resources, last.ip) == id then last.ports else [])
  }

  /** No port is lost and none is merged: after any sequence of callbacks,
      the list under `id` is exactly the concatenation of the ports of the
      results owned by `id`, and `id` is a key exactly when that list is
      non-empty. */
  lemma {:induction false} AggregateCollectsPorts(resources: seq<Resource>, hs: seq<HostResult>, id: string)
    requires AllResolvable(resources, hs)
    ensures PortsOf(Aggregate(resources, hs), id) == PortsFor(resources, hs, id)
    ensures id in Aggregate(resources, hs) <==> PortsFor(resources, hs, id) != []
    decreases |hs|
  {
    if hs != [] {
      AggregateCollectsPorts(resources, hs[..|hs| - 1], id);
    }
  }

  /** Every port of every result ends up in its owner's list. */
  lemma {:induction false} PortIsRecorded(resources: seq<Resource>, hs: seq<HostResult>, i: nat, port: int)
    requires AllResolvable(resources, hs)
    requires i < |hs| && port in hs[i].ports
    ensures Owner(resources, hs[i].ip) in Aggregate(resources, hs)
    ensures port in Aggregate(resources, hs)[Owner(resources, hs[i].ip)]
  {
    var id := Owner(resources, hs[i].ip);
    PortsForContains(resources, hs, i, port);
    AggregateCollectsPorts(resources, hs, id);
  }

  lemma {:induction false} PortsForContains(resources: seq<Resource>, hs: seq<HostResult>, i: nat, port: int)
    requires AllResolvable(resources, hs)
    requires i < |hs| && port in hs[i].ports
    ensures port in PortsFor(resources, hs, Owner(resources, hs[i].ip))
    decreases |hs|
  {
    if i < |hs| - 1 {
      var prefix := hs[..|hs| - 1];
      assert prefix[i] == hs[i];
      PortsForContains(resources, prefix, i, port);
    }
  }

  /** Delivering the same host result twice is not absorbed: its ports are
      appended to the owner's list a second time. */
  lemma {:induction false} RepeatedResultIsAppendedAgain(resources: seq<Resource>, hs: seq<HostResult>, hr: HostResult)
    requires AllResolvable(resources, hs) && HasIP(resources, hr.ip)
    ensures AllResolvable(resources, hs + [hr, hr])
    ensures PortsOf(Aggregate(resources, hs + [hr, hr]), Owner(resources, hr.ip))
            == PortsOf(Aggregate(resources, hs), Owner(resources, hr.ip)) + hr.ports + hr.ports
  {
    var once, twice := hs + [hr], hs + [hr, hr];
    assert twice[..|twice| - 1] == once && once[..|once| - 1] == hs;
    assert AllResolvable(resources, twice) by {
      forall i | 0 <= i < |twice| ensures HasIP(resources, twice[i].ip) {
        if i < |hs| { assert twice[i] == hs[i]; }
      }
    }
  }

  /** The aggregator of the callback: the resources are fixed when the scan
      starts and `openPorts` maps a resource id to the ports reported for
      it. */
  class PortAggregator {
    const resources: seq<Resource>
    var openPorts: map<string, seq<int>>

    /** Every key is a resource id and every list is non-empty. */
    ghost predicate Valid()
      reads this
    {
      forall id :: id in openPorts ==> HasID(resources, id) && openPorts[id] != []
    }

    constructor (resources: seq<Resource>)
      ensures this.resources == resources
      ensures openPorts == map[]
      ensures Valid()
    {
      this.resources := resources;
      openPorts := map[];
    }

    /** The `OnResult` callback: look up the owning resource and append
        each reported port to its list, one port at a time. */
    method OnResult(hr: HostResult)
      requires Valid()
      requires HasIP(resources, hr.ip)
      modifies this
      ensures Valid()
      ensures openPorts == Step(resources, old(openPorts), hr)
    {
      var r := ResourceForIP(resources, hr.ip);
      ghost var start := openPorts;
      var i := 0;
      while i < |hr.ports|
        invariant 0 <= i <= |hr.ports|
        invariant openPorts == if i == 0 then start else start[r.id := PortsOf(start, r.id) + hr.ports[..i]]
      {
        assert hr.ports[..i + 1] == hr.ports[..i] + [hr.ports[i]];
        ghost var before := openPorts;
        openPorts := openPorts[r.id := PortsOf(openPorts, r.id) + [hr.ports[i]]];
        if i == 0 {
          assert hr.ports[..1] == [hr.ports[0]];
          assert openPorts == start[r.id := PortsOf(start, r.id) + hr.ports[..1]];
        } else {
          assert PortsOf(before, r.id) == PortsOf(start, r.id) + hr.ports[..i];
          assert PortsOf(before, r.id) + [hr.ports[i]] == PortsOf(start, r.id) + hr.ports[..i + 1];
          assert openPorts == start[r.id := PortsOf(start, r.id) + hr.ports[..i + 1]];
        }
        i := i + 1;
      }
      assert hr.ports[..|hr.ports|] == hr.ports;
      OwnerHasID(resources, hr.ip);
    }

    /** The table rows, one per key, in whatever order the map yields its
        keys. */
    method ReportRows() returns (rows: seq<Row>)
      requires Valid()
      ensures KeysResolvable(resources, openPorts)
      ensures IsReportOf(rows, resources, openPorts)
    {
      rows := [];
      var pending := openPorts.Keys;
      while pending != {}
        invariant KeysResolvable(resources, openPorts)
        invariant ReportSoFar(rows, resources, openPorts, pending)
        decreases pending
      {
        var id :| id in pending;
        ReportSoFarStep(rows, resources, openPorts, pending, id);
        rows := rows + [RowFor(resources, id, openPorts[id])];
        pending := pending - {id};
      }
      ReportSoFarDone(rows, resources, openPorts);
    }
  }

  /** Loop invariant of `ReportRows`: `rows` reports the keys that are not
      `pending`. */
  ghost predicate ReportSoFar(rows: seq<Row>, resources: seq<Resource>, m: map<string, seq<int>>, pending: set<string>)
    requires KeysResolvable(resources, m)
  {
    && pending <= m.Keys
    && |rows| + |pending| == |m.Keys|
    && (forall row :: row in rows ==> row.id !in pending && IsRowOf(row, resources, m))
    && (forall id :: id in m && id !in pending ==> exists i :: 0 <= i < |rows| && rows[i].id == id)
    && (forall i, j :: 0 <= i < j < |rows| ==> rows[i].id != rows[j].id)
  }

  lemma ReportSoFarStep(rows: seq<Row>, resources: seq<Resource>, m: map<string, seq<int>>, pending: set<string>, id: string)
    requires KeysResolvable(resources, m)
    requires ReportSoFar(rows, resources, m, pending) && id in pending
    ensures ReportSoFar(rows + [RowFor(resources, id, m[id])], resources, m, pending - {id})
  {
    var row := RowFor(resources, id, m[id]);
    var rows', pending' := rows + [row], pending - {id};
    assert IsRowOf(row, resources, m);
    assert |pending'| == |pending| - 1;
    forall k | k in m && k !in pending' ensures exists i :: 0 <= i < |rows'| && rows'[i].id == k {
      if k == id {
        assert rows'[|rows|].id == k;
      } else {
        var i :| 0 <= i < |rows| && rows[i].id == k;
        assert rows'[i].id == k;
      }
    }
    forall i, j | 0 <= i < j < |rows'| ensures rows'[i].id != rows'[j].id {
      if j == |rows| {
        assert rows'[i] in rows;
      } else {
        assert rows'[i] == rows[i] && rows'[j] == rows[j];
      }
    }
  }

  lemma ReportSoFarDone(rows: seq<Row>, resources: seq<Resource>, m: map<string, seq<int>>)
    requires KeysResolvable(resources, m)
    requires ReportSoFar(rows, resources, m, {})
    ensures IsReportOf(rows, resources, m)
  {
    assert |m.Keys| == |m|;
  }

  // ---------------------------------------------------------------------
  // Report
  // ---------------------------------------------------------------------

  /** The column titles of the table. */
  const Header: seq<string> := ["IP Address", "Open Ports", "Resource ID", "Account ID"]

  /** One table row: the IP address, the open ports, the resource id and
      the account id. */
  datatype Row = Row(ip: string, ports: seq<int>, id: string, account: string)

  /** The table: header and rows. */
  datatype Table = Table(header: seq<string>, rows: seq<Row>)

  /** The row for one key: IP and account of the first resource with that
      id, and the key's port list. */
  function RowFor(resources: seq<Resource>, id: string, ports: seq<int>): Row
    requires HasID(resources, id)
  {
    var r := ResourceForID(resources, id);
    Row(r.publicIp, ports, id, r.account)
  }

  /** The rows expected for a port map, as a set: the order of Go's map
      iteration is not fixed. */
  function ExpectedRows(resources: seq<Resource>, m: map<string, seq<int>>): set<Row>
    requires KeysResolvable(resources, m)
  {
    set id | id in m :: RowFor(resources, id, m[id])
  }

  /** `row` is the row of one of the keys of `m`. */
  predicate IsRowOf(row: Row, resources: seq<Resource>, m: map<string, seq<int>>)
    requires KeysResolvable(resources, m)
  {
    row.id in m && row == RowFor(resources, row.id, m[row.id])
  }

  /** `rows` is a report of `m`: one row per key, each the row for its key,
      no key twice. */
  predicate IsReportOf(rows: seq<Row>, resources: seq<Resource>, m: map<string, seq<int>>)
    requires KeysResolvable(resources, m)
  {
    && |rows| == |m|
    && (forall row :: row in rows ==> IsRowOf(row, resources, m))
    && (forall id :: id in m ==> exists i :: 0 <= i < |rows| && rows[i].id == id)
    && (forall i, j :: 0 <= i < j < |rows| ==> rows[i].id != rows[j].id)
  }

  /** A report of `m` holds exactly the expected rows, whatever their order. */
  lemma ReportHasExpectedRows(rows: seq<Row>, resources: seq<Resource>, m: map<string, seq<int>>)
    requires KeysResolvable(resources, m)
    requires IsReportOf(rows, resources, m)
    ensures forall row :: row in rows <==> row in ExpectedRows(resources, m)
  {
    forall row | row in ExpectedRows(resources, m) ensures row in rows {
      var id :| id in m && row == RowFor(resources, id, m[id]);
      var i :| 0 <= i < |rows| && rows[i].id == id;
      assert IsRowOf(rows[i], resources, m);
    }
    forall row | row in rows ensures row in ExpectedRows(resources, m) {
      assert IsRowOf(row, resources, m);
    }
  }

  /** `QueryIPsAndScan` from the inventory onwards. The scan is skipped
      (the process exits) exactly when there are no resources or scanning
      is switched off. Otherwise the scanner, which reports results only
      for its targets, feeds `results` to the callback in order, and the
      table is the header with one row per key of the final port map. */
  method QueryIPsAndScan(resources: seq<Resource>, skipScan: bool, results: seq<HostResult>)
    returns (report: Option<Table>)
    requires forall i :: 0 <= i < |results| ==> results[i].ip in PublicIPs(resources)
    ensures report.None? <==> |resources| == 0 || skipScan
    ensures report.Some? ==> AllResolvable(resources, results)
    ensures report.Some? ==> report.value.header == Header
    ensures report.Some? ==> IsReportOf(report.value.rows, resources, Aggregate(resources, results))
  {
    if |resources| == 0 || skipScan {
      return None;
    }
    forall i | 0 <= i < |results| ensures HasIP(resources, results[i].ip) {
      TargetsAreOwned(resources, results[i].ip);
    }
    var aggregator := new PortAggregator(resources);
    var i := 0;
    while i < |results|
      invariant 0 <= i <= |results|
      invariant aggregator.resources == resources
      invariant aggregator.Valid()
      invariant aggregator.openPorts == Aggregate(resources, results[..i])
    {
      assert results[..i + 1][..i] == results[..i];
      aggregator.OnResult(results[i]);
      i := i + 1;
    }
    assert results[..i] == results;
    var rows := aggregator.ReportRows();
    report := Some(Table(Header, rows));
  }

  // ---------------------------------------------------------------------
  // Instance id of a network interface
  // ---------------------------------------------------------------------

  /** The attachment of a network interface; `instanceId` is a pointer in
      the AWS SDK. */
  datatype Attachment = Attachment(instanceId: Option<string>)

  /** A network interface as described by EC2; `attachment` is a pointer. */
  datatype NetworkInterface = NetworkInterface(attachment: Option<Attachment>)

  /** What `DescribeNetworkInterfaces` returned for the resource's id. */
  datatype DescribeOutcome =
    | DescribeFailed(message: string)
    | Described(interfaces: seq<NetworkInterface>)

  /** The three outcomes the callback logs: an accepted instance id (info),
      an unexpected interface count (warning), or the call's error (error). */
  datatype InstanceLookup =
    | InstanceFound(instanceId: string)
    | UnexpectedCount(count: nat)
    | LookupFailed(message: string)

  /** The single interface dereferences its attachment's instance id
      without a nil check. */
  predicate HasInstanceId(ni: NetworkInterface)
  {
    ni.attachment.Some? && ni.attachment.value.instanceId.Some?
  }

  /** Accept an instance id only when the call succeeded and returned
      exactly one interface; any other count is a warning and an error is
      logged, neither giving an id. When exactly one interface comes back
      the Go code dereferences its attachment's instance id, which panics
      if either pointer is nil, so that case requires both. */
  function InstanceIdDecision(outcome: DescribeOutcome): (d: InstanceLookup)
    requires outcome.Described? && |outcome.interfaces| == 1 ==> HasInstanceId(outcome.interfaces[0])
    ensures d.InstanceFound? <==> outcome.Described? && |outcome.interfaces| == 1
    ensures d.InstanceFound? ==> outcome.interfaces[0].attachment.value.instanceId == Some(d.instanceId)
    ensures d.UnexpectedCount? <==> outcome.Described? && |outcome.interfaces| != 1
    ensures d.UnexpectedCount? ==> d.count == |outcome.interfaces|
    ensures d.LookupFailed? <==> outcome.DescribeFailed?
    ensures d.LookupFailed? ==> d.message == outcome.message
  {
    match outcome
    case DescribeFailed(message) => LookupFailed(message)
    case Described(interfaces) =>
      if |interfaces| == 1 then InstanceFound(interfaces[0].attachment.value.instanceId.value)
      else UnexpectedCount(|interfaces|)
  }
}
