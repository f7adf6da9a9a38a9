# apoch: port-scan correlation and log-level choice, in Dafny

apoch asks AWS Config for every VPC network interface that has a public IP
address and scans those addresses for open ports with naabu. For each host
result, the scanner's callback looks up the owning interface and appends the
reported ports to a map from resource id to port list. After the scan it
prints one table row per resource id. The `run` and root commands pick the
zap log level from the `--loglevel` flag.

This project models the logic between the foreign calls:

- `types.dfy` (module `Types`): the `Resource` record of `pkg/types.go`. The
  public IP is the opaque string `net.IP.String()` yields.
- `apoch.dfy` (module `Apoch`): the `pkg/apoch.go` core.
  - The `lo.Filter(...)[0]` lookups by IP and by id.
  - The `lo.Map` list of scan targets.
  - The skip decision.
  - A `PortAggregator` class with a `resources` constant and a mutable
    `openPorts: map<string, seq<int>>` field. Its `OnResult` method mirrors
    the callback's per-port loop.
  - The report rows. They are built by a loop over the map's keys in an
    arbitrary order, and specified as a set.
  - The accept, warn or error decision on the `DescribeNetworkInterfaces`
    outcome.
  - `QueryIPsAndScan` ties these together, from the inventory to the table.
    It takes the host results the scanner delivered as a parameter.
- `cmd.dfy` (module `Cmd`): the level switch of `setupLogger`. It is written
  out twice in the source, identically, in `cmd/run.go` and `cmd/root.go`,
  and modelled once.
- `wrappers.dfy` (module `Wrappers`): an `Option` type.

The callback's meaning is given by pure functions. `Step` is the effect of
one host result on the map, and `Aggregate` is the fold of `Step` over the
results in delivery order. `PortsFor` is an independent reference definition:
the concatenated ports of the results that one id owns. `OnResult` is proved
to compute `Step`. `QueryIPsAndScan` is proved to leave `Aggregate` behind and
to report it. Lemmas relate `Aggregate` to `PortsFor`.

Where this code and a cleaner design of the same system differ, the model
follows the code:

- Ports form a list with duplicates, not a set; a repeated result is appended
  again.
- Enrichment results are only logged, never stored.
- Rows come in map-iteration order, not sorted.
- The lookup is a linear first-match search, not an index with an explicit
  not-found result.
- An unmatched lookup panics.

## Model

| member | source | states |
|---|---|---|
| `Apoch.Filter` | pkg/apoch.go:104 | `lo.Filter` keeps exactly the elements satisfying the predicate: every kept element is from the input and satisfies it, and every satisfying input element is kept |
| `Apoch.FirstIndex` | pkg/apoch.go:104 | when some element matches, the index returned is a match and no earlier element matches |
| `Apoch.FilterStartsAtFirstMatch` | pkg/apoch.go:104 | element 0 of the filtered slice is the first matching element of the input, so `[0]` is the first match |
| `Apoch.ResourceForIP` | pkg/apoch.go:103-104 | the resource for a host result is an element of `resources` with that IP string, and no earlier element has it; a match is required because `[0]` on an empty filter panics |
| `Apoch.ResourceForID` | pkg/apoch.go:172 | the resource for a row is an element of `resources` with that id, and no earlier element has it |
| `Apoch.OwnerHasID` | pkg/apoch.go:104-108 | the key the callback writes is the id of some resource |
| `Apoch.PublicIPs` | pkg/apoch.go:94 | the target list has one entry per resource, and entry i is resource i's IP string |
| `Apoch.TargetsAreOwned` | pkg/apoch.go:94-104 | an address is a scan target exactly when some resource has it, so a result for a target always finds its resource |
| `Apoch.Step` | pkg/apoch.go:106-108 | one result appends its ports, in order and duplicates included, to the owner's old list (empty if absent); the owner becomes a key only if it was one or there is a port; no other key changes or disappears |
| `Apoch.Aggregate` | pkg/apoch.go:98-108 | after any sequence of callbacks starting from the empty map, every key is a resource id and every list is non-empty |
| `Apoch.AggregateCollectsPorts` | pkg/apoch.go:102-108 | after any sequence of callbacks, the list under an id equals the concatenation, in delivery order, of the ports of the results that id owns; the id is a key exactly when that concatenation is non-empty |
| `Apoch.PortsForContains` | pkg/apoch.go:106-108 | every port of every result occurs in the reference concatenation for its owner |
| `Apoch.PortIsRecorded` | pkg/apoch.go:106-108 | no reported port is lost: the owner is a key and its list holds the port |
| `Apoch.RepeatedResultIsAppendedAgain` | pkg/apoch.go:108 | delivering the same result twice appends its ports twice; duplicates are not absorbed |
| `Apoch.PortAggregator.constructor` | pkg/apoch.go:98 | the aggregator starts with the given resources and an empty port map |
| `Apoch.PortAggregator.OnResult` | pkg/apoch.go:102-108 | the per-port loop leaves the map equal to `Step` of the old map and the result, and keeps every key a resource id with a non-empty list |
| `Apoch.PortAggregator.ReportRows` | pkg/apoch.go:171-174 | the rows are one per key of the port map, each holding the IP and account of the first resource with that id, the key's port list and the id, with no id twice and in no promised order |
| `Apoch.ReportHasExpectedRows` | pkg/apoch.go:170-174 | a report's rows, taken as a set, are exactly the expected row for each key, whatever their order |
| `Apoch.QueryIPsAndScan` | pkg/apoch.go:89-176 | no table (the process exits) exactly when there are no resources or scanning is switched off; otherwise the header is "IP Address", "Open Ports", "Resource ID", "Account ID" and the rows report the port map left by running the callback on every result in order |
| `Apoch.InstanceIdDecision` | pkg/apoch.go:125-134 | an instance id is accepted exactly when the describe call succeeded with exactly one interface, and it is that interface's attachment's id; any other count gives a warning carrying the count; an error gives an error with its message; neither of the last two gives an id |
| `Cmd.ToUpper` | cmd/run.go:60 | upper-casing keeps the length and maps each character with the ASCII case mapping |
| `Cmd.ToUpperEqualIff` | cmd/root.go:60 | two strings upper-case to the same string exactly when they are equal up to letter case |
| `Cmd.LoggerLevel` | cmd/run.go:57-67 | "error", "warn" or "debug" in any letter case give ErrorLevel, WarnLevel or DebugLevel, each in both directions; every other value gives InfoLevel; the same switch is at cmd/root.go:57-67 |
| `Cmd.LevelIgnoresCase` | cmd/root.go:57-67 | values equal up to case give the same level |
| `Cmd.LevelExamples` | cmd/run.go:54-67 | the default flag value "info" gives InfoLevel (the same default is at cmd/root.go:53), as do "", "INFO" and "warning"; "ERROR", "Warn" and "dEbUg" give their levels |

## Left out

- Building the Config query, loading the AWS configuration and calling `SelectResourceConfig` (pkg/apoch.go:32-68) are left out. They are foreign library and network calls; their error returns are not modelled.
- Turning the query's JSON rows into `Resource` values (pkg/apoch.go:70-85) is left out. This is JSON parsing by a library: the resources are an input. Because of the misspelt key `resourceTyp`, `Type` is always empty; the model carries `kind` as given.
- `net.ParseIP` is left out. An unparsable address prints as `<nil>`, so several such resources share one IP string; the model treats IPs as opaque strings and keeps the first match, as the code does.
- Setting up and running naabu (pkg/apoch.go:100-164) is left out because it is network scanning. The results it delivers are a parameter of `QueryIPsAndScan`. It is assumed to deliver them one at a time and only for its targets. Whether naabu calls `OnResult` concurrently is not visible in the source, so there is no locking or interleaving in the model.
- `RunEnumeration`'s error is only logged (pkg/apoch.go:161-164); the model reports whatever results were delivered.
- Reverse DNS (`lookupAddr`, pkg/apoch.go:112-117 and 191-198) is left out. It is a network call whose result is only logged.
- The `DescribeNetworkInterfaces` call (pkg/apoch.go:121-124) is left out; its outcome is the input of `InstanceIdDecision`. The model also does not show that the callback makes this call once per reported port, not once per host.
- `InstanceIdDecision` requires the single interface to carry an attachment with an instance id. The Go code dereferences both pointers without a nil check and would panic otherwise, for example on an interface that belongs to a load balancer.
- `ResourceForIP` requires a matching resource, because `lo.Filter(...)[0]` panics on an empty result. The same holds for `ResourceForID` at pkg/apoch.go:172.
- The table's rendering is left out: go-pretty output, the textual form of `net.IP` and of the port list, the separator, and stdout. So are the colour helpers (pkg/apoch.go:201-205), every log call, `prettifyJSON` and `os.Exit`. These are output side effects.
- The concrete row order is left out because Go's map iteration order is random. `ReportRows` picks keys in an arbitrary order, and the row order is specified only as a set.
- `Cmd.ToUpper` models ASCII case mapping only; Go's `strings.ToUpper` is Unicode-aware. Among characters outside ASCII, only `ı` and `ſ` upper-case to ASCII letters (`I`, `S`). Neither `I` nor `S` occurs in "ERROR", "WARN" or "DEBUG", so the chosen level is the same.
- The zap encoder, core and logger construction in `setupLogger` (cmd/run.go:69-79) are left out, as are the cobra commands, their flag wiring, `Execute` and the exit codes.
- `cmd/run.go` and `cmd/root.go` both declare `setupLogger`, `logLevel` and `skipScan` in package `cmd`, so the two files cannot be built together as shown. They are the same function, modelled once.
- `main.go` is an older standalone version and is not part of this model. Its callback only logs.
