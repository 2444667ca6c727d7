# uCentral switch client: verified models

The uCentral client turns a declarative configuration into device calls on a
switch. It parses the configuration into a target, compares the target with a
cached or read view of the device, and issues the calls that should land the
device on the target. Around that core sit a configure transaction, a few small
concurrent protocols, and several codecs and parsers.

This project models those parts in Dafny and proves what they keep, for every
input and every run. Where the code updates things in place, the model is a
class or a method with loops; each such method is tied to a specification
function, and the properties are lemmas about that function.

## Layout

| files | subject |
|---|---|
| `RouteTables`, `RouteParse`, `RouteApply`, `RoutePlatform` | static routes: table, two-pass parse, merge walk, whole runs |
| `Vlans`, `VlanApply` | VLAN lists and the batched member update |
| `Stp`, `Poe` | spanning tree and PoE applies over a cache |
| `Configure` | the configure transaction with uuids, save, restore and polls |
| `TxQueue`, `TxProtocol` | the transmit queue as a linked list, and its interleavings |
| `Periodic`, `ScriptLock` | poll threads with stop and join; the script lock |
| `JsonBuilder`, `JsonStream`, `JsonParser` | the event-driven JSON tree builder and the feed loop |
| `Base64`, `Tokens`, `EditDistance`, `Rtty` | base64, script tokeniser, edit distance, terminal sessions |
| `Bitmaps`, `Ethernet` | bitmaps and the ethernet section of a configuration |
| `Options` | the optional value |

## How the world is modelled

- The device is a value: a map from prefix to route leaves, a map from VLAN and
  port to tagging, one record per VLAN or port. A gNMI update writes the leaves
  it carries and keeps the others.
- Calls into the device may fail. The calls that fail are a parameter (a set of
  call numbers, or of calls), so each theorem holds for every pattern of failures.
  A call that fails changes nothing.
- `gnmi_setrq_execute` returns 0 whatever the server answers
  (`src/ucentral-client/platform/brcm-sonic/gnma/gnmi/gnmi_c_connector.cpp:287-308`);
  that the VLAN batch was accepted is therefore a parameter.
- Threads are atomic steps over a shared state; a run is any sequence of steps.
- Times, sockets, files and forked processes appear only as their outcomes.

## Where the code does less than one would expect

Each item names a lemma with an input that shows it, then the theorem with the
condition under which the expected property holds; every condition is an if and
only if.

- A refused route removal is ignored; the following create then merges leaves:
  `RouteApply.RefusedRemovalMixes`. `RouteApply.ApplyLandsIff` says, from the
  tables and the prefixes the device will not remove, when the result is right.
- A prefix listed twice and then once is deleted while configured:
  `RoutePlatform.RepeatedPrefixIsLost`. `RouteApply.ApplyKeepsPrefix`: a
  configured prefix stays exactly when the cached table does not list it more
  often than the configured one.
- After a restore only blackhole routes are read back:
  `RoutePlatform.RestoreForgets`, with `RoutePlatform.RestoreSyncs`.
- Programming the spanning tree mode again wipes the VLAN entries while the cache
  keeps them: `Stp.RestoreLosesVlan`. A VLAN that is listed but disabled is read
  back as enabled, and a request for it without delays is then skipped:
  `Stp.NoDelaysIsSkipped`. An enabled VLAN that a failing read-back misses is never
  turned off: `Stp.MissedVlanStaysOn`. `Stp.ApplyLands` is the condition for one
  apply, for every cache and device; `Stp.ReadTracks` and `Stp.TrackedIsNeeded` are
  the one on what is read back, `Stp.RereadAgrees` the one for the cache itself.
- A refused ports call whose restore fails too leaves the device in rpvst although
  a later request for no spanning tree succeeds: `Stp.StuckInRpvst`, with
  `Stp.ModeKnown` and `Stp.OffLands`.
- A request answered APPLIED whose save failed can be undone later while its
  uuid stays active: `Configure.UnsavedIsUndone`, with `Configure.StepKeepsNames`.
- A reconnect can separate the telemetry poll from the metrics:
  `Configure.ReconnectDrifts`, with `Configure.TelemetryAcross`.
- A class-based PoE limit is cached as zero but stays on the device:
  `Poe.LimitStays`, with `Poe.LimitLingers`. Nothing reads the limit then.
- A script call that enters while another is still inside breaks the script lock:
  `ScriptLock.OverlapIsReached`, with `ScriptLock.NextKeepsInv` (exactly the other
  steps keep the invariant) and `ScriptLock.OverlapBreaks` (every such entry can
  end in two active runners). The interface allows it. The program does not do
  it: `plat_run_script` is reached only from the handler of script requests
  (`src/ucentral-client/proto.c:2924`), on the one websocket service thread
  (`src/ucentral-client/ucentral-client.c:446-450`).
- A script line of more than 32 arguments spills into the next command:
  `Tokens.LongLineSpills`, with `Tokens.SurvivesIffPrintable`.
- A JSON string is cut at a NUL: `JsonStream.NulCuts`, with
  `JsonStream.VerbatimIffNulFree`.
- Port names are reduced to 16 bits, and id 255 is the wildcard, so the numbers
  255 and 65791 both select every port: `Ethernet.TwoNumbersAreWild`, with
  `Ethernet.SelectPorts` on the reduced ids.

## Model

| member | source | states |
|---|---|---|
| RouteTables.KeyCmp | src/ucentral-client/router-utils.c:55-72 | the key comparison is zero exactly on equal prefixes |
| RouteTables.KeyCmpOrders | src/ucentral-client/router-utils.c:55-72 | it is a strict total order, shorter prefixes first, then lower addresses, read the same from either side |
| RouteTables.InfoCmp | src/ucentral-client/router-utils.c:74-113 | the destination comparison is zero exactly on equal destinations |
| RouteTables.SortOrders | src/ucentral-client/router-utils.c:122-126 | sorting orders the table and keeps every node with its multiplicity |
| RouteTables.SortKeepsMap | src/ucentral-client/router-utils.c:122-126 | with distinct prefixes the sorted table is strictly ascending and stands for the same map |
| RouteTables.RouteTable.Alloc | src/ucentral-client/router-utils.c:18-28 | an empty, sorted table with room for max nodes |
| RouteTables.RouteTable.Copy | src/ucentral-client/router-utils.c:38-51 | a copy in a new array, with the same nodes, room and sorted flag |
| RouteTables.RouteTable.SortInPlace | src/ucentral-client/router-utils.c:122-126 | the used part of the array becomes its sort and the flag is set |
| RouteTables.RouteTable.Append | src/ucentral-client/router-utils.c:128-138 | the node goes last unless the table is full, which refuses it and changes nothing; the flag is cleared on success |
| RouteParse.CfgProcessPrefixes | src/ucentral-client/proto.c:1871-1953 | without a table it counts the routes and cannot fail; with one it fails exactly on an unreadable route, else adds the routes in document order as far as there is room |
| RouteParse.CfgRouterParse | src/ucentral-client/proto.c:1956-1973 | success exactly when every route is readable; then no append was refused, len equals max, and the table lists the document's routes in order |
| RouteParse.GlobalRowsPlace | src/ucentral-client/proto.c:1882-1906 | the table starts with the blackholes, then the unreachables, each in document order |
| RouteParse.RowsPlace | src/ucentral-client/proto.c:1908-1952 | then per interface the gateways and broadcasts, at the position given by what precedes them; an interface without a usable VLAN takes no room |
| RouteParse.VlanIdMeans | src/ucentral-client/proto.c:1194-1211 | a whole VLAN id from 1 to 4095 is taken as it is; interfaces with id 0 or 4096 and more contribute nothing |
| RouteParse.GlobalNodes | src/ucentral-client/proto.c:1882-1906 | entry by entry, the table holds each blackhole and unreachable prefix with that destination |
| RouteParse.IfaceNodes | src/ucentral-client/proto.c:1908-1952 | entry by entry, each gateway with its prefix, VLAN and next hop, each broadcast with its prefix and VLAN |
| RouteParse.ParsesMeans | src/ucentral-client/proto.c:1847-1952 | which documents parse, in terms of their entries: every route a prefix, gateways also a next hop, where the interface counts |
| RouteApply.PlanFinds | src/ucentral-client/include/router-utils.h:78-95 | the merge of two ascending tables gives every prefix its destination in each table's map |
| RouteApply.PlanNoRepeats | src/ucentral-client/include/router-utils.h:78-95 | the merge of two ascending tables lists no prefix twice |
| RouteApply.ExecuteSettles | src/ucentral-client/platform/brcm-sonic/plat-gnma.c:4303-4341 | a successful walk settles every prefix: its new leaves, the merge with the old ones if its removal was refused, or absence |
| RouteApply.ExecuteDisciplined | src/ucentral-client/platform/brcm-sonic/plat-gnma.c:4303-4341 | successful or not, calls touch only prefixes whose destination changes, removes hit present prefixes, creates hit absent ones unless that very removal was refused |
| RouteApply.ApplyDisciplined | src/ucentral-client/platform/brcm-sonic/plat-gnma.c:4285-4347 | the same for an apply of tables with distinct prefixes on a device that matches the cache |
| RouteApply.ExecuteSucceeds | src/ucentral-client/platform/brcm-sonic/plat-gnma.c:4303-4341 | with no create refused, success exactly when every changed destination converts to a device route |
| RouteApply.ApplyLands | src/ucentral-client/platform/brcm-sonic/plat-gnma.c:4285-4347 | from a device equal to the cache, a successful apply lands on the configured table if and only if every refused removal is overwritten leaf by leaf |
| RouteApply.ApplyLandsIff | src/ucentral-client/platform/brcm-sonic/plat-gnma.c:4303-4341 | the same condition in terms of the tables and the prefixes the device will not remove |
| RouteApply.ApplyHolds | src/ucentral-client/platform/brcm-sonic/gnma/gnma_common.c:3956-3970 | after a successful apply with no refused removal the device holds exactly the configured prefixes, each leaf by leaf: blackhole only, interface of the VLAN, interface and gateway |
| RouteApply.LeafMapHolds | src/ucentral-client/platform/brcm-sonic/plat-gnma.c:705-726 | the leaves of each kind of destination, which the landing and run theorems speak of |
| RouteApply.CuredMeans | src/ucentral-client/platform/brcm-sonic/gnma/gnma_common.c:3902-3980 | which refused removals do no harm: none into or out of a blackhole and none that drops a gateway |
| RouteApply.SupportedMeans | src/ucentral-client/platform/brcm-sonic/plat-gnma.c:705-726 | unreachable and broadcast destinations, and only these, do not convert |
| RouteApply.RefusedRemovalMixes | src/ucentral-client/platform/brcm-sonic/plat-gnma.c:4303-4341 | a refused removal leaves a blackhole leaf under a connected route with success reported |
| RouteApply.SurvivesMerge | src/ucentral-client/include/router-utils.h:81-95 | in the merge of any two sorted tables a prefix survives exactly when the new one lists it at least as often as the old one |
| RouteApply.ApplyKeepsPrefix | src/ucentral-client/platform/brcm-sonic/plat-gnma.c:4285-4347 | repeated prefixes or not, and however the sort orders equal ones, a successful apply with no refused removal leaves a prefix on the device exactly when the new table lists it, and at least as often as the cached one |
| RouteApply.ApplyMoves | src/ucentral-client/platform/brcm-sonic/plat-gnma.c:4303-4341 | an apply, failing or not, leaves the device as it was exactly when no accepted call changed a prefix |
| RoutePlatform.Platform.ConvertAndCreate | src/ucentral-client/platform/brcm-sonic/gnma/gnma_common.c:3902-3980 | convert and create: an unsupported destination makes no call, a refused create changes nothing, an accepted one merges its leaves |
| RoutePlatform.Platform.CallRemove | src/ucentral-client/platform/brcm-sonic/gnma/gnma_common.c:3982-4015 | an accepted remove takes the prefix away, a refused one leaves it |
| RoutePlatform.Platform.MergeLoop | src/ucentral-client/include/router-utils.h:78-95 | the two-index loop ends and does exactly the walk over both tables, calls and failures included |
| RoutePlatform.Platform.ConfigRouterApply | src/ucentral-client/platform/brcm-sonic/plat-gnma.c:4285-4347 | device and calls are those of the walk over the sorted tables; the cache becomes the new table on success and keeps its nodes on failure |
| RoutePlatform.RestoreSyncs | src/ucentral-client/platform/brcm-sonic/gnma/gnma_common.c:4016-4085 | after a restore device and startup are the saved table; the cache agrees if and only if that table is all blackholes |
| RoutePlatform.RestoreForgets | src/ucentral-client/platform/brcm-sonic/gnma/gnma_common.c:4061-4064 | a saved connected route is on the device but not in the cache after a restore |
| RoutePlatform.StepSyncs | src/ucentral-client/proto.c:2297-2309 | the exact condition under which one request keeps device and cache together and startup at the saved table, whichever of walk, other parts of the apply, save and restore fail |
| RoutePlatform.RunSyncs | src/ucentral-client/proto.c:2271-2345 | along every run of such requests device and cache hold the table last applied or restored, and startup the one last saved |
| RoutePlatform.RepeatedPrefixIsLost | src/ucentral-client/include/router-utils.h:81-95 | two accepted requests from an empty device, listing a prefix twice and then once, end without it |
| Vlans.BatchIsConsistent | src/ucentral-client/platform/brcm-sonic/plat-gnma.c:2245-2309 | no member is both deleted and set, and none is set with both taggings |
| Vlans.BatchLands | src/ucentral-client/platform/brcm-sonic/plat-gnma.c:2245-2309 | after the batch every configured VLAN has exactly the wanted members and taggings below port 100, all else is as before |
| Vlans.BatchEntries | src/ucentral-client/platform/brcm-sonic/plat-gnma.c:2263-2304 | in terms of the entries alone, below port 100: a member is tagged if some entry for its port tags it, untagged if it is listed without, absent if unlisted |
| Vlans.BatchAddsVlans | src/ucentral-client/platform/brcm-sonic/plat-gnma.c:2245-2309 | the batch adds exactly the configured VLANs |
| Vlans.SecondBatchIsIdle | src/ucentral-client/platform/brcm-sonic/plat-gnma.c:2245-2309 | a second batch for the same configuration deletes and sets no member |
| Vlans.OrderIsFree | src/ucentral-client/platform/brcm-sonic/plat-gnma.c:3838-3893 | any order of the batch's operations has the same effect |
| VlanApply.WantedPorts | src/ucentral-client/platform/brcm-sonic/plat-gnma.c:2245-2309 | the wanted bitmaps are the listed ports and those tagged by any entry; a bad name fails |
| VlanApply.Switch.VlanListSet | src/ucentral-client/platform/brcm-sonic/plat-gnma.c:2200-2243 | on success the configured VLANs, VLAN 1 and those beyond the bitmap remain; a failure removes none of these |
| VlanApply.Switch.MemberlistSet | src/ucentral-client/platform/brcm-sonic/plat-gnma.c:2245-2309 | the deletes and updates are exactly the difference between members and list |
| VlanApply.Switch.ConfigVlanApply | src/ucentral-client/platform/brcm-sonic/plat-gnma.c:3838-3893 | once the batch is accepted the VLANs are the configured ones plus an existing VLAN 1, and each member is tagged, untagged or absent as the entries for its port say; otherwise no member moves |
| Stp.VlansSettle | src/ucentral-client/platform/brcm-sonic/plat-gnma.c:3971-4008 | the VLAN loop succeeds exactly when no VLAN it must enable is refused, and then the cache means what was asked |
| Stp.ApplyCaches | src/ucentral-client/platform/brcm-sonic/plat-gnma.c:3929-4017 | after a successful rpvst apply cached enablement equals the configuration for every VLAN, all attributes where enabled; after one without spanning tree nothing is enabled, unless the cache was off already with something enabled |
| Stp.ApplyConfigures | src/ucentral-client/platform/brcm-sonic/gnma/gnma_common.h:220-224 | the cache after a successful rpvst apply, field by field for VLANs 1 to 4095 |
| Stp.ApplyCalls | src/ucentral-client/platform/brcm-sonic/plat-gnma.c:3951-4008 | the exact calls of a successful rpvst apply: delete, mode and ports unless the cache shows rpvst with zero values, then one call in order for each VLAN in which some field differs |
| Stp.OtherModes | src/ucentral-client/platform/brcm-sonic/plat-gnma.c:3935-4013 | an unsupported mode is an error that touches nothing; no spanning tree is one call, or none when off already |
| Stp.ApplySucceeds | src/ucentral-client/platform/brcm-sonic/plat-gnma.c:3948-4010 | which refusals an rpvst apply reports |
| Stp.RepeatIsIdle | src/ucentral-client/platform/brcm-sonic/plat-gnma.c:3929-4017 | repeating a successful apply makes no call and changes nothing |
| Stp.ApplyLands | src/ucentral-client/platform/brcm-sonic/plat-gnma.c:3929-4017 | from any cache and device, when a successful rpvst apply leaves the device as configured, if and only if, VLAN by VLAN, in terms of cache and device before and the silent refusals |
| Stp.RemodeLosesVlan | src/ucentral-client/platform/brcm-sonic/gnma/gnma_common.c:4182-4248 | a VLAN already right in the cache loses its device entry when the mode is programmed again, with no call refused |
| Stp.RestoreLosesVlan | src/ucentral-client/platform/brcm-sonic/gnma/gnma_common.c:4575-4611 | this happens after a read-back from a device in rpvst that reports values for its global entry, to a VLAN configured as it was read |
| Stp.OffLands | src/ucentral-client/platform/brcm-sonic/plat-gnma.c:3935-3947 | turning spanning tree off never reports failure, and exactly when it took effect |
| Stp.RereadAgrees | src/ucentral-client/platform/brcm-sonic/gnma/gnma_common.c:4575-4611 | a cache read back is right about the VLANs if and only if every listed one is enabled with no delays |
| Stp.ReadTracks | src/ucentral-client/platform/brcm-sonic/plat-gnma.c:989-1042 | exactly which read-backs, whole, failing at the mode or missing some VLANs, leave a cache that can be relied on |
| Stp.TrackedIsNeeded | src/ucentral-client/platform/brcm-sonic/plat-gnma.c:3929-4017 | a cache that cannot be relied on has a request, refused nothing, that succeeds and leaves the device otherwise |
| Stp.MissedVlanStaysOn | src/ucentral-client/platform/brcm-sonic/plat-gnma.c:1037-1042 | an enabled VLAN that the read-back missed stays on after a successful request to turn every VLAN off |
| Stp.NoDelaysIsSkipped | src/ucentral-client/platform/brcm-sonic/gnma/gnma_common.c:4575-4611 | a listed but disabled VLAN, read back as enabled, is not sent when configured with no delays and the same priority |
| Stp.ModeKnown | src/ucentral-client/proto.c:2297-2301 | exactly when a request leaves the cached mode equal to the device's, over success, restore, refused restore and every way the read-back can fail |
| Stp.StuckInRpvst | src/ucentral-client/platform/brcm-sonic/plat-gnma.c:3951-3969 | a refused ports call whose restore fails, then a request for no spanning tree, leave the device in rpvst with success reported |
| Stp.ApplyTracks | src/ucentral-client/platform/brcm-sonic/plat-gnma.c:3929-4017 | one apply without silent refusals keeps track of the device at every exit; a successful rpvst one leaves it as configured; cache and device agree after a success except exactly for a request for no spanning tree to a client that takes a device with VLANs enabled to be off |
| Stp.RunSyncs | src/ucentral-client/proto.c:2271-2345 | along every run from whatever device the client starts on, with failures here and elsewhere, failing saves, refused restores and read-backs that fail but suffice, each successful rpvst request leaves the device as configured; cache and device agree after each success but for the one exception of ApplyTracks |
| Stp.RunConfigures | src/ucentral-client/proto.c:2271-2345 | the same of the device's entries, field by field, for every VLAN |
| Stp.SavedComesBack | src/ucentral-client/proto.c:2297-2309 | a restore brings back the device as the last saved request left it |
| Stp.StpState.ConfigStpApply | src/ucentral-client/platform/brcm-sonic/plat-gnma.c:3929-4017 | the in-place apply computes the new cache, device and call log of the specification |
| Stp.StpState.StateInit | src/ucentral-client/platform/brcm-sonic/plat-gnma.c:1031-1042 | reading back, as far as it gets, sets the mode, its attributes and the listed VLANs as the specification says |
| Poe.ApplyAgrees | src/ucentral-client/platform/brcm-sonic/plat-gnma.c:4186-4281 | cache and device agree at every exit, whatever setter is refused |
| Poe.ApplyReaches | src/ucentral-client/platform/brcm-sonic/plat-gnma.c:4186-4281 | success exactly when no needed call is refused; then the cache is the target, the device obeys the configuration, and settings left open have not moved |
| Poe.NamesMean | src/ucentral-client/platform/brcm-sonic/plat-gnma.c:4036-4071 | each name selects its own detection mode or priority, any other name the default |
| Poe.RepeatOnlyResets | src/ucentral-client/platform/brcm-sonic/plat-gnma.c:4186-4281 | repeating a successful apply sends nothing but a requested reset |
| Poe.LimitLingers | src/ucentral-client/platform/brcm-sonic/plat-gnma.c:4238-4257 | cache and device stay equal leaf for leaf if and only if a limit is configured or the device had none |
| Poe.LimitStays | src/ucentral-client/platform/brcm-sonic/plat-gnma.c:4238-4257 | a port that goes back to class-based keeps its old limit on the device |
| Poe.Port.ConfigPoePortApply | src/ucentral-client/platform/brcm-sonic/plat-gnma.c:4186-4281 | the in-place apply computes the cache, device and call log of the specification |
| Configure.StepKeepsNames | src/ucentral-client/proto.c:2271-2345 | the exact condition under which one event keeps running and startup configurations the one named by the active uuid |
| Configure.RunKeepsNames | src/ucentral-client/platform/brcm-sonic/plat-gnma.c:2369-2392 | over every run in which saves and restores succeed, whatever else fails, that naming holds |
| Configure.UnsavedIsUndone | src/ucentral-client/proto.c:2271-2345 | an applied but unsaved configuration is undone by a later rejected request while its uuid stays active |
| Configure.StepReplies | src/ucentral-client/proto.c:2271-2345 | each configure request is answered once; a rejection changes neither active uuid, metrics nor polls; an APPLIED carries the uuid now active |
| Configure.AppliedUses | src/ucentral-client/proto.c:2303-2333 | an applied request puts the configuration's own metrics in force, each poll at its own interval exactly if its section enables it, and saves state and health with telemetry off |
| Configure.ConnectUses | src/ucentral-client/proto.c:566-578 | a readable reconnect restores exactly the saved state and health sections; the active uuid becomes the saved id, or 1 |
| Configure.TelemetryUses | src/ucentral-client/proto.c:2750-2763 | a valid telemetry request sets the telemetry poll and nothing else |
| Configure.RejectionReplies | src/ucentral-client/proto.c:2271-2301 | what each kind of rejection answers and changes |
| Configure.PollsFollowLastApplied | src/ucentral-client/proto.c:2319-2333 | until the next applied request the state and health polls stay those of the last one whose metrics were saved, whatever is rejected, reconnected or asked of telemetry |
| Configure.ActiveIsLastApplied | src/ucentral-client/proto.c:2271-2345 | without a reconnect the active uuid is that of the last APPLIED reply |
| Configure.RunKeepsPolls | src/ucentral-client/proto.c:2319-2333 | in every reachable state the state and health polls follow the metrics; the telemetry poll does on runs without a reconnect |
| Configure.TelemetryAcross | src/ucentral-client/proto.c:566-578 | exactly when a reconnect keeps the telemetry poll in step; a successful configure turns it off |
| Configure.ReconnectDrifts | src/ucentral-client/proto.c:566-578 | a reconnect while telemetry streams leaves the poll running with the metrics saying off |
| Configure.Client.Handle | src/ucentral-client/proto.c:2271-2345 | the handler's new state is that of the transition |
| Configure.Client.HandleConnect | src/ucentral-client/proto.c:566-578 | the same for connect, with the metrics file readable or not |
| Configure.Client.HandleTelemetry | src/ucentral-client/proto.c:2728-2766 | the same for telemetry requests, where an interval below one enables the poll and is stored as zero |
| TxQueue.Queue.Enqueue | src/ucentral-client/ucentral-client.c:106-118 | the message goes last and the head, tail and links stay well formed |
| TxQueue.Queue.Pull | src/ucentral-client/ucentral-client.c:120-131 | the whole list is handed out in order and the queue is empty |
| TxQueue.Queue.SetConnect | src/ucentral-client/ucentral-client.c:159-176 | the connect message replaces an earlier one; the queue is untouched |
| TxQueue.Queue.ConnectPull | src/ucentral-client/ucentral-client.c:133-141 | the connect message is handed out once |
| TxQueue.Queue.Drain | src/ucentral-client/ucentral-client.c:472-498 | each message once, connect first, then enqueue order, written or dropped with the reason |
| TxProtocol.EveryInterleaving | src/ucentral-client/ucentral-client.c:90-176 | in every interleaving sent, in flight and queued messages make up the enqueued ones in order; a connect message goes first in its drain, at most one per drain; every offered one is sent, replaced or pending |
| TxProtocol.DrainSends | src/ucentral-client/ucentral-client.c:472-498 | once a drain that takes the queue has finished, everything enqueued before it began has left in order |
| TxProtocol.ConnectSent | src/ucentral-client/ucentral-client.c:472-498 | a connect message that waits when the drain asks for it has left when the drain is finished |
| TxProtocol.DrainFinishes | src/ucentral-client/ucentral-client.c:472-498 | a drain that sends is never stuck: each send takes one message and then it can finish |
| TxProtocol.RunKeepsInv | src/ucentral-client/ucentral-client.c:472-498 | the same as an invariant from any state that has it |
| Periodic.EveryInterleaving | src/ucentral-client/platform/brcm-sonic/plat-gnma.c:1173-1284 | at most one callback starts after stop, none after destroy returns, and the context is rewritten only when no thread is alive |
| Periodic.PollsRepeat | src/ucentral-client/platform/brcm-sonic/plat-gnma.c:1173-1223 | a thread that is not stopped polls again after every callback that returns zero, any number of times |
| Periodic.ThreadEnds | src/ucentral-client/platform/brcm-sonic/plat-gnma.c:1197-1218 | exactly when the thread ends: at a stop, at a wake-up that is no timeout, when the callback says so |
| Periodic.JoinIsReached | src/ucentral-client/platform/brcm-sonic/plat-gnma.c:1271-1284 | destroying is never stuck: wherever the thread is, it can end and be joined |
| Periodic.RequestStarts | src/ucentral-client/platform/brcm-sonic/plat-gnma.c:1225-1269 | a request for a new context ends with a new waiting thread that reads it |
| Periodic.RunKeepsInv | src/ucentral-client/platform/brcm-sonic/plat-gnma.c:1319-1333 | the inductive invariant behind it, over stop, join, rewrite and create |
| ScriptLock.OneAtATime | src/ucentral-client/platform/brcm-sonic/plat-gnma.c:5019-5088 | when no call enters beside another: at most one runner is active, the context is overwritten only after earlier runners exited, the lock is held exactly while a runner or the call inside holds it, so with both gone acquires equal releases on every path |
| ScriptLock.GivingUpReleases | src/ucentral-client/platform/brcm-sonic/plat-gnma.c:5080-5088 | a call that gives up leaves and frees the lock it took |
| ScriptLock.CallRuns | src/ucentral-client/platform/brcm-sonic/plat-gnma.c:5019-5088 | a free lock can be taken, and a call that runs its script to the end frees it again |
| ScriptLock.RunKeepsInv | src/ucentral-client/platform/brcm-sonic/plat-gnma.c:4970-4985 | the invariant behind it, over acquire, fill, spawn, run, release and join |
| ScriptLock.NextKeepsInv | src/ucentral-client/platform/brcm-sonic/plat-gnma.c:322-342 | exactly the steps that let no call in beside another keep that invariant |
| ScriptLock.OverlapBreaks | src/ucentral-client/platform/brcm-sonic/plat-gnma.c:5019-5088 | whenever a call enters beside another, some continuation has two active runners and an overwritten live context |
| ScriptLock.OverlapIsReached | src/ucentral-client/platform/brcm-sonic/plat-gnma.c:5019-5088 | a call whose runner is done before it has looked at the context lets such an entry happen |
| JsonBuilder.StepSane | src/ucentral-client/ucentral-json-parser.c:14-163 | every event, in any order, leaves a well-formed stack and tree |
| JsonBuilder.StepStray | src/ucentral-client/ucentral-json-parser.c:76-99 | exactly string text that comes without a string start is written before the buffer |
| JsonBuilder.StepRefuses | src/ucentral-client/ucentral-json-parser.c:14-163 | exactly which events are refused, that a refusal leaves nothing behind, and what counts as an error or a delivery |
| JsonStream.RunDoc | src/ucentral-client/ucentral-json-parser.c:14-163 | a document that fits the stack becomes one tree equal to its value, with nothing else changed, however its strings are cut |
| JsonStream.RunDeep | src/ucentral-client/ucentral-json-parser.c:14-163 | the events of a document that nests too deeply are refused part way and leave nothing behind, before the lexer reports the failure |
| JsonStream.DeliversDocument | src/ucentral-client/ucentral-json-parser.c:14-163 | from a clean state a document is delivered, as exactly its value, if and only if its nesting fits; otherwise exactly one error is reported; the state is clean again either way |
| JsonStream.DeliversStream | src/ucentral-client/ucentral-json-parser.c:14-163 | a stream delivers the values of the documents that fit, in order, and reports one error for each other |
| JsonStream.VerbatimIffNulFree | src/ucentral-client/ucentral-json-parser.c:14-163 | the value is the document to the letter if and only if it has no NUL |
| JsonStream.NulCuts | src/ucentral-client/ucentral-json-parser.c:76-99 | a string with a NUL in the middle arrives cut |
| JsonParser.Parser.Callback | src/ucentral-client/ucentral-json-parser.c:14-163 | the in-place callback does one step of the builder |
| JsonParser.Parser.Feed | src/ucentral-client/ucentral-json-parser.c:184-210 | bytes are offered in order, once or twice; twice exactly after an error that interrupts a parse; any answer but continue leaves a clean builder; the builder goes through exactly the states those offers lead to |
| JsonParser.FeedDelivers | src/ucentral-client/ucentral-json-parser.c:184-210 | from a clean builder on, offers that the lexer reports as documents within the bound deliver exactly their values in order, with no error, no stray text and a clean builder |
| JsonParser.FeedResyncs | src/ucentral-client/ucentral-json-parser.c:184-210 | whatever came before, once the lexer has ended a parse, well or badly, documents reported from the next offer on are delivered exactly |
| JsonParser.ErrorsCounted | src/ucentral-client/ucentral-json-parser.c:38-43 | each offer on which the lexer gives up counts one error, and no other does |
| Base64.DigitsSpellGroup | src/ucentral-client/base64.c:67-115 | four digits spell the same 24 bits as three bytes |
| Base64.Base64Encode | src/ucentral-client/base64.c:67-115 | the loop writes the encoding, of length 4*ceil(n/3), and a NUL, inside the allocated size |
| Base64.Base64Decode | src/ucentral-client/base64.c:117-159 | on every input, malformed ones included, the decoder stays inside the allocated size and computes the decoding |
| Base64.RoundTrip | src/ucentral-client/include/base64.h:6-7 | decoding an encoding gives back every byte string |
| Base64.TableOfRfc | src/ucentral-client/base64.c:8-14 | the 64 characters of the encoding, one by one, as in table 1 of RFC 4648 |
| Base64.DeKnowsAlphabet | src/ucentral-client/base64.c:16-65 | the decoding table knows exactly these characters |
| Base64.DecodeLength | src/ucentral-client/base64.c:117-159 | how many bytes every input decodes to, and which inputs decode to none |
| Tokens.TokenAdvances | src/ucentral-client/platform/brcm-sonic/plat-gnma.c:4760-4818 | the cursor strictly advances on non-empty input |
| Tokens.SimpleWordexp | src/ucentral-client/platform/brcm-sonic/plat-gnma.c:4760-4818 | the bounded output is exactly the prefix of the unbounded token that fits; length, cursor and delimiter are the token's |
| Tokens.CutScript | src/ucentral-client/platform/brcm-sonic/plat-gnma.c:4847-4864 | the script loop ends and yields the commands of the specification |
| Tokens.ScriptRoundTrip | src/ucentral-client/platform/brcm-sonic/plat-gnma.c:4760-4818 | a script printed with every character escaped and tokens joined by blanks is cut back into the same commands |
| Tokens.QuotedToken | src/ucentral-client/platform/brcm-sonic/plat-gnma.c:4786-4796 | a text between quotes, blanks and the other quote included and its own quote escaped, is one token up to the blank that follows |
| Tokens.PlainQuotedToken | src/ucentral-client/platform/brcm-sonic/plat-gnma.c:4786-4796 | the same for a text without the quote, written as it is |
| Tokens.EscapeInQuotes | src/ucentral-client/platform/brcm-sonic/plat-gnma.c:4774-4785 | between quotes an escaped quote of the same kind loses its backslash, any other escaped character keeps it |
| Tokens.PlainToken | src/ucentral-client/platform/brcm-sonic/plat-gnma.c:4797-4810 | outside quotes plain characters stand for themselves |
| Tokens.Blanks | src/ucentral-client/platform/brcm-sonic/plat-gnma.c:4768-4771 | the six characters that separate tokens |
| Tokens.LongLineSpills | src/ucentral-client/platform/brcm-sonic/plat-gnma.c:4847-4864 | a line of more than 32 arguments is dropped and its rest read as a new line |
| Tokens.SurvivesIffPrintable | src/ucentral-client/platform/brcm-sonic/plat-gnma.c:4847-4864 | scripts of non-empty tokens survive printing and cutting if and only if every line has 1 to 31 arguments that fit their buffers |
| Tokens.CommandsFit | src/ucentral-client/platform/brcm-sonic/plat-gnma.c:4847-4864 | whatever the script, every command fits the argument vector and token buffers |
| EditDistance.LevenshteinDistance | tests/schema/validate-schema.py:61-83 | the two-row loop returns the least cost of any insert, delete and substitute script between the strings |
| EditDistance.Symmetric | tests/schema/validate-schema.py:61-67 | the distance is symmetric, which the argument swap relies on |
| EditDistance.ZeroOnlyOnEqual | tests/schema/validate-schema.py:61-83 | it is zero exactly on equal strings |
| EditDistance.Triangle | tests/schema/validate-schema.py:61-83 | it obeys the triangle inequality |
| EditDistance.Cell | tests/schema/validate-schema.py:71-81 | a cell computed from its three neighbours is the distance of the longer prefixes |
| Rtty.Table.Reap | src/ucentral-client/platform/brcm-sonic/plat-gnma.c:2411-2483 | the reap loop ends, exited children leave and the others keep their order, with no hole |
| Rtty.Table.Start | src/ucentral-client/platform/brcm-sonic/plat-gnma.c:2411-2483 | one call reaps, evicts the oldest only when ten are live, and appends the new session unless the fork failed |
| Rtty.EveryRun | src/ucentral-client/platform/brcm-sonic/plat-gnma.c:2411-2483 | after any number of calls at most ten sessions, oldest first, each started by a call and not seen to exit by any later one |
| Rtty.Retained | src/ucentral-client/platform/brcm-sonic/plat-gnma.c:2411-2483 | a session that no later call has seen exit is still in the table unless nine others were started between it and the last call |
| Rtty.FailedForkEvicts | src/ucentral-client/platform/brcm-sonic/plat-gnma.c:2411-2483 | a fork that fails at a full table has evicted a live session and adds none |
| Bitmaps.Bitmap.SetBit | src/ucentral-client/include/bitmap.h:12-12 | exactly the given bit is added |
| Bitmaps.Bitmap.FindNext | src/ucentral-client/include/bitmap.h:29-37 | the first set bit from the given one, or the length |
| Bitmaps.Bitmap.ForEach | src/ucentral-client/include/bitmap.h:39-41 | for-each visits exactly the set bits below the length, once each, in increasing order |
| Ethernet.SelectPorts | src/ucentral-client/proto.c:778-853 | selection fails exactly when a name before the first wildcard is no platform port; else the bitmap holds the named ports, or all of them with a wildcard |
| Ethernet.TwoNumbersAreWild | src/ucentral-client/proto.c:165-182 | the numbers 255 and 65791 select every port |
| Ethernet.PlatCfg.InitPorts | src/ucentral-client/proto.c:2142-2155 | every platform port gets id and name and is to be configured, the others stay empty |
| Ethernet.PlatCfg.CfgEthernetParse | src/ucentral-client/proto.c:1114-1192 | success exactly when every entry is well formed; each platform port's record is then the last entry selecting it, or id and name only; the to-configure set is the platform's ports |
| Ethernet.PlatCfg.CfgParsePorts | src/ucentral-client/proto.c:2142-2167 | both steps on a new configuration: without the platform's port list or with a malformed entry it fails, and only then; the records and the to-configure set are as above |
| Ethernet.RecordMeans | src/ucentral-client/proto.c:1130-1189 | the record an entry makes of a port, field by field |
| Ethernet.EntryFails | src/ucentral-client/proto.c:1132-1177 | the ways an entry is malformed |
| Ethernet.NamesMean | src/ucentral-client/proto.c:165-182 | what each kind of port name is taken for |
| Ethernet.RecordIsUnique | src/ucentral-client/proto.c:1114-1192 | the entries determine each port's record |

## Left out

- curl, OpenSSL, EST enrolment, libwebsockets, the gRPC connector and netlink: foreign calls, present only as outcomes.
- Allocation failures: every allocation succeeds.
- JSON text: the model starts at lexer events or at parsed records; number, name and speed tables are not modelled.
- The lexer's own nesting limit and the callback's dispatch on path matches; the stack bound of the builder is a parameter.
- JSON path building for gNMI requests, and reading device state back, except that only blackhole routes return.
- Stp.RunSyncs: needs every configured-on VLAN to have some delay, as the parser's defaults give it, no silent refusal, and no read-back that misses an enabled VLAN in a mode that is then kept, because otherwise the promise fails, as `Stp.NoDelaysIsSkipped`, `Stp.ApplyLands` and `Stp.TrackedIsNeeded` show.
- That deleting the global spanning tree entry removes every VLAN entry, and that a device without a mode lists none, is taken from the source's comments.
- Undefined behaviour of C: the id of a port name that ends before its number, and 16-bit conversions of missing or negative VLAN ids, are arbitrary values in the model; a port name that is not a string, which crashes the source, is not modelled.
- Platform ports numbered 100 or more: the source indexes its port array with them unguarded; the model requires them absent. VLAN member ports are likewise required to fit the 128 bits of their bitmap.
- Address families, VRFs and host byte order: prefixes and addresses are integers that are only compared.
- The platform log ring: as coded it is not a FIFO.
- The lookup URL and the MAC limit in the metrics file: they do not survive the file.
- DHCP relay circuit ids: parser and platform use different strings.
- Poll period arithmetic: periods are not multiplied into microseconds.
- ScriptLock.OneAtATime: does not cover calls that enter beside another, because these break it, as `ScriptLock.OverlapBreaks` shows.
- RoutePlatform.RunSyncs: needs distinct prefixes in each table; `RouteApply.ApplyKeepsPrefix` covers repeated ones.
- Tokens.SurvivesIffPrintable: does not cover empty tokens, which printing cannot show.
- Rtty.Table.Start: does not model a failed kill of the evicted child, which the source ignores.
- Port speed, duplex and 802.1X applies, port isolation, RADIUS, spanning tree instance parsing, state reporting, alarms and event messages: easy or table-like.
- Upgrade, reboot, factory reset and LED requests.
