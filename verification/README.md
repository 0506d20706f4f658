# munpae, verified in Dafny

munpae is a level-triggered DNS reconciler: sources say which records are desired, a TXT registry
narrows the backend down to the records this instance owns, a planner diffs the two, a grace period
withholds deletes, and a provider writes the difference. This project models that control loop over
explicit backend stores and proves what it keeps and what it achieves. `dafny verify dfyconfig.toml`
checks everything.

## Layout

| file | models |
|---|---|
| `GoText.dfy` | the parts of Go's `strings` and `sort` the program uses |
| `Endpoints.dfy` | endpoints, keys, the merge that both providers' reads end in |
| `Planning.dfy` | the planner, for every map iteration order |
| `Registry.dfy` | ownership markers: names, values, filtering, decoration of change sets |
| `DnsZone.dfy` | a zone under sections 3.4.2.2 and 3.4.2.3 of RFC 2136, and its server |
| `Rfc2136.dfy` | the dynamic-update provider, and what one UPDATE message does |
| `ZoneChoice.dfy` | the domain filter and the longest-zone choice |
| `Convergence.dfy` | runs against a zone: convergence in one or two runs |
| `Refinement.dfy` | runs against a zone: frame, plain map update, foreign records |
| `Instances.dfy` | any number of reconcilers interleaving on one zone |
| `TxtContent.dfy` | quoting and unquoting of TXT content |
| `CloudStore.dfy` | Cloudflare's store, API calls, and the locality of prepared calls |
| `Cloudflare.dfy` | what the Cloudflare provider writes and reads back, call by call |
| `CloudProvider.dfy` | its loops: pages, index, failing calls |
| `CloudRuns.dfy` | runs against Cloudflare that stop after any number of calls: what they make of every record |
| `CloudRepair.dfy` | what runs against Cloudflare achieve: convergence, aborted runs and their repair |
| `CloudRefusal.dfy` | the same when the API refuses to create a record it already holds |
| `ZoneWritten.dfy`, `CloudWritten.dfy` | what a written record looks like, traced back to what it was written for |
| `Heritage.dfy` | records without munpae's heritage text: never owned, never touched |
| `CloudInstances.dfy` | any number of reconcilers interleaving API calls on one Cloudflare account |
| `Grace.dfy` | the grace map, refining a history of runs |
| `Reconcile.dfy` | `Run` itself, over either backend |
| `WatchLoop.dfy` | watcher, channel, debounce timer and ticker as a state machine |
| `Rules.dfy` | host names in Traefik rules |
| `Traefik.dfy` | the Traefik source |
| `TraefikLaws.dfy` | what its published list means in terms of container labels |

The imperative parts of the program are methods and classes here (`DnsServer`, `CloudApi`, `GraceState`,
`Reconciler`, `Wakeups`, `MainLoop`), each proved against the specification functions and relations the
theorems are about. Go's map iteration is an arbitrary choice (`:|`), a failing API call is a
nondeterministic outcome that the backend counts (`failedReads`, `failedWrites`), `select` is a nondeterministic step, and time is an integer. The order in which
a backend lists records is arbitrary too: theorems hold for every reading (`ReadsZone`, `ReadsCloud`).

## Side conditions

`Convergence.Publishable` and `Convergence.Clean` (for Cloudflare `CloudRuns.Hostable` and
`CloudRuns.CleanCloud`) say what the convergence theorems ask for: desired records are managed types with
targets, in scope, and such that the backend stores them as asked (`Storable`, `Stable`); nothing foreign
sits at a desired name or marker name; no TXT name mixes own markers with other values; desired records of
one key agree on the TTL. Both conditions are proved to hold again after every run, so they are invariants,
and both storage conditions are proved exact (`ReadBackExact`, `CfReadBackExact`). Empty backends meet them
(`EmptyZoneIsClean`, `EmptyStoreIsClean`), and so do ordinary desired records (`ExampleIsPublishable`,
`ExampleIsHostable`). The frame and safety theorems need none of this.

A Cloudflare run that is cut off inside its create phase leaves records without their marker, so the theorems
about aborted runs ask for less: `CloudRuns.Recoverable` lets the records of a desired key be unclaimed as long
as they were written for it, and holds after a cut at any call. `CloudRuns.Tidy` is what one run asks for to be
described exactly; it is met by every recoverable store, and by what a complete run makes of any tidy one.
Where duplicates are refused, exactness also needs that no desired record names a target twice (`NoRepeats`) and
that the records of desired keys lie in the zones their names resolve to (`AtHome`, kept by every cut run).

## Where code and documentation disagree

- `docs/architecture.md:72` promises that distinct owner ids keep instances apart. The ownership test is a
  substring test, so the default id `munpae` claims every marker of `munpae-cf` and deletes its records
  (`DistinctIdsDoNotSeparate`, `ClaimingIdDeletes`). `OwnershipExact` gives the exact condition, and
  `NoInstanceHarmsAnother` proves safety under it.
- `docs/architecture.md:68` promises that records without an own marker are never updated or deleted. A run that
  desires the key of such a record adds its own data to it unless opposing data keeps that out, and marks the
  whole RRset as its own (`ForeignExact` says exactly when, `ForeignRecordChanged` gives a record it happens to).
- `docs/providers.md:63` promises that the proxied label of a container overrides the default. Filling in the
  default target drops all labels, so for a container without a target of its own the label has no effect
  (`OverrideHonouredIff`, and `OptOutIsLost` for a container that opts out).
- `unquoteTXT` is meant to join the quoted chunks of a long value. When the first of several chunks is a
  single space, the split loses step (`ChunksBackExact`, `FirstChunkSpaceGoesWrong`).
- `docs/architecture.md:58` promises that the next resync repairs what an aborted run has left. A Cloudflare run
  cut off inside its create phase leaves records without a marker, and the next run creates them again. Where the
  API refuses records it already holds (`CHANGELOG.md:98`), that run is refused before it comes to the markers,
  and so is every later one: such a key is never claimed (`BlockedForever`, `CutAfterFirstCreateBlocks`). A run
  gets through exactly when no desired key has unclaimed records, and then it repairs everything
  (`RepairUnderRefusalExact`). Where the API accepts duplicates, one complete run is enough in exactly the same
  case (`AbortsRepairedByOneRunExact`, `CutAfterFirstCreate`), and two always are (`AbortsAreRepaired`).

## Model

| member | source | states |
|---|---|---|
| Endpoints.KeyTextInjective | internal/endpoint/endpoint.go:53 | two endpoints have one key text exactly when type and name agree |
| Endpoints.Collect | internal/provider/rfc2136.go:70-74 | the merged endpoints, in the order their keys were first seen, are key-distinct and index to the merge map |
| Planning.Equal | internal/plan/plan.go:61-79 | `equal` decides: TTL unspecified or the same, targets the same multiset, declared proxied label the same |
| Planning.SameSorted | internal/plan/plan.go:69-78 | sorting copies and comparing positions decides multiset equality |
| Planning.Index | internal/plan/plan.go:51-57 | the index of a slice, the last endpoint of a key winning |
| Planning.Calculate | internal/plan/plan.go:27-49 | for every iteration order: creates, updates with their old values, and deletes list exactly the keys they should, once each |
| Planning.Wanted | internal/plan/plan.go:31-40 | the first loop splits the desired map into creates and updates, in any order |
| Planning.Stale | internal/plan/plan.go:41-47 | the second loop lists the current keys that are not desired, in any order |
| Planning.PlanIsKeyDisjoint | internal/plan/plan.go:27-49 | the three change lists are duplicate-free and pairwise key-disjoint, and old values match updates key by key |
| Planning.PlanReachesDesired | internal/plan/plan.go:27-79 | carrying out a plan gives the desired map up to `equal` (overlaid on current unless the policy deletes), keeps unchanged records, and re-planning is empty |
| Planning.NothingToPlan | internal/plan/plan.go:19-49 | a plan is empty exactly when every desired record is present and `equal` and, under sync, nothing else is current |
| Planning.PlanOrderIrrelevant | internal/plan/plan.go:27-49 | two plans for the same maps differ only in the order of their lists |
| GoText.SortedEqualIffSameMultiset | internal/plan/plan.go:69-78 | sorted copies are equal exactly when the multisets are |
| GoText.LessEqSpelled | internal/source/traefik.go:101 | the order of `sort.Strings`: a beginning of the other text, or the smaller character where they first differ |
| GoText.TrimSpaceExact | internal/source/traefik.go:299 | trimming takes away exactly the blanks around a text |
| GoText.SplitJoined | internal/source/traefik.go:278 | splitting at a separator undoes joining with it |
| Registry.RealKeyOfTxtName | internal/registry/registry.go:119-148 | `realKey` undoes `txtName` for every prefix, type and name, except that the empty name has no key |
| Registry.TxtNameInjective | internal/registry/registry.go:119-121 | different keys have different marker names, whatever the prefix |
| Registry.MarkerSpelled | internal/registry/registry.go:115-121 | the marker of a record, spelled out for every type: its name, its one value, no TTL, no labels |
| Registry.OnlyMarkersClaim | internal/registry/registry.go:119-148 | among lower-case names without a slash, the marker name is the only one that stands for a key |
| Registry.OwnershipExact | internal/registry/registry.go:115-129 | a marker of owner b is claimed by owner a exactly when a is a prefix of b or b contains the owner tag followed by a |
| Registry.DistinctIdsDoNotSeparate | internal/registry/registry.go:123-129 | distinct ids are not enough: `munpae` claims the markers of `munpae-cf` |
| Heritage.FirstValueDecides | internal/registry/registry.go:123-129 | a TXT reading is an own marker exactly when its first value has both `heritage=munpae` and the owner tag with the id |
| Heritage.UnmarkedIsNotOwned | internal/registry/registry.go:33-55 | a record none of whose markers has the heritage text is not among the returned records, nor its marker name among the existing ones |
| Heritage.UnmarkedNameIsNotOwned | internal/registry/registry.go:92-104 | among lower-case names without a slash, only the record's own marker name matters for that |
| Heritage.UnmarkedUntouched | internal/registry/registry.go:123-129 | a run leaves such a record and its marker name alone in a zone, unless it desires the key |
| Heritage.CloudUnmarkedUntouched | internal/registry/registry.go:123-129 | and on Cloudflare, wherever it stops |
| Heritage.ForeignMarkerSpares | internal/registry/registry.go:128 | a TXT `heritage=external-dns,munpae/owner=munpae` at the marker name does not make the default instance delete the record |
| Registry.Records | internal/registry/registry.go:33-55 | returns the non-TXT records for which an own marker exists |
| Registry.RecordsAreOwned | internal/registry/registry.go:33-55 | the returned list is the claimed part of the key-indexed backend, once each |
| Registry.ExistingOwnership | internal/registry/registry.go:92-104 | returns the names of all own markers |
| Registry.AddMarkers | internal/registry/registry.go:77-86 | appends exactly the markers that are missing, or present |
| Registry.Decorate | internal/registry/registry.go:66-88 | creates get their missing markers, deletes their present ones, updates none |
| Registry.DecoratedIsKeyDisjoint | internal/registry/registry.go:66-88 | adding markers keeps a change set key-disjoint |
| Rfc2136.Records | internal/provider/rfc2136.go:41-76 | one endpoint per name and type with all its data, whatever order the transfer came in; fails exactly when the transfer does |
| Rfc2136.ApplyChanges | internal/provider/rfc2136.go:78-104 | sends one message with creates, updates and deletes in that order, nothing when it is empty; fails exactly when the exchange does, and then the zone is as it was or, when only the answer was lost, as the message made it |
| DnsZone.InsertSpelled | internal/provider/rfc2136.go:81-83 | what the server makes of an insertion, by section 3.4.2.2 of RFC 2136: a CNAME replaces a CNAME and yields to other data, other data yields to a CNAME only |
| Rfc2136.ApplyEffect | internal/provider/rfc2136.go:78-104 | what an accepted message does, RRset by RRset: creates kept out by opposing data of the zone before the message, updates replaced, deletes gone, all else untouched |
| Rfc2136.MessageFrame | internal/provider/rfc2136.go:78-104 | an RRset no change names is untouched, whatever the change set |
| Rfc2136.MessageData | internal/provider/rfc2136.go:78-130 | no data appears that no changed endpoint brings |
| ZoneWritten.WrittenData | internal/provider/rfc2136.go:106-130 | every piece of data a run brings in, or gives another TTL, belongs to a desired record with the TTL it asks for (32 bits, 300 for none), or to the marker of a desired key with 300 |
| ZoneChoice.CheckInDomain | internal/reconcile/reconcile.go:118-130 | accepts a name exactly when the filter does |
| ZoneChoice.FilterSpelled | internal/reconcile/reconcile.go:118-130 | the filter is empty, or some entry is the name or its end after a dot, a final dot of either not counting |
| ZoneChoice.LongestZone | internal/provider/cloudflare.go:300-310 | a listed zone that contains the name and that no containing zone outranks, or nothing |
| ZoneChoice.LongestOrderIrrelevant | internal/provider/cloudflare.go:300-310 | the choice does not depend on the order or multiplicity of the list |
| ZoneChoice.ZoneFoundIffInDomain | internal/provider/cloudflare.go:300-310 | a zone is found exactly when the domain filter with those zones accepts the name |
| ZoneChoice.MarkerSharesZone | internal/registry/registry.go:119-121 | a record and its marker share a zone exactly when no listed zone separates them |
| Convergence.ReadBackExact | internal/provider/rfc2136.go:106-149 | a written endpoint reads back as needing no update exactly when it is storable |
| Convergence.OneRun | internal/reconcile/reconcile.go:48-87 | after one sync run exactly the settled or unopposed desired RRsets are settled, nothing stale is left, every desired key is claimed, and the side conditions hold again |
| Convergence.OneRunExact | internal/reconcile/reconcile.go:48-87 | after one run the next plan is empty exactly when no record that needed writing was kept out by opposing data |
| Convergence.TwoRunsConverge | internal/reconcile/reconcile.go:48-87 | after two runs the third plan is empty and the owned view equals the desired one, also when names switch between CNAME and addresses |
| Refinement.RunFrame | internal/registry/registry.go:66-88 | a run leaves every RRset alone that is neither a changed record nor a changed record's marker |
| Refinement.RunRefinesMapUpdate | internal/registry/registry.go:33-104 | at every key that is settled, unopposed or not desired, whatever the others are, the owned map after a run is the one before with creates added, updates replaced and deletes removed |
| Refinement.OpposedKeyIsEmptyAfter | internal/provider/rfc2136.go:78-104 | the other half: a desired key that needs writing and is kept out by opposing data is planned, but empty and not owned after the run |
| Refinement.ForeignUntouched | internal/registry/registry.go:57-88 | a record without an own marker whose key is not desired is untouched and stays foreign, in any zone |
| Refinement.ForeignExact | docs/architecture.md:68-70 | what a run makes of a record without an own marker: its data gains the desired data exactly when its key is desired and not opposed, and it becomes claimed exactly when its key is desired and its marker name is not opposed |
| Refinement.ForeignRecordChanged | docs/architecture.md:68-70 | a foreign 198.51.100.7 at a desired name is joined by the desired 192.0.2.1, and both are claimed |
| Instances.StepIsSafe | internal/registry/registry.go:33-104 | every step of any instance keeps the invariant and leaves alone what the others own |
| Instances.NoInstanceHarmsAnother | internal/registry/registry.go:33-104 | in every interleaving of read, marker lookup and apply steps, also from stale reads, nobody touches what another instance owns |
| CloudInstances.CallHarmsNoOne | internal/provider/cloudflare.go:127-194 | one API call, addressed in a listing however old, leaves alone what every other instance owns |
| CloudInstances.StepIsSafe | internal/provider/cloudflare.go:115-195 | every plan, marker lookup, listing, single call and abort of any instance keeps the invariant and leaves alone what the others own |
| CloudInstances.NoInstanceHarmsAnother | docs/architecture.md:72-73 | in every interleaving of single API calls, also from stale plans and stale indexes, nobody touches what another instance owns |
| Instances.ClaimingIdDeletes | internal/registry/registry.go:123-129 | an instance whose id claims another's markers deletes that other's record |
| TxtContent.UnquoteTxt | internal/provider/cloudflare.go:274-297 | computes the whole-value unquoting, or the concatenation of the unquoted chunks |
| TxtContent.RoundTripExact | internal/provider/cloudflare.go:260-297 | for printable values, unquoting what was quoted gives the value exactly when it was not already wrapped in quotes |
| TxtContent.UnquotedUnchanged | internal/provider/cloudflare.go:274-277 | content that does not begin with a quote comes back unchanged |
| TxtContent.WhenQuoted | internal/provider/cloudflare.go:260-268 | a value is sent as it is exactly when it begins and ends with quotes of its own; any other gets quotes around it |
| TxtContent.QuotedAsIs | internal/provider/cloudflare.go:260-268 | a value without quotes and backslashes is sent between two quotes |
| TxtContent.ChunksBackExact | internal/provider/cloudflare.go:270-297 | adjacent quoted chunks come back as their concatenation exactly unless the first of several is a single space and the rest does not realign |
| TxtContent.FirstChunkSpaceGoesWrong | internal/provider/cloudflare.go:282-296 | the chunks " " and "x" do not come back as " x" |
| CloudStore.PrefixEffect | internal/provider/cloudflare.go:167-194 | after any number of prepared calls, a changed key holds what its own calls made of it |
| CloudStore.PrefixFrame | internal/provider/cloudflare.go:167-194 | a key without calls keeps its records, whenever the calls stop |
| Cloudflare.UniformReadingsAgree | internal/provider/cloudflare.go:55-93 | listing order does not matter to a plan when the records of a key agree on TTL and proxied flag |
| Cloudflare.BlocksPrepared | internal/provider/cloudflare.go:127-194 | the calls of a key-disjoint change set are prepared from the index and never meet |
| Cloudflare.IndexStaysRight | internal/provider/cloudflare.go:127-194 | every update and delete call, up to the last, addresses a record that still exists, under its key, as it was listed |
| Cloudflare.AtCreate | internal/provider/cloudflare.go:146-171 | after any number of calls a created key has gained some of its records, all of them once the create phase is over |
| Cloudflare.AtUpdate | internal/provider/cloudflare.go:172-188 | after any number of calls an updated key holds only old or only new records, and exactly the new ones at the end |
| Cloudflare.AtDelete | internal/provider/cloudflare.go:189-193 | after any number of calls a deleted key has only lost records, and all of them at the end |
| Cloudflare.AtOthers | internal/provider/cloudflare.go:167-194 | a key no change names keeps its records, ids included |
| Cloudflare.CfReadBackExact | internal/provider/cloudflare.go:197-240 | a written endpoint reads back as needing no update exactly when its TTL and proxied label are ones the provider keeps |
| Cloudflare.AppliedReadsBack | internal/provider/cloudflare.go:49-195 | after all calls every created or rewritten endpoint reads back with its targets and TTL, every deleted key is absent |
| CloudWritten.WrittenRecord | internal/provider/cloudflare.go:197-244 | wherever a run stops, every record it has created or rewritten is a desired one, proxied as its own label or else the account says, or the marker of a desired key, never proxied; TTL 1 when proxied or below a minute |
| CloudWritten.WrittenFlags | internal/provider/cloudflare.go:218-244 | TXT records are never proxied and have TTL 1, and so has everything that is proxied |
| CloudWritten.MarkerContent | internal/provider/cloudflare.go:260-268 | a marker's content as Cloudflare stores it |
| CloudProvider.ListRecords | internal/provider/cloudflare.go:96-111 | following the pages yields every record of the zone once; fails exactly when a page does |
| CloudProvider.Records | internal/provider/cloudflare.go:49-93 | one endpoint per name and type across all zones and pages; fails exactly when a call does |
| CloudProvider.MergeZone | internal/provider/cloudflare.go:60-86 | merging one zone's records keeps the reading right |
| CloudProvider.BuildIndex | internal/provider/cloudflare.go:127-139 | the index lists the ids of every name and type, each once; fails exactly when a call does |
| CloudProvider.CreateAll | internal/provider/cloudflare.go:146-157 | makes a prefix of the create calls, all of them when it succeeds; fails exactly when a call fails or no zone contains the name |
| CloudProvider.DeleteAll | internal/provider/cloudflare.go:158-165 | makes a prefix of the delete calls, all of them when it succeeds; fails exactly when a call fails |
| CloudProvider.UpdateOne | internal/provider/cloudflare.go:172-188 | a single value in place, anything else deleted and created again; a prefix of those calls on failure, which is exactly when a call fails or a zone is missing |
| CloudProvider.ApplyChanges | internal/provider/cloudflare.go:115-195 | what has happened to the store is always a prefix of the calls the change set stands for; all of them, and success, exactly when no call fails and no zone is missing; records stay in accessible zones |
| CloudRuns.NoOrphanedData | internal/provider/cloudflare.go:158-165 | wherever a run stops, an owned record is gone or still claimed: deletes never strand data without its marker |
| CloudRuns.DesiredReadsBack | internal/provider/cloudflare.go:146-188 | after all calls a desired record reads back as asked for exactly when nothing unclaimed was in its place |
| CloudRepair.CutRunStaysClean | internal/provider/cloudflare.go:167-194 | a run that stops anywhere past its create phase leaves a clean store with every desired key claimed |
| CloudRepair.CutRunStaysRecoverable | internal/provider/cloudflare.go:115-195 | a run that stops after any call leaves a recoverable store, for any policy and keys under grace |
| CloudRepair.CutRunContained | internal/provider/cloudflare.go:115-195 | key by key, what a run that stops after any call leaves: undesired data untouched or, if owned, fewer; TXT records from before or own markers |
| CloudRepair.OneCloudRunExact | internal/reconcile/reconcile.go:48-87 | after one complete sync run the next plan is empty exactly when every desired key that had records was claimed |
| CloudRepair.OneCloudRunConverges | internal/reconcile/reconcile.go:48-87 | from a clean store one complete sync run makes the owned view equal the desired one, and the next plan is empty |
| CloudRepair.TwoCloudRunsConverge | internal/reconcile/reconcile.go:48-87 | from any tidy store two complete sync runs do |
| CloudRepair.AbortsAreRepaired | docs/architecture.md:58-59 | after any number of runs, each cut off at any call, two complete sync runs make the owned view equal the desired one; undesired data is gone exactly if it was owned and in scope, every other record keeps its id and content, and at worst own markers are left over |
| CloudRepair.AbortsRepairedByOneRunExact | docs/architecture.md:58-59 | one complete run is enough exactly when the last store has no unclaimed records at desired keys, and always when the last cut lay past the create phase |
| CloudRepair.CutAfterFirstCreate | internal/provider/cloudflare.go:167-171 | on an empty store, a run cut off after its first record needs two more runs |
| CloudRepair.CloudRefinesMapUpdate | internal/registry/registry.go:33-104 | a complete run changes the owned records as a plain map update would: creates joined, updates replaced, deletes removed, for any policy and keys under grace |
| CloudRepair.CloudRunFrame | internal/registry/registry.go:66-88 | wherever a run stops, records that are neither changed nor a changed record's marker keep their ids and contents |
| CloudRefusal.RefusedOnlyWhenBlocked | internal/registry/registry.go:57-88 | when the API refuses duplicates, only creates of unclaimed desired records that are already there are refused: no update and no marker, surviving or missing, ever is |
| CloudRefusal.RunUnrefusedExact | CHANGELOG.md:94-98 | a run gets through unrefused exactly when no desired key is unclaimed with one of its records already there |
| CloudRefusal.CleanRunUnrefused | internal/registry/registry_test.go:74-77 | from a clean store, also with markers that have outlived their records, nothing is refused |
| CloudRefusal.BlockedForever | docs/architecture.md:58-59 | once a key is unclaimed with one of its records there, no number of runs that stop at refused calls, or earlier, ever claims it; none completes, and every plan still creates it |
| CloudRefusal.CutAfterFirstCreateBlocks | internal/provider/cloudflare.go:167-171 | a run cut off after the first record of an empty store leaves such a key |
| CloudRefusal.RepairUnderRefusalExact | docs/architecture.md:58-59 | after any number of cut runs, a sync run gets through exactly when no desired key has unclaimed records, and then it converges |
| CloudRepair.CloudForeignUntouched | internal/registry/registry.go:57-88 | a record that is neither owned nor desired keeps its ids and contents, wherever a run stops |
| Grace.GraceState.constructor | internal/reconcile/grace.go:28-30 | a fresh state stands for the empty history |
| Grace.GraceState.Seed | internal/reconcile/grace.go:35-42 | adds the owned keys it does not know yet |
| Grace.GraceState.Observe | internal/reconcile/grace.go:46-50 | refreshes the desired keys |
| Grace.GraceState.Prune | internal/reconcile/grace.go:53-59 | drops exactly the keys older than the period, in any order |
| Grace.GraceState.FilterDeletes | internal/reconcile/grace.go:68-79 | compacts the slice in place to the unprotected endpoints, in order |
| Grace.GraceState.Withhold | internal/reconcile/reconcile.go:67-76 | seeds once, observes, prunes and filters; the state stands for the history with this run added |
| Grace.MapIsHistory | internal/reconcile/grace.go:35-59 | the map holds exactly the keys whose latest sighting lies within the period, with the time of that sighting |
| Grace.DeletesExact | internal/reconcile/grace.go:62-79 | under sync the deleted keys are exactly the current ones not desired and not seen within the period |
| Grace.NoFlap | docs/sources.md:33-43 | a key desired at two runs at most one period apart, or current at the first run, is not deleted between them |
| Reconcile.Prepare | internal/reconcile/reconcile.go:91-106 | keeps, in order, exactly the endpoints in the filter that have a target or can have the default one: as they are, or with the default target, their name and TTL, no labels, and the type `ParseIP` calls for |
| Reconcile.OverrideHonouredIff | docs/providers.md:63-71 | the records written for a container carry its proxied override exactly when it names its own target or agrees with the default |
| Reconcile.OptOutIsLost | docs/providers.md:63-71 | a container that opts out and leaves its target to the default is written as proxied |
| Reconcile.ScopeTo | internal/reconcile/reconcile.go:108-116 | keeps the records in the domain filter |
| Reconcile.ScopedIsCurrent | internal/reconcile/reconcile.go:60-64 | the scoped owned records are the current map of the theorems |
| Reconcile.OwnedRecords | internal/registry/registry.go:33-55 | reads the backend and filters it to the owned records |
| Reconcile.ApplyOwned | internal/registry/registry.go:66-88 | looks up existing markers, decorates and applies; succeeds exactly when nothing fails; otherwise a zone is unchanged or has the whole message applied, and a Cloudflare store has seen a prefix of the calls |
| Reconcile.Reconciler.PlanChanges | internal/reconcile/reconcile.go:66-76 | the plan less exactly the deletes under grace |
| Reconcile.Reconciler.Run | internal/reconcile/reconcile.go:48-87 | succeeds exactly when the sources answer, no provider call fails and, on Cloudflare, no name lacks a zone; plans whenever the sources answer and no read fails; every run, failed ones included, is one of the runs the theorems speak of, or changed nothing; counts and grace history are as specified |
| Reconcile.HostableMeetsNoGap | internal/provider/cloudflare.go:140-145 | with desired records that can be hosted, no name lacks a zone: only a failing call can stop the run |
| Reconcile.ScopeSafety | internal/reconcile/reconcile.go:53-130 | changes name only keys in the filter, write only records with a target, update and delete only records read with an own marker, and the registry adds only markers of those keys |
| Reconcile.ZoneRecordsWereMarked | internal/registry/registry.go:33-55 | the own marker of every updated or deleted record really sat in the zone |
| Reconcile.CloudRecordsWereMarked | internal/registry/registry.go:33-55 | and in the Cloudflare store |
| WatchLoop.Wakeups.Signal | internal/source/source.go:78-83 | a non-blocking send leaves a token in the channel |
| WatchLoop.MainLoop.OnChange | cmd/munpae/main.go:109-116 | a token arms the timer unless it is armed, a closed channel is listened to no more |
| WatchLoop.MainLoop.OnDebounce | cmd/munpae/main.go:117-119 | firing disarms the timer and reconciles |
| WatchLoop.NoLostWakeup | cmd/munpae/main.go:97-123 | in every state of every run, an event not yet reconciled for is about to be signalled, in the channel, or behind an armed timer due within the delay |
| WatchLoop.EventLeadsToReconcile | internal/source/source.go:53-75 | until cancellation, a received event has been followed by a reconcile, or is about to be signalled, in the channel, or behind the armed timer |
| WatchLoop.DeadlineStays | cmd/munpae/main.go:114-116 | further events never push an armed deadline later |
| WatchLoop.FiringsApart | cmd/munpae/main.go:103-119 | two firings of the debounce timer are at least the delay apart |
| WatchLoop.NoSendAfterClose | internal/source/source.go:44-83 | the watcher never sends on the channel it has closed |
| Rules.ParseHosts | internal/source/traefik.go:288-305 | collects the trimmed nonempty quoted parts of all host matchers, in order |
| Rules.ParseOfPrint | internal/source/traefik.go:288-305 | for every rule of host clauses and other clauses, the parsed hosts are the written ones, in order |
| Rules.KeptPadded | internal/source/traefik.go:298-302 | quoted host names are taken without the blanks around them, and only if something is left |
| Rules.KeywordSpelled | internal/source/traefik.go:289 | the keywords are `Host` and `HostSNI` in any letter case |
| Rules.StartsHostSpelled | internal/source/traefik.go:289 | a matcher starts where a keyword and its parenthesis stand |
| Rules.LeftmostMatchFirst | internal/source/traefik.go:289-297 | for any text: the leftmost whole matcher gives its arguments first, and the search goes on behind it |
| Rules.NoMatchNoArgs | internal/source/traefik.go:289-297 | a text without a whole matcher, such as an unclosed one, has no arguments |
| Rules.QuotesExact | internal/source/traefik.go:290 | the quoted texts are those between each two backticks, and a single one begins nothing |
| Rules.RegexpIsOther | internal/source/traefik.go:293-294 | `HostRegexp` is not taken for a host matcher |
| Traefik.SplitKeyExact | internal/source/traefik.go:226-232 | splitting a label key undoes joining it: distinct fields never share a key |
| Traefik.EntrypointAnchors | internal/source/traefik.go:205-246 | the anchors are those of the containers in order, for every order of labels, and no label with an empty entrypoint counts |
| Traefik.DottedTargetWins | internal/source/traefik.go:201-204 | an anchor's target is the last dotted label, and a slash label only when there is no dotted one |
| Traefik.DottedPriorityWins | internal/source/traefik.go:201-245 | an anchor's priority is the last dotted label that is a number, else the last such slash label, else zero |
| TraefikLaws.DecimalIsRead | internal/source/traefik.go:216 | priorities are decimal numbers of 64 bits, with or without a sign |
| TraefikLaws.OtherCharacterIsNoNumber | internal/source/traefik.go:216 | any other character makes a label no number |
| TraefikLaws.DottedHidesSlash | internal/source/labels.go:36-49 | a dotted label, even an empty one, hides the slash label of its field |
| TraefikLaws.OptedOutOffersNothing | internal/source/traefik.go:64-66 | a container whose exclude label says true, in any letter case, offers nothing |
| TraefikLaws.RouterSpelled | internal/source/traefik.go:256-286 | a comma-separated entrypoints label names exactly the texts between the blanks |
| TraefikLaws.TwoEntrypoints | internal/source/traefik.go:277-282 | `web,websecure` names two entrypoints |
| Traefik.ParseRouters | internal/source/traefik.go:256-286 | each router's rule and entrypoints, for every order of labels |
| Traefik.AddContainer | internal/source/traefik.go:63-100 | adds exactly the candidates a container offers, for every order of routers |
| Traefik.ResolveCandidates | internal/source/traefik.go:132-161 | a conflict exactly when the winning tier holds two targets, otherwise its one target |
| Traefik.PublishHosts | internal/source/traefik.go:55-119 | lists the winner of every host that has one and every conflict, strictly sorted by host |
| TraefikLaws.OwnTargetWins | internal/source/traefik.go:43-54 | if apps that route a host ask for a target of their own, the host is published with it when they agree, and is a conflict otherwise, whatever the entrypoints say |
| TraefikLaws.GreatestPriorityWins | internal/source/traefik.go:43-54 | otherwise the entrypoint with the greatest priority decides, and leading ones that disagree are a conflict |
| TraefikLaws.NothingOffered | internal/source/traefik.go:63-100 | a host nobody offers is neither published nor a conflict |
| TraefikLaws.OfferedIsResolved | internal/source/traefik.go:108-119 | a host that is offered is published, with the type its target calls for, or a conflict, never both |
| Traefik.Deterministic | internal/source/traefik.go:43-54 | for a fixed container list, endpoints and conflicts are the same whatever order maps are ranged over |

## Left out

- HTTP, DNS and Docker transport, TSIG, the AXFR wire format, metrics, logging, the dry-run provider, command line and environment.
- internal/provider/webhook.go and `AdjustEndpoints`: their answers come from a remote server; adjusting is the identity here.
- The `noop` registry: only the TXT registry is modelled.
- internal/source/docker.go and the concatenation of sources: `Run` takes the sources' endpoints as given.
- `net.ParseIP`: the target classifier is a parameter; targets are taken to be in canonical text form, and names to be lower case without a trailing dot. A target that is no IP address for an A or AAAA record is not modelled.
- TxtContent.RoundTripExact: states printable ASCII values with the escapes for quote and backslash; the other escapes of `strconv.Quote` are not modelled.
- Rules.ParseOfPrint: ASCII letter cases only; Go's `(?i)` also folds a few non-ASCII letters.
- Zone ids and names are identified on Cloudflare, and record ids are never used twice.
- CNAME exclusion on Cloudflare: the store is a bag of records. Duplicate refusal is what `CloudRefusal.dfy` adds to it.
- Rate limits and other reasons for the Cloudflare API to refuse a call: any call may fail, with or without having taken effect, but only duplicates are refused for good.
- WatchLoop.NoLostWakeup: says where the wakeup is, not that the scheduler gets round to it; fairness and the watcher's one-second pause are not modelled, and events while it is not subscribed count as not received.
- Real clocks: time is an integer, nondecreasing between runs where a theorem says so.
