# Placement, scale-down, VM lifecycle and virtual HA domains of the Nutanix CAPI provider, in Dafny

The project models the parts of the provider in which several reconciles, controllers or Prism Central
replies interact, and proves what holds over whole runs of them. `dafny verify dfyconfig.toml` checks
everything.

| part | modules | main results |
|---|---|---|
| Counting theory | `GreedyBalance`, `Sorting` | one unit at a time to the emptiest site, or from the fullest: what such a run leaves is characterised without the run, is unique and optimal, and absorbs partial runs |
| Metro placement | `MetroPlacement`, `PlacementGroups`, `PlacementScope`, `PlacementRounds`, `PlacementInterleavings`, `PlacementWitness` | `PlacementConfluent`, `BalancedIff`, `InterleavingsConfluent`, `PlacementHealsIff`, `FilterKeepsVerdictIff`, `OtherSetIgnored` |
| Scale-down balancer | `ScaleDownBalancer`, `VictimProperties`, `DeleteMarks` | `VictimsOptimal`, `VictimsNewestFirst`, `VictimsStable`, `AnyDeletionOrder`, `CrashThenFullPass`, `OperatorMarkSurvives` |
| Both together | `JointRuns`, `MarkedScaleDown` | `BalancedForever`, `MarkedSurvivors` |
| Failed child tasks | `SubtaskErrors`, `SubtaskMessages` | `ExpandsExactlyReachable`, `MessagesExact`, `EdgeIff` |
| VM creation | `VmLookup`, `VmCreation`, `VmProvisioning` | `AtMostOneVm`, `RecordedIsFinal`, `OnRecordIff`, `FailsIff` |
| VM deletion | `VmLookup`, `VmDeletion`, `VmDeletionActions`, `VmDeletionLiveness` | `DecoupledDeletedIff`, `ReleaseIff`, `DeletesExactly`, `DecoupledReleaseHistory`, `DeletionEndsIff` |
| Virtual HA domains | `SubnetPairing`, `VhaResources`, `VhaSpec` | `PairsMaximum`, `NothingDroppedIff`, `EnsureIdempotent`, `SpecIsUsers` |
| Teardown | `ClusterTeardown`, `TeardownRuns` | `NothingLeftIff`, `TeardownLeavesNothing` |
| Versions | `Versions`, `Decimal` | `ListsTransitive`, `OrderedIff`, `UnparseableGreaterIff`, `GateAgreesIff` |

How the model is laid out: what the Go code does step by step on fields, maps, slices and arrays is a
method, on a class where the code updates an object, and each method is proved equal to a function of
its inputs or of the old state. Those functions are what the lemmas about runs speak of. Prism Central
and the API server are values, or classes, whose replies are parameters: any read may return anything
that its type allows unless a lemma says otherwise, and any write may be refused, land without its
reply, or be the last thing before a crash where the module says so.

Properties that are false of the code are stated with the exact condition under which they hold, and
with an input or a run that breaks them:

- The comment above `computeMetroPlacementIndex` promises balance whatever the interleaving of reconciles.
  An interleaving ends balanced if and only if every label is written to a site that the fill still to
  come has a place left on (`PlacementInterleavings.BalancedIff`); reads that find the decisions under way
  still current are enough (`InterleavingsConfluent`), and rounds are a case of that
  (`RoundsAreInterleavings`). `PlacementWitness.StaleReadUnbalances` is a run that breaks it.
- Filtering Machines on the server changes the verdict about an infrastructure machine if and only if it
  is disputed between two groups (`PlacementScope.FilterKeepsVerdictIff`).
- "A decoupled VM is never deleted" fails if and only if the recorded VM is decoupled, the recovered one on
  record is live but comes back without an ExtId, and nothing else keeps it from being deleted
  (`VmDeletion.DecoupledDeletedIff`; `NilExtIdAimsAtDecoupled` is such a reconcile).
- Deletion ends if and only if the first state is not blocked, for instance by a volume-group disk without
  an ExtId (`VmDeletionLiveness.DeletionEndsIff`).
- Replication is left behind by a teardown if and only if some domain still has on record what still lives
  in Prism (`TeardownRuns.NothingLeftIff`); a domain that is adopted between the cluster's last look and its
  patch can be one (`LateDomainIsLeftBehind`).
- `ComparePCVersions` is no order on all strings: `Versions.OrderedIff` says of every string whether it fits
  in. Its comment promises that an unparseable version is the greater one, and that two of them are equal;
  `UnparseableGreaterIff` and `UnparseableEqualIff` say exactly when, and `MasterBelowTenThousand` and
  `OverflowingYearBelowSeven` are inputs that break the first.
- The 7.6 gate lets every 202x version through, which `ComparePCVersions` puts below 7.x
  (`Versions.GateAgreesIff`).
- Generated names are distinct within a vHADomain and can clash across two (`VhaResources.SameNameIff`).

## Model

| member | source | states |
|---|---|---|
| MetroPlacement.MetroMachineGroupKeys | controllers/nutanixmachine_controller.go:1623-1647 | The map from infrastructure machine to group key that the selected Machines give, a later Machine winning; a failed List is an error |
| MetroPlacement.IndexSites | controllers/nutanixmachine_controller.go:1480-1483 | A failure-domain name leads to its last position in the metro, any other name to none |
| MetroPlacement.CollectSiblings | controllers/nutanixmachine_controller.go:1513-1531 | `counts` holds, per site, the live siblings labelled with it, and `pending` the unlabelled ones in listing order; terminating machines and other groups are skipped, the machine itself never |
| MetroPlacement.LeastLoaded | controllers/nutanixmachine_controller.go:1541-1548 | The scan finds the first site with the smallest count |
| MetroPlacement.SimulateUntil | controllers/nutanixmachine_controller.go:1538-1553 | Over sorted names, the simulation stops at the site that the greedy fill reaches after as many units as there are names before this one |
| MetroPlacement.NamesBeforeByContents | controllers/nutanixmachine_controller.go:1532-1536 | How many pending names come before a machine does not depend on the listing order that sorting removes |
| MetroPlacement.SortedPosition | controllers/nutanixmachine_controller.go:1536-1552 | In sorted names, a machine is reached after exactly the names smaller than its own |
| MetroPlacement.ComputeMetroPlacementIndex | controllers/nutanixmachine_controller.go:1479-1556 | The placement is the slot of the greedy fill of the group's counts at the rank of the machine among the pending ones; an error exactly when one of the two Lists fails |
| PlacementScope.GroupKeyInjective | controllers/nutanixmachine_controller.go:1579-1605 | Two label sets with one non-empty group key chose the same owner label with the same value |
| PlacementScope.FilterKeepsVerdicts | controllers/nutanixmachine_controller.go:1610-1647 | Under the server-side label filter an infrastructure machine whose owners are of one group has the group's key if and only if it has it in the whole cluster's listing |
| PlacementScope.FilterKeepsVerdictIff | controllers/nutanixmachine_controller.go:1610-1647 | Filtering loses no sibling, and adds one if and only if a Machine of another group refers to the same infrastructure machine and is listed later |
| PlacementScope.FilterRefinesWholeCluster | controllers/nutanixmachine_controller.go:1517-1519 | So the filtered listing gives the placement that the whole listing would, as long as no listed machine is disputed between groups |
| PlacementScope.PlacementByContents | controllers/nutanixmachine_controller.go:1514-1536 | Placement depends on the siblings in the listing only, not on other groups and not on the order |
| PlacementRounds.PlacementIsRankedSlot | controllers/nutanixmachine_controller.go:1538-1550 | Each pending machine takes, of the slots that the fill of the whole group would use in turn, the one at its rank by name |
| PlacementRounds.PersistCounts | controllers/nutanixmachine_controller.go:1651-1663 | Labels persisted for pending machines raise each site by exactly the machines sent there |
| PlacementRounds.PersistTotals | controllers/nutanixmachine_controller.go:1651-1663 | What the sites gain together, the pending set loses |
| PlacementRounds.RoundWithinFill | controllers/nutanixmachine_controller.go:1458-1465 | Reconciles that read one listing send no site more machines than the whole fill would |
| PlacementRounds.RoundKeepsTarget | controllers/nutanixmachine_controller.go:1462-1478 | A round of any pending machines leaves the group with the same fill to come |
| PlacementRounds.PlacementConfluent | controllers/nutanixmachine_controller.go:1458-1478 | For any start, any number of sites and any schedule of rounds that places everybody, the sites end with the greedy fill of the start by the number of pending machines |
| PlacementRounds.ArrivalsConfluent | controllers/nutanixmachine_controller.go:1458-1478 | The same with unlabelled machines joining between rounds, in any number and at any time |
| PlacementInterleavings.BalancedIff | controllers/nutanixmachine_controller.go:1458-1465 | For every interleaving of single reads, label writes and arrivals that places everybody, however stale the decisions: the sites end with the greedy fill if and only if every write finds its site below what the fill still to come gives it |
| PlacementInterleavings.InterleavingsConfluent | controllers/nutanixmachine_controller.go:1458-1465 | An interleaving whose every read finds the decisions under way to be those that their machines would take now ends with the greedy fill |
| PlacementInterleavings.RoundsAreInterleavings | controllers/nutanixmachine_controller.go:1462-1478 | Every run of rounds and arrivals is such an interleaving, with the same machines and the same target |
| PlacementRounds.PlacementOptimal | controllers/nutanixmachine_controller.go:1538-1553 | No other assignment of the pending machines leaves a fuller emptiest site or an emptier fullest one |
| PlacementRounds.PlacementHealsIff | controllers/nutanixmachine_controller.go:1472-1473 | Placing everybody brings the sites within one of each other if and only if the pending machines cover what the sites lack to one below the fullest |
| PlacementWitness.StaleReadUnbalances | controllers/nutanixmachine_controller.go:1462-1465 | Four machines and two sites: two stale decisions, one persisted, then a fourth read end with 1 and 3 where rounds give 2 and 2 |
| GreedyBalance.LeastIsFirst | controllers/nutanixmachine_controller.go:1541-1548 | The least-loaded scan returns the first smallest count |
| GreedyBalance.FillIsFill | controllers/nutanixmachine_controller.go:1538-1553 | Every unit that a greedy fill adds lies no later, by level and then by site, than every place left free |
| GreedyBalance.FillUnique | controllers/nutanixmachine_controller.go:1538-1553 | That property and the total determine the counts |
| GreedyBalance.FillAbsorbs | controllers/nutanixmachine_controller.go:1458-1465 | Any counts between the start and its fill fill up to the same result: slots may be taken in any order |
| GreedyBalance.FillOptimal | controllers/nutanixmachine_controller.go:1538-1553 | No other addition of as many units has a larger minimum or a smaller maximum |
| GreedyBalance.FillHealsIff | controllers/nutanixmachine_controller.go:1472-1473 | The spread after a fill is at most one if and only if the units cover the deficit |
| GreedyBalance.FillHeals | controllers/nutanixmachine_controller.go:1472-1473 | As many units as level every site with the fullest suffice |
| GreedyBalance.FillKeepsWithinOne | controllers/nutanixmachine_controller.go:1538-1553 | A spread of at most one survives filling |
| PlacementGroups.SetDecides | controllers/nutanixmachine_controller.go:1579-1605 | A machine of a MachineSet shares its group key with exactly the machines of that MachineSet, whatever other labels either carries |
| PlacementGroups.DeploymentDecides | controllers/nutanixmachine_controller.go:1579-1605 | Without a MachineSet, with exactly those of its MachineDeployment that have no MachineSet |
| PlacementGroups.PoolDecides | controllers/nutanixmachine_controller.go:1579-1605 | Without either, with those of its MachinePool that have neither |
| PlacementGroups.ControlPlaneDecides | controllers/nutanixmachine_controller.go:1579-1605 | Without any of the three, with those of the same control-plane label, which may be empty; without that one too there is no group |
| PlacementGroups.PlacementIs | controllers/nutanixmachine_controller.go:1513-1556 | The placement said by labels, names and deletion: sites hold the counting machines labelled with them, and the rank is the number of counting unlabelled ones with a smaller name |
| PlacementGroups.CountsIff | controllers/nutanixmachine_controller.go:1517-1523 | Of a grouped machine, exactly the live infrastructure machines count to which a Machine of its group refers, besides itself |
| PlacementGroups.CountsClusterWide | controllers/nutanixmachine_controller.go:1491-1496 | For a machine of no group or without a Machine, all live ones count |
| PlacementGroups.ListedIff | controllers/nutanixmachine_controller.go:1610-1634 | The reconcile of a MachineSet's machine reads the Machines of that set, and no others |
| PlacementGroups.OtherSetIgnored | controllers/nutanixmachine_controller.go:1561-1580 | Machines of another MachineSet never change a placement, those of the same MachineDeployment included: a rolling upgrade balances the new generation by itself |
| PlacementGroups.TerminatingIgnored | controllers/nutanixmachine_controller.go:1520-1523 | A machine that is being deleted never changes the placement of another |
| PlacementGroups.UntrackedIgnored | controllers/nutanixmachine_controller.go:1524-1528 | Nor does one labelled with a name outside the metro |
| VictimProperties.VictimsNumber | controllers/nutanixmetro_scaledown_controller.go:286-301 | As many victims as live machines exceed the replicas, or if none do as the sites are out of balance, and at most the known machines |
| VictimProperties.KnownIff | controllers/nutanixmetro_scaledown_controller.go:250-266 | A machine is known exactly when it is live and the NutanixMachine that it refers to is found and labelled with a site |
| Sorting.NameLessIs | controllers/nutanixmetro_scaledown_controller.go:281 | The order of names is the lexicographic one of characters |
| GreedyBalance.MostIsFirst | controllers/nutanixmetro_scaledown_controller.go:312-319 | The fullest-site scan returns the first largest count |
| GreedyBalance.DrainIsDrain | controllers/nutanixmetro_scaledown_controller.go:304-326 | Every unit that a greedy drain removes lies no earlier, by level and then by site, than every unit it keeps |
| GreedyBalance.DrainUnique | controllers/nutanixmetro_scaledown_controller.go:304-326 | That property and the total determine the counts |
| GreedyBalance.DrainOptimal | controllers/nutanixmetro_scaledown_controller.go:304-306 | No other removal of as many units has a smaller maximum or a larger minimum |
| GreedyBalance.DrainGap | controllers/nutanixmetro_scaledown_controller.go:304-326 | Two sites: `k` removals leave the gap less `k`, then the parity of the rest |
| GreedyBalance.DrainKeepsWithinOne | controllers/nutanixmetro_scaledown_controller.go:304-326 | A spread of at most one survives any removal from the top, however ties are broken |
| ScaleDownBalancer.GroupBySite | controllers/nutanixmetro_scaledown_controller.go:246-267 | Live machines with a recorded site, by site in listing order, with the live and known totals; stops with an error exactly when a live machine's lookup fails |
| ScaleDownBalancer.SortedKeys | controllers/nutanixmetro_scaledown_controller.go:277-281 | The site names sorted, in whatever order the map hands them out |
| ScaleDownBalancer.SortMachinesNewestFirst | controllers/nutanixmetro_scaledown_controller.go:433-442 | The one newest-first, then by name, rearrangement |
| ScaleDownBalancer.SortEach | controllers/nutanixmetro_scaledown_controller.go:282-284 | Every site's list becomes its newest-first listing, and no site is lost |
| ScaleDownBalancer.SiteExcess | controllers/nutanixmetro_scaledown_controller.go:413-429 | The largest count less the smallest, 0 below two sites |
| ScaleDownBalancer.Fullest | controllers/nutanixmetro_scaledown_controller.go:312-319 | The first site with most machines left, and how many |
| ScaleDownBalancer.DrawVictims | controllers/nutanixmetro_scaledown_controller.go:307-326 | The names drawn are the first ones of each site's list down to the greedily drained count |
| ScaleDownBalancer.DrawWanted | controllers/nutanixmetro_scaledown_controller.go:286-328 | The draw is for the pending deletions or else the excess, at most the known machines |
| ScaleDownBalancer.SelectVictims | controllers/nutanixmetro_scaledown_controller.go:245-329 | The victims' names, or an error exactly when a live machine's site cannot be read |
| VictimProperties.VictimsAreSelection | controllers/nutanixmetro_scaledown_controller.go:304-326 | The victims are the top machines by rank within their site, sites in name order at one rank, and of the wanted number: a description without the loop |
| VictimProperties.VictimsSize | controllers/nutanixmetro_scaledown_controller.go:286-301 | Live known machines only, and exactly the smaller of the pending deletions and the known machines |
| VictimProperties.VictimsNewestFirst | controllers/nutanixmetro_scaledown_controller.go:274-284 | With a victim, every machine of its site created later is one, and of those created with it every one whose name comes first |
| VictimProperties.VictimsOptimal | controllers/nutanixmetro_scaledown_controller.go:304-306 | No other removal of as many known machines leaves a lower fullest or a higher emptiest site |
| VictimProperties.RemainingGap | controllers/nutanixmetro_scaledown_controller.go:286-328 | Two represented sites: the gap left is the old gap less the victims, then a parity |
| VictimProperties.ExcessIsGap | controllers/nutanixmetro_scaledown_controller.go:410-429 | For two sites the excess is that gap |
| VictimProperties.VictimsStable | controllers/nutanixmetro_scaledown_controller.go:274-328 | With two deletions pending, deleting any victim and selecting again yields the old victims less that one |
| VictimProperties.AnyDeletionOrder | controllers/nutanixmetro_scaledown_controller.go:274-328 | Whatever order marked machines are deleted in, with a fresh selection after each, the survivors are everyone but the first choice |
| VictimProperties.DeletionLosesOne | controllers/nutanixmetro_scaledown_controller.go:250-253 | A deletion timestamp and an absent machine take the same one machine out of the count |
| DeleteMarks.Machine.PatchMachineAnnotations | controllers/nutanixmetro_scaledown_controller.go:366-384 | Both marks are set, or both are removed; other annotations stay |
| DeleteMarks.ApplyDeleteAnnotations | controllers/nutanixmetro_scaledown_controller.go:333-362 | With any number of patches succeeding, exactly the first that many machines in need of one are patched, and success is reported exactly when that was all of them |
| DeleteMarks.FullPassMarks | controllers/nutanixmetro_scaledown_controller.go:339-359 | From any annotations a full pass leaves every live victim with the delete mark and the managed mark on victims only |
| DeleteMarks.FullPassExact | controllers/nutanixmetro_scaledown_controller.go:339-384 | After a full pass the delete mark is on exactly the victims and the machines that an operator marked, the managed one on exactly the victims nobody else had marked; new marks say "true", old ones keep their value |
| DeleteMarks.PassTouchesMarksOnly | controllers/nutanixmetro_scaledown_controller.go:334-359 | Names, deletion state and other annotations stay, and a terminating machine is not touched |
| DeleteMarks.SecondPassIdle | controllers/nutanixmetro_scaledown_controller.go:339-359 | A second pass right after a full one patches nothing |
| DeleteMarks.CrashThenFullPass | controllers/nutanixmetro_scaledown_controller.go:333-362 | After a crash anywhere in a pass, a full pass reaches what an undisturbed one would have |
| DeleteMarks.OperatorMarkSurvives | controllers/nutanixmetro_scaledown_controller.go:344-358 | A delete mark without the managed marker is never changed, over any passes with any victims |
| DeleteMarks.ManagedImpliesDelete | controllers/nutanixmetro_scaledown_controller.go:372-381 | A managed marker that the controller set has a delete mark beside it, and never claims an operator's |
| JointRuns.SitesArePerSite | controllers/nutanixmetro_scaledown_controller.go:389-408 | Placement and the balancer count the same machines at every site |
| JointRuns.ScaleUpKeepsBalance | controllers/nutanixmachine_controller.go:1538-1553 | A scale-up placed by any schedule of rounds keeps the sites within one |
| JointRuns.ScaleDownSurvivors | controllers/nutanixmetro_scaledown_controller.go:245-329 | A scale-down that deletes marked machines, in any order, leaves everyone but the balancer's first choice |
| JointRuns.ScaleDownKeepsBalance | controllers/nutanixmetro_scaledown_controller.go:245-329 | Such a scale-down keeps the sites within one |
| JointRuns.BalancedForever | controllers/nutanixmetro_scaledown_controller.go:235-244 | Any history of scale-ups and scale-downs, on any number of sites, ends every operation with the sites within one if it started so |
| MarkedScaleDown.MarkedIsVictim | controllers/nutanixmetro_scaledown_controller.go:333-362 | After one full pass over machines without operator marks, with later passes late or cut short, every machine that carries the delete mark is a current victim until the scale-down is complete |
| MarkedScaleDown.MarkedRunScalesDown | controllers/nutanixmetro_scaledown_controller.go:166-216 | A scale-down in which CAPI deletes whatever machine is marked is one in which it deletes victims |
| MarkedScaleDown.MarkedSurvivors | controllers/nutanixmetro_scaledown_controller.go:245-384 | So its survivors are everyone but the balancer's first choice, and balanced sites stay so |
| SubtaskErrors.AppendUnique | controllers/task_errors.go:173-180 | The message is at the end exactly when it was nowhere before |
| SubtaskErrors.PartsExact | controllers/task_errors.go:156-162 | The parts are the non-empty messages, each once |
| SubtaskErrors.ErrorPartsExact | controllers/task_errors.go:156-166 | With the legacy message among them, once |
| SubtaskErrors.FormatTaskError | controllers/task_errors.go:153-171 | The text of a failed child: operation, then its parts or the stand-in for none |
| SubtaskErrors.FailedSubtasksFromParentGet | controllers/task_errors.go:112-138 | The children that the parent's references resolve to, in order; unreadable ones are left out |
| SubtaskErrors.CollectFromChildren | controllers/task_errors.go:86-105 | The loop over one parent's children collects what the search of its failed ones reports, and marks what that expands |
| SubtaskErrors.CollectFailedSubtaskErrors | controllers/task_errors.go:67-106 | The recursion over the shared visited set terminates on every task graph and is the depth-first search `Expand` |
| SubtaskErrors.ExpandedOnce | controllers/task_errors.go:74-77 | No UUID is expanded twice, none that was visited before, and never the empty one |
| SubtaskErrors.ExpandsExactlyReachable | controllers/task_errors.go:67-106 | A UUID is expanded if and only if a path of failed children leads to it, on cyclic and shared graphs alike |
| SubtaskErrors.MessagesExact | controllers/task_errors.go:86-105 | As a multiset, the messages are one per failed-child occurrence of an expanded parent |
| SubtaskErrors.EnrichTaskError | controllers/task_errors.go:49-65 | An absent error stays absent, and an error without failed children stays as it is |
| SubtaskErrors.EnrichedIffFailedChild | controllers/task_errors.go:54-57 | The text changes if and only if the parent itself has a failed child |
| SubtaskMessages.FailedChildIff | controllers/task_errors.go:79-91 | A failed child is a task with status failed among those listed for the parent, or when the list fails among those that its references resolve to |
| SubtaskMessages.FailedCount | controllers/task_errors.go:87-91 | It counts once per occurrence |
| SubtaskMessages.ResolvedCount | controllers/task_errors.go:124-136 | And occurs once per reference that resolves to it |
| SubtaskMessages.FailedInOrder | controllers/task_errors.go:87-91 | Failed children keep the order of the children |
| SubtaskMessages.ResolvedInOrder | controllers/task_errors.go:123-137 | And those the order of the references |
| SubtaskMessages.EdgeIff | controllers/task_errors.go:86-104 | The search goes from a task to a UUID if and only if one of its failed children has it |
| SubtaskMessages.OperationIs | controllers/task_errors.go:140-151 | What a task was doing: its description if not empty, else its operation if not empty, else unknown |
| SubtaskMessages.MessageSays | controllers/task_errors.go:153-171 | The text of a failed task starts with what it was doing in brackets and holds each of its messages, or says that there is none |
| SubtaskMessages.PartsInOrder | controllers/task_errors.go:156-166 | Messages keep the order of their first occurrence, the legacy one last |
| SubtaskMessages.JoinConcat | controllers/task_errors.go:170 | Joining two lists is joining the two joined texts |
| SubtaskMessages.EnrichedSays | controllers/task_errors.go:54-64 | The parent's text leads, and every message of the search is found after it |
| SubtaskMessages.ParentsFirst | controllers/task_errors.go:77-104 | A task is expanded before those below it, and its own first failed child is reported first |
| VmLookup.UuidIff | controllers/helpers.go:228-237 | What passes for a UUID: hex digits in five groups, the same as a URN or between two characters, or 32 digits in a row |
| VmLookup.CandidatesAre | controllers/helpers.go:550-556 | The names searched: the Machine's first, then the NutanixMachine's unless empty or the same |
| VmLookup.FoundVmIs | controllers/helpers.go:270-332 | Exactly when `FindVM` returns a VM: the recorded one, of a matching name and on the metro path not decoupled; there a live one by name for a recorded VM that is decoupled or gone; without a record a live one by name, or off the metro path the only one listed |
| VmLookup.AbsentIff | controllers/helpers.go:270-332 | Exactly when `FindVM` answers that there is no VM: none is recorded, and the search that applies finds none and does not fail |
| VmLookup.MetroByPlacement | controllers/helpers.go:390-410 | A Metro or MetroSite failure domain, wanted or recorded, or one of three annotations puts a machine on the metro path |
| VmLookup.OrdinaryIsNotMetro | controllers/helpers.go:390-410 | Nothing else does |
| VmLookup.ProviderIdIff | controllers/helpers.go:254-264 | A provider ID yields a UUID if and only if it is `nutanix://` and that UUID; a placeholder yields none |
| VmLookup.ProviderIdRoundTrip | controllers/helpers.go:219-221 | The UUID put into a provider ID is the one read from it |
| VmLookup.RecordedUuid | controllers/helpers.go:224-265 | `GetVMUUID` takes the node's UUID, then that in status, then that in spec; it is a UUID or empty, and an error exactly when the node or status names something else |
| VmLookup.AbsentOnlyIfUnrecorded | controllers/helpers.go:270-332 | `FindVM` answers that there is no VM only while no UUID is recorded |
| VmLookup.ScanVms | controllers/helpers.go:489-516 | One name's VMs: each UUID once, decoupled and vanished ones dropped, an error from either read ends it |
| VmLookup.VmsUsableForProject | controllers/helpers.go:456-470 | The VMs of the project, all of them without one |
| VmLookup.FindNonDecoupledVmByName | controllers/helpers.go:476-527 | The search over all names: an error when more than one live VM is found |
| VmLookup.SearchSound | controllers/helpers.go:472-527 | Within a project or without one: a VM found was listed under one of the names and read as live there, and every other listed VM is decoupled, gone or of another project; none found means that all are |
| VmLookup.SearchComplete | controllers/helpers.go:472-527 | With no read failing and at most one live VM of the names in the project, the search answers exactly that one or none |
| VmCreation.MachineContext.GetOrMintVmCreationRequestId | controllers/nutanixmachine_controller.go:1888-1914 | The recorded ID, or a new one that is in memory only after it is persisted |
| VmCreation.PrismCentral.CreateAsync | controllers/nutanixmachine_controller.go:2134-2143 | A create call with a request ID that Prism knows creates nothing |
| VmCreation.MachineContext.RecordVm | controllers/nutanixmachine_controller.go:2110-2119 | Spec and status carry the new UUID, the spec persisted first; either write may fail or be the last |
| VmCreation.MachineContext.CreateVm | controllers/nutanixmachine_controller.go:1947-2123 | No call before the ID is persisted, and the identity recorded only after a call that brought exactly one VM |
| VmCreation.MachineContext.SyncVmUuid | controllers/nutanixmachine_controller.go:816-841 | The node's valid UUID replaces the VM's in status, and only there |
| VmCreation.MachineContext.FinishProvisioning | controllers/nutanixmachine_controller.go:698-768 | After the VM is known: status is synced and the machine ready, as far as the steps succeed |
| VmCreation.MachineContext.ReconcileNormal | controllers/nutanixmachine_controller.go:573-769 | Failed machines are left alone, ready ones only synced, others found or created |
| VmCreation.Reconcile | controllers/nutanixmachine_controller.go:217-323 | A reconcile with its deferred merge patch, crash or not, is the step `Next` of the run |
| VmCreation.AtMostOneVm | controllers/nutanixmachine_controller.go:1877-1887 | Over every run of reconciles with crashes, lost replies, a lagging index, moves and edits: every create call carries the one persisted request ID, and at most one VM is created |
| VmCreation.ProviderIdNamesCreated | controllers/nutanixmachine_controller.go:2110-2113 | A provider ID that has changed since the start names the one VM created |
| VmCreation.RecordedIsFinal | controllers/helpers.go:240-266 | Once a UUID is persisted in the provider ID, no event changes it and no create call follows |
| VmCreation.MoveKeepsIdentity | controllers/helpers.go:240-266 | After `clusterctl move` the provider ID alone gives the VM's UUID |
| VmCreation.FinalizerWaitsForDeferredPatch | controllers/nutanixmachine_controller.go:302-314 | No write before the deferred patch persists the finalizer |
| VmCreation.AdoptionLeavesProviderId | controllers/nutanixmachine_controller.go:1938-1943 | A VM found rather than created never gets into the provider ID |
| VmProvisioning.RecordsStores | controllers/nutanixmachine_controller.go:2110-2119 | A reconcile that is told of its one VM, from a write that lands on, leaves the provider ID stored, whatever happens after |
| VmProvisioning.OnRecordIff | controllers/nutanixmachine_controller.go:2095-2119 | Over every run: the one VM created is on record, so that no create call follows, if and only if some reconcile was told of it and a write that carries it landed |
| VmProvisioning.LearnsStatus | controllers/nutanixmachine_controller.go:2110-2119 | With the status write landing too, status holds the UUID as well |
| VmProvisioning.ReadyHasIdentity | controllers/nutanixmachine_controller.go:698-768 | A machine gets ready only with a VM found, or created and recorded, in that reconcile, powered on, and with its identity in status: the node's UUID if valid, else the VM's |
| VmProvisioning.KnownBecomesReady | controllers/nutanixmachine_controller.go:698-768 | With such a VM it gets ready exactly when the further steps succeed; the status write is one of them only if it has something to write, and else makes no difference |
| VmProvisioning.StoredOnLanding | controllers/nutanixmachine_controller.go:816-841 | What is stored changes before the deferred patch only by writes that land: annotations, provider ID and status each by their own |
| VmProvisioning.ReadyFollowsNode | controllers/nutanixmachine_controller.go:588-605 | A ready machine takes over the UUID that its node reports |
| VmProvisioning.FailsIff | controllers/nutanixmachine_controller.go:573-769 | Exactly what marks a machine as failed for good: a preflight or a build step that fails for good, a create error that is final, or an answer that is not one VM |
| VmProvisioning.FailedIsLeftAlone | controllers/nutanixmachine_controller.go:575-578 | A machine marked as failed is left exactly as it is |
| VmProvisioning.FinalizerStored | controllers/nutanixmachine_controller.go:302-314 | A reconcile that survives and whose deferred patch lands leaves the finalizer stored, also after an error |
| VmProvisioning.PatchStoresMemory | controllers/nutanixmachine_controller.go:302-314 | The deferred patch stores what is in memory, except where the reconcile itself has written in between |
| VmProvisioning.PatchKeepsOthers | controllers/nutanixmachine_controller.go:302-314 | And leaves alone whatever the reconcile has not changed |
| VmDeletion.ReleaseIff | controllers/nutanixmachine_controller.go:342-381 | For any replies and on every path, the finalizer goes if and only if nothing is recorded, or the recorded VM reads as gone, or on the metro path it is gone or decoupled and nothing recovered in its place is left; a failed read never does it |
| VmDeletion.ByUuidReleaseIff | controllers/nutanixmachine_controller.go:487-490 | Off the metro path: if and only if Prism says that there is no VM of the recorded UUID |
| VmDeletion.ByUuidDeletesIff | controllers/nutanixmachine_controller.go:376-466 | Off the metro path, for any replies: exactly when a delete goes out, and for which UUID |
| VmDeletionActions.SettlesIff | controllers/nutanixmachine_controller.go:481-563 | Exactly which VM a reconcile settles on: the recorded one if it is live, and on the metro path, when that is decoupled, gone or unreadable, the recovered one on record unless that is decoupled too, or else one found by name |
| VmDeletionActions.DeletesExactly | controllers/nutanixmachine_controller.go:376-466 | For any replies and on every path, exactly when a delete goes out and for which UUID: that VM, of a matching name, idle and without volume groups |
| VmDeletionActions.DetachesExactly | controllers/nutanixmachine_controller.go:422-437 | Exactly when a volume group is detached, which one, and from which VM |
| VmDeletionActions.WaitsExactly | controllers/nutanixmachine_controller.go:371-421 | Exactly when a reconcile waits: for a recovered VM to appear, or for a task of the VM settled on |
| VmDeletion.ReleaseIsFinalizer | controllers/nutanixmachine_controller.go:350-380 | The finalizer is removed by that and by nothing else |
| VmDeletion.FirstVolumeGroupIs | controllers/helpers.go:2653-2681 | The volume group to detach is the first one with an ExtId; none exactly when no disk has one |
| VmDeletion.DecoupledIsSkipped | controllers/nutanixmachine_controller.go:493-501 | A recorded VM that reads as decoupled is put on record as skipped, whatever else fails |
| VmDeletion.VmHasTaskInProgress | controllers/helpers.go:1462-1510 | True exactly when a task with an ExtId is running or queued; an empty UUID and a failed List are errors |
| VmDeletion.VolumeGroupDetachNeeded | controllers/nutanixmachine_controller.go:422-428 | True exactly when some disk is backed by a volume group |
| VmDeletion.DetachVolumeGroups | controllers/helpers.go:2653-2681 | At most one request, for the first volume group that has an ExtId |
| VmDeletion.MachineContext.ResolveRecoveredVmForDelete | controllers/nutanixmachine_controller.go:527-563 | The recovered VM on record unless it is decoupled too, then a live one by name, recorded |
| VmDeletion.MachineContext.VmToDelete | controllers/nutanixmachine_controller.go:481-523 | The VM to act on and the annotations left, on and off the metro path |
| VmDeletion.MachineContext.DeleteTarget | controllers/nutanixmachine_controller.go:383-466 | Fails, waits, detaches one volume group or deletes, in that order of checks |
| VmDeletion.MachineContext.ReconcileDelete | controllers/nutanixmachine_controller.go:325-467 | What a deleting reconcile does, and the object it leaves |
| VmDeletion.TargetIsLive | controllers/nutanixmachine_controller.go:481-523 | On the metro path, whatever VM is settled on was read in that reconcile as not decoupled and present |
| VmDeletion.DeleteTargetSafe | controllers/nutanixmachine_controller.go:386-451 | A delete on the metro path is for the VM settled on, which was read in that reconcile as live, with a matching name, no running or queued task and no volume group; it names the ExtId of that reply, or the recorded UUID when the reply has none |
| VmDeletion.DecoupledDeletedIff | controllers/nutanixmachine_controller.go:386-451 | A delete names a UUID that does not read as not decoupled if and only if the recorded VM is decoupled, the recovered one on record is live and comes back without an ExtId, and name, tasks and disks let it be deleted |
| VmDeletion.DecoupledNeverDeleted | controllers/nutanixmachine_controller.go:471-477 | So a delete never names a UUID that does not read as not decoupled, unless the recovered VM on record comes back without its ExtId |
| VmDeletion.NilExtIdAimsAtDecoupled | controllers/nutanixmachine_controller.go:386 | A recovered VM returned without ExtId makes the delete name the decoupled one |
| VmDeletion.DecoupledReleaseIff | controllers/nutanixmachine_controller.go:531-548 | While the recorded VM is decoupled, the finalizer goes if and only if a recovered VM is on record and reads as gone |
| VmDeletion.DecoupledKeepsFinalizer | controllers/nutanixmachine_controller.go:371-374 | Without one on record the finalizer stays: an error fails, no VM found waits |
| VmDeletion.SkippedStaysMetro | controllers/helpers.go:405-409 | Once a skipped VM is recorded, every later reconcile is on the metro path |
| VmDeletion.DecoupledReleaseHistory | controllers/nutanixmachine_controller.go:493-563 | A finalizer that goes while the recorded VM is decoupled has a history: an earlier reconcile found a live VM of the name and recorded it, and it now reads as gone |
| VmDeletionLiveness.AimIs | controllers/nutanixmachine_controller.go:481-563 | Against a Prism that shows its state, a reconcile settles on the aim that this state determines |
| VmDeletionLiveness.RoundDescends | controllers/nutanixmachine_controller.go:402-466 | Unless blocked, a round releases the finalizer or lowers (VMs left, volume-group disks left, unfinished tasks) lexicographically |
| VmDeletionLiveness.BlockedStable | controllers/nutanixmachine_controller.go:402-466 | No round makes a blocked state possible, or a possible one blocked |
| VmDeletionLiveness.BlockedForEver | controllers/helpers.go:2662-2665 | From a blocked state the finalizer stays in every later one |
| VmDeletionLiveness.Ends | controllers/nutanixmachine_controller.go:402-466 | From a state that is not blocked, some later one has no finalizer |
| VmDeletionLiveness.DeletionEndsIff | controllers/nutanixmachine_controller.go:402-466 | Rounds of reconcile and tick, with tasks of any length, reach the removal of the finalizer if and only if the first state is not blocked |
| SubnetPairing.SameKeyIff | controllers/helpers.go:1054-1068 | Two subnets have one key if and only if layer, VLAN and CIDR agree |
| SubnetPairing.SubnetNetworkKeys | controllers/helpers.go:1071-1094 | One key per subnet in order, or an error when the Prism element is not found or a subnet cannot be read |
| SubnetPairing.StringSliceSetEquals | controllers/helpers.go:1096-1111 | True exactly when the slices are equal as multisets |
| SubnetPairing.TakeFree | controllers/nutanixvirtualhadomain_controller.go:1167-1175 | The first free subnet with the key is taken and marked, and no other mark changes |
| SubnetPairing.MatchKeys | controllers/nutanixvirtualhadomain_controller.go:1162-1177 | Two aligned name lists, the k-th names those of the k-th greedy pair |
| SubnetPairing.PairSubnetsByL2 | controllers/nutanixvirtualhadomain_controller.go:1141-1205 | The paired names, or an error when a key cannot be read, no pair exists or there are not two sites |
| SubnetPairing.PairsMatch | controllers/nutanixvirtualhadomain_controller.go:1160-1177 | The greedy pairs are one-to-one and join equal keys |
| SubnetPairing.PairCount | controllers/nutanixvirtualhadomain_controller.go:1160-1177 | Their number is, summed over keys, the smaller of the two multiplicities |
| SubnetPairing.PairsMaximum | controllers/nutanixvirtualhadomain_controller.go:1160-1177 | No one-to-one pairing of equal keys is larger |
| SubnetPairing.NothingDroppedIff | controllers/nutanixvirtualhadomain_controller.go:1186-1202 | Nothing is dropped on either side if and only if the keys are equal as multisets |
| SubnetPairing.NetworkMappings | controllers/nutanixvirtualhadomain_controller.go:1082-1124 | One mapping per subnet index, with the network of every cluster at that index |
| SubnetPairing.OneMappingPerPair | controllers/nutanixvirtualhadomain_controller.go:1079-1124 | Over paired names there is one mapping per pair, and it joins two subnets of one L2 network |
| SubnetPairing.PairsInOrder | controllers/nutanixvirtualhadomain_controller.go:1160-1177 | The k-th subnet of a key on one side is paired with the k-th of that key on the other |
| SubnetPairing.KeyText | controllers/helpers.go:1054-1068 | The key as text: the parts between bars, with a stand-in for a missing layer only |
| VhaResources.SameNameIff | controllers/nutanixvirtualhadomain_controller.go:629-641 | Two generated names coincide if and only if the indices do and domain and group joined by a hyphen do |
| VhaResources.NamesDistinct | controllers/nutanixvirtualhadomain_controller.go:629-641 | So within one domain they are pairwise distinct |
| VhaResources.NamesClashAcrossDomains | controllers/nutanixvirtualhadomain_controller.go:629-641 | Two domains whose generated names clash |
| VhaResources.PrismCentral.GetOrCreate | controllers/helpers.go:1741-1809 | The resource of that name if it exists, or else a new one; a create may land and still be an error |
| VhaResources.GetOrCreateGroupCategories | controllers/nutanixvirtualhadomain_controller.go:653-678 | The two categories of a group in failure-domain order, stopping at a name that is too long |
| VhaResources.GetOrCreateCategories | controllers/nutanixvirtualhadomain_controller.go:424-431 | The categories of all groups in order |
| VhaResources.GetOrCreateProtectionPolicy | controllers/nutanixvirtualhadomain_controller.go:684-733 | A policy of the name is taken as it is; a new one is tagged with all the categories |
| VhaResources.GetOrCreateRecoveryPlans | controllers/nutanixvirtualhadomain_controller.go:797-933 | One plan per group and failure domain, in order; a plan may exist although its creation was reported as failed |
| VhaResources.EnsurePcResources | controllers/nutanixvirtualhadomain_controller.go:360-485 | Categories, then the policy, then the plans, then the spec; whatever fails leaves what was created |
| VhaResources.EnsureExtends | controllers/nutanixvirtualhadomain_controller.go:410-466 | However far a run gets, creates that land and fail included, it changes no resource it finds and creates under the domain's names only |
| VhaResources.EnsureCompletes | controllers/nutanixvirtualhadomain_controller.go:410-470 | After a successful run everything needed exists, and the spec names it |
| VhaResources.EnsureIdempotent | controllers/nutanixvirtualhadomain_controller.go:410-470 | A run from the spec that a successful run wrote creates nothing and writes the same spec, the synthesised group and the sorted names included |
| VhaResources.RetryKeepsProgress | controllers/nutanixvirtualhadomain_controller.go:410-470 | A run after one that was cut short anywhere adds only what is missing |
| VhaResources.NewPolicyCovers | controllers/nutanixvirtualhadomain_controller.go:713-733 | A policy created by a successful run is tagged with all the domain's categories, in order |
| VhaResources.OldPolicyKeepsTags | controllers/nutanixvirtualhadomain_controller.go:692-702 | A policy found by name keeps its tags, whatever the groups now are |
| VhaSpec.SpecIsUsers | controllers/nutanixvirtualhadomain_controller.go:410-470 | After a successful run the spec holds the groups that the user gave, or "default" if none, sorted; slot i of each names failure domain i and the category and plan of that slot, which exist; and the policy is the domain's |
| VhaSpec.NewPlansRecoverTheirs | controllers/nutanixvirtualhadomain_controller.go:797-933 | However far a run gets, a plan that it creates recovers the category of its own slot |
| VhaSpec.CategoriesStay | controllers/nutanixvirtualhadomain_controller.go:424-431 | What could be created stays however the run ends: with enough for the first n categories they exist afterwards, even if a later step fails |
| VhaSpec.AmpleSucceeds | controllers/nutanixvirtualhadomain_controller.go:360-485 | With two failure domains, names that fit and every call succeeding, a run succeeds |
| ClusterTeardown.RefersIff | controllers/helpers.go:2779-2788 | An owner reference is the cluster's if and only if it is a NutanixCluster's of that name, in any version of the infrastructure group |
| ClusterTeardown.OnlyOwnAsked | controllers/nutanixcluster_controller.go:293-310 | A pass asks for no domain but one that refers to this cluster and is not being deleted, and for none while a machine is left |
| ClusterTeardown.WaitsIff | controllers/nutanixcluster_controller.go:274-283 | It waits exactly while machines are left |
| ClusterTeardown.CutShort | controllers/nutanixcluster_controller.go:297-307 | A pass that is cut short has asked for the first of the domains that a whole one asks for |
| ClusterTeardown.DeletionOrder | controllers/nutanixvirtualhadomain_controller.go:935-1047 | However far a deletion gets, nothing goes but plans, the policy and categories of the spec; the policy only after the last plan, a category only after both |
| ClusterTeardown.DeletionKeeps | controllers/nutanixvirtualhadomain_controller.go:935-1047 | What stays is not changed |
| ClusterTeardown.CategoriesGo | controllers/nutanixvirtualhadomain_controller.go:1019-1047 | A deletion that succeeds leaves no category of the spec that Prism lets go |
| TeardownRuns.LiveClusterKeepsReplication | controllers/nutanixvirtualhadomain_controller.go:235-256 | While either owner lives, no reconcile of a domain removes or changes anything in Prism, or lets the domain go |
| TeardownRuns.CreatesUnderFinalizer | controllers/nutanixvirtualhadomain_controller.go:299-325 | What a reconcile creates has a name of a domain whose finalizer was stored before |
| ClusterTeardown.PrismCentral.DeleteProtectionPolicy | controllers/nutanixvirtualhadomain_controller.go:998-1017 | The recorded policy is deleted; one that is unset or already gone is no error |
| ClusterTeardown.DeleteRecoveryPlans | controllers/nutanixvirtualhadomain_controller.go:956-994 | The recorded plans are deleted in order up to the first failure, which may have been accepted by Prism |
| ClusterTeardown.DeletePcResources | controllers/nutanixvirtualhadomain_controller.go:937-952 | Plans, then the policy, then the categories; the first failure ends it |
| ClusterTeardown.GetOwnedVhaDomains | controllers/helpers.go:2769-2795 | The domains with an owner reference of the cluster's kind, name and API group, in order |
| ClusterTeardown.ReconcileClusterDelete | controllers/nutanixcluster_controller.go:270-346 | Waits for machines, then deletes owned domains not yet deleting, then cleans up and releases; a listing that fails ends it |
| ClusterTeardown.ReleaseIff | controllers/nutanixcluster_controller.go:270-336 | The finalizer goes if and only if both listings are read, no machine is left, no listed domain is owned and clean-up succeeds |
| ClusterTeardown.AsksForOwned | controllers/nutanixcluster_controller.go:297-310 | A pass whose requests succeed asks to delete exactly the owned domains that are not being deleted |
| TeardownRuns.VhaDomainContext.ReconcileDelete | controllers/nutanixvirtualhadomain_controller.go:231-286 | Nothing is deleted before both clusters are, and the finalizer goes only after everything recorded |
| TeardownRuns.VhaDomainContext.ReconcileNormal | controllers/nutanixvirtualhadomain_controller.go:288-323 | The finalizer is added in a reconcile of its own, and resources are created only later |
| TeardownRuns.VhaDomainContext.Reconcile | controllers/nutanixvirtualhadomain_controller.go:182-224 | Owner first, then one of the two, with the old spec back on failure: the step `DomainPass` of the run |
| TeardownRuns.ResourcesGone | controllers/nutanixvirtualhadomain_controller.go:937-1017 | A deletion that succeeds leaves no plan and no policy that the spec records |
| TeardownRuns.NextKeepsInv | controllers/nutanixvirtualhadomain_controller.go:299-305 | Every event keeps: a recorded resource that still lives is on record of a domain that holds its finalizer |
| TeardownRuns.RecordedHoldsFinalizer | controllers/nutanixvirtualhadomain_controller.go:299-305 | Over every run, a resource once on record that still lives is recorded by an owned domain with a finalizer |
| TeardownRuns.CheckIsClusterPass | controllers/nutanixcluster_controller.go:274-310 | In the run, the cluster is cleared exactly when `ReconcileClusterDelete`, over listings of what is stored, releases |
| TeardownRuns.CheckDeletesAsked | controllers/nutanixcluster_controller.go:297-310 | And exactly the domains that it asks to go are marked for deletion or, without a finalizer, gone |
| TeardownRuns.NothingLeftIff | controllers/nutanixvirtualhadomain_controller.go:231-305 | Over every run, at every moment: nothing ever recorded is left in Prism if and only if nothing is left of what domains have on record now |
| TeardownRuns.TeardownLeavesNothing | controllers/nutanixvirtualhadomain_controller.go:231-305 | Over every run, once the NutanixCluster is gone none of the plans and policies ever recorded is left, unless a domain became the cluster's between its last look and its patch |
| TeardownRuns.LateDomainIsLeftBehind | controllers/nutanixcluster_controller.go:287-336 | A run in which one does, and leaves its policy behind |
| Versions.CleanStrips | controllers/helpers.go:1923-1926 | The prefix `pc.` goes, in any letter case, and only once |
| Versions.CleanKeeps | controllers/helpers.go:1923-1926 | A lower-case version without prefix and white space stays as it is |
| Versions.CleanIgnoresSpace | controllers/helpers.go:1923-1926 | White space around a version makes no difference |
| Versions.Is7xIff | controllers/helpers.go:1901-1919 | The 7.x family: a 7 and one or more components of digits, each after a dot |
| Versions.Is202xIff | controllers/helpers.go:1899-1910 | The 202x family: 202, one digit, and components in the same way |
| Versions.AtoiSigned | controllers/helpers.go:1932 | A sign before the digits is read as one |
| Versions.ConvertStringToIntList | controllers/helpers.go:1928-1939 | The components of a parsed version, [9999] for any other |
| Versions.CompareVersions | controllers/helpers.go:1951-1977 | The sign of the comparison of the padded components |
| Versions.CompareIs | controllers/helpers.go:1962-1976 | Below, above or equal exactly as the lexicographic order of the lists padded with zeros |
| Versions.CompareReverses | controllers/helpers.go:1941-1977 | Swapping the operands negates the result |
| Versions.ListsTransitive | controllers/helpers.go:1941-1977 | The order on components is transitive, and equal only if every link is: a total preorder on all lists |
| Versions.TrailingZeros | controllers/helpers.go:1962-1967 | Zeros at the end of a version make no difference |
| Versions.MasterIsUnparseable | controllers/helpers.go:1952-1957 | Treating "master" apart changes nothing: it would be unparseable anyway |
| Versions.ComparePcVersions | controllers/helpers.go:1990-2020 | The comparison of the cleaned versions, with the two families apart |
| Versions.ComparePcReverses | controllers/helpers.go:1990-2020 | Antisymmetry on all strings |
| Versions.RankDecides | controllers/helpers.go:2002-2017 | On ordered versions the family decides first, every 202x below every 7.x, and components second |
| Versions.PcTransitive | controllers/helpers.go:1979-2020 | A total preorder on all 7.x versions, on 202x versions whose components fit and on all others below 7 or from 2030 on |
| Versions.UnparseableOnTop | controllers/helpers.go:1984-1988 | Unparseable versions other than 202x fit into the order, above all parseable versions of both families |
| Versions.UnparseableGreaterIff | controllers/helpers.go:1984-1988 | An unparseable version is greater than a parseable one if and only if that one is below 9999 and they are not a 202x and a 7.x |
| Versions.UnparseableEqualIff | controllers/helpers.go:1984-1988 | Two unparseable versions are equal if and only if they are not of the two families, one each |
| Versions.MasterBelowTenThousand | controllers/helpers.go:1984-1988 | An input that breaks the promise: master is below 10000 |
| Versions.OverflowingYearBelowSeven | controllers/helpers.go:2002-2017 | Another: a 2024 version with an overflowing component is below 7.3 |
| Versions.OthersCycle | controllers/helpers.go:2002-2019 | Any version between the families, of neither, lies in a cycle a <= v <= b < a with both |
| Versions.OrderedIff | controllers/helpers.go:1979-2020 | Of every string: it fits between any two ordered versions if and only if it is a 7.x, a 202x whose components fit, or another one below 7 or from 2030 on |
| Versions.IsPcVersionHigherThan75 | controllers/helpers.go:2022-2029 | The gate: a non-empty version not below 7.6 by components |
| Versions.GateAgreesIff | controllers/helpers.go:2022-2029 | The gate agrees with the order of versions if and only if the version is neither empty nor 202x |

## Left out

- PlacementRounds.PlacementConfluent: speaks of rounds only; single reads and writes in any order are in `PlacementInterleavings`.
- PlacementRounds.ArrivalsConfluent: the same; machines that are deleted, or labelled by somebody else, during a run are not part of it.
- PlacementInterleavings.BalancedIff: no machine is deleted during the run, and a machine has at most one reconcile under way, as the controller's work queue ensures.
- PlacementScope.FilterKeepsVerdicts: needs that the Machines which refer to one infrastructure machine, in practice one, are of one group; `FilterKeepsVerdictIff` has the exact condition.
- Labels that name a site outside the metro: `MetroPlacement` counts such a machine nowhere, as the code does; `JointRuns` excludes it.
- The CAPI label and annotation keys are constants of the Cluster API dependency, which is not part of this model.
- Placement after a failover: active placement from recovery-plan jobs, MetroSite placement, the fallback to the paired failure domain and their validation.
- JointRuns.BalancedForever: operations complete one after another, all machines of the set are live between them, and CAPI deletes only marked machines, as it does while there are enough of them.
- SubtaskErrors: the logging around the search, and `waitForConvergedOperation`, which only calls it.
- VmCreation.AtMostOneVm: reads of the NutanixMachine are current, Prism remembers request IDs for good, and the path through a VM profile, which carries no request ID, is not covered.
- VmCreation.MachineContext.CreateVm: the branch through a VM profile is not modelled, and everything that builds the create payload, from disks to project assignment, is one step that passes, fails for now or fails for good.
- VmCreation.MachineContext.FinishProvisioning: power-on is one flag, and readiness checks, addresses and the patch that writes the failure domain into status are another.
- VmCreation.MachineContext.ReconcileNormal: readiness of the owner, and the project and resource-group steps, are flags.
- VmCreation.AdoptionLeavesProviderId: a VM adopted by name is not protected by the provider ID; the lemma says so rather than hiding it.
- VmDeletion: conditions, requeue times and the deprecated finalizer, which goes together with the other one.
- VmDeletion.DecoupledReleaseHistory: starts from an object without a recovered VM on record, and assumes that nobody else edits the two annotations.
- VmDeletionLiveness.DeletionEndsIff: disaster recovery is quiet, decoupled VMs have no tasks, API calls succeed, each VM has at most one running task and each name pair one live VM. With failing calls or changing roles deletion may take for ever.
- SubnetPairing.SameKeyIff: the names of subnet types contain no bar, which holds of the Prism API's constants.
- SubnetPairing.NetworkMappings: callers name every cluster they pass.
- VhaResources.PrismCentral.GetOrCreate: nobody else creates a resource of a domain's names, so the answer that a category already exists, given between lookup and create, does not occur; nor does a policy or plan without a UUID.
- VhaResources.EnsurePcResources: the lookups before the first resource, subnet pairing among them, are the one flag `setUp`, and the branch of a ready domain is left out. The second lookup of the domain manager, before a policy is created, has no flag of its own, since its failure leaves what a failed category lookup there leaves. Policy schedules and plan contents other than the category covered are left out.
- TeardownRuns.VhaDomainContext.ReconcileNormal: the metro lookups are in the flag `setUp`; the validation of a domain that is ready, and how readiness is computed; a reconcile of a ready domain changes nothing that the model tracks.
- ClusterTeardown.DeletePcResources: which of the spec's categories Prism lets go is arbitrary, because failing to delete one is not an error; so nothing is claimed about categories left behind.
- TeardownRuns.TeardownLeavesNothing: a deletion that Prism reports as done has removed the plan, which the code makes sure of only if the reply carries a task to wait for. Only recorded resources are covered, since a create whose spec was never persisted leaves them unrecorded; nobody but the controller edits a domain's spec once it has been recorded; a domain's reconcile and its patch are one step.
- Versions: Go's strings are bytes, and letter case and white space beyond Latin-1 are not modelled; the two regular expressions always compile.
- VmLookup.RecordedUuid: the shapes accepted by the UUID library are taken from its documented behaviour; the library is not part of this model.
- Prism and Kubernetes clients, webhooks, informers, GPUs, storage, images, guest customisation, "in use" scans of metros and failure domains, cluster failure-domain status: input and output, field copying or easy existence loops.
