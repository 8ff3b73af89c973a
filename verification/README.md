# sigmond: a verified model

sigmond installs, places, updates and watches the software of HamSCI radio
stations. This project models the parts of it that decide things, in Dafny, and
proves what they promise.

| files | what they model |
|---|---|
| `Catalog`, `Prune` | install order over requirements; the operator's catalog laid over the shipped one, and its pruning |
| `CpuText`, `CpuPlacement`, `CpuAssign`, `AffinityPlan`, `HostLayout` | CPU lists as text; which cores radiod may have and gets; the plan for the whole host and the loop of planning, isolating, rebooting and planning again; a guest's cores on its host |
| `AlignPlan`, `AlignApply`, `AlignRun`, `AlignLive` | aligning checkouts to a release: the plan, one move as a transaction, a run over the plan, and what has to be restarted after it |
| `Fleet`, `FleetSafety` | the canary-first roll-out over a fleet |
| `LogLevel`, `LogLevelRuns` | timed log levels kept in an env file |
| `BindingText`, `Bindings`, `BindingRuns` | which radiod each client instance listens to, kept in coordination.toml |
| `DocsCache` | the documentation index and its cache of commit dates |
| `GapRows`, `GapVerdict` | gap counts from the sidecar files through the log to the verdict |
| `Bringup`, `BringupContent`, `BringupOrder`, `BringupStarts` | the bring-up plan of a station: how it is built, what it holds, and in which order |
| `Text`, `Lists` | strings and lists |

What the code does in place is a class or a method with loops, proved against a
function of its inputs or its old state; the laws are lemmas about those
functions. The outside world is a parameter: git, installers, builders and hosts
answer anything that their commands can answer, clocks are numbers, and what is
read from disk is a value. `dafny verify dfyconfig.toml` checks everything.

Some promises hold only under a condition, and the model says which:

- A component required both by name and by alias is listed twice
  (`Catalog.ComponentsOnceIffSpelledOneWay`).
- An isolation from before can make radiod move once after the reboot
  (`AffinityPlan.RebootConverges`); it never moves twice
  (`AffinityPlan.TwoRebootsSuffice`).
- A checkout that was cut off after it happened leaves HEAD at the target with
  nothing else done, and no later run makes up for it
  (`AlignRun.FailedMoveReplans`, `AlignRun.CutOffMoveExists`).
- A pin that could not be refreshed is noted, and the run counts as successful
  (`AlignRun.SuccessfulRunIsPinned`, `AlignRun.StalePinPasses`).
- A host whose plan failed with nothing but white space on its error output is
  updated all the same (`FleetSafety.FailedPlanIsApplied`), and one whose failure
  speaks of a missing file or command counts as verified
  (`FleetSafety.FailedPlanIsVerified`, `FleetSafety.BrokenPlanPasses`).
- A second line for a key hides a level that is set
  (`LogLevel.UpsertIsRead`, `LogLevel.MaskedWriteIsIdle`), and a plain setting that is cut off forgets the
  level to go back to (`LogLevelRuns.CutPlainForgets`,
  `LogLevelRuns.CutPlainKeepsRaised`).
- A binding written under a header that ends the file without a newline is lost
  (`BindingRuns.WrittenIsReadBack`, `BindingRuns.UnendedHeaderExists`).
- Pruning removes values equal in Python, where its documentation says
  byte-equal (`Prune.ExactlySameWhenIdentical`), and profile blocks with them
  (`Prune.ProfilesSurviveOnlyWithoutWork`).
- A gap row appended to a torn line hides its sample
  (`GapVerdict.TornRowHidesSample`).
- Negative gap counts can cancel gaps (`GapVerdict.OppositeCountsCancel`).
- A HEAD that moves while it is read leaves a wrong cache entry behind
  (`DocsCache.MovedHeadIsRemembered`).

## Model

| member | source | states |
|---|---|---|
| Catalog.TransitiveRequires | lib/sigmond/catalog.py:478-508 | on any catalog, cycles included: ends, and lists once each exactly the names with an entry that the component directly or indirectly requires, itself excluded, each after everything it requires unless that leads back to it |
| Catalog.Visit.Run | lib/sigmond/catalog.py:491-505 | one visit keeps the walk's invariant: what is listed is settled, and what an ended visit requires has been met |
| Catalog.AcyclicInstallsRequirementsFirst | lib/sigmond/catalog.py:478-508 | without cycles, installing down the list never meets a component whose requirement is not installed yet |
| Catalog.ComponentsOnceIffSpelledOneWay | lib/sigmond/catalog.py:491-501 | names are compared as written: no component is listed twice if and only if the requirement lists spell each component one way |
| Catalog.CanonicalNamesAreSpelledOneWay | lib/sigmond/catalog.py:450-475 | with canonical names only, that condition holds |
| Catalog.AliasListsComponentTwice | lib/sigmond/catalog.py:491-501 | a concrete catalog where a requirement by alias lists the component a second time |
| CpuText.ParseCpuMask | lib/sigmond/cpu.py:144-163 | the set of all CPUs that the tokens name, inclusive ranges and single numbers; unreadable tokens name none |
| CpuText.ParseCmdlineCpuParam | lib/sigmond/cpu.py:1022-1037 | the union over all tokens and comma-separated chunks of the named parameter, flags adding nothing |
| CpuText.CpusToRangeStr | lib/sigmond/cpu.py:497-508 | the index loop prints exactly the runs of the sorted CPUs |
| CpuText.RunsCover | lib/sigmond/cpu.py:497-508 | the printed ranges name the CPUs of the list and no others |
| CpuText.RangesAreMaximal | lib/sigmond/cpu.py:497-508 | ranges ascend, are not empty, and no two could be merged |
| CpuText.MaskOfRangeText | lib/sigmond/cpu.py:144-163 | printing a set of CPUs and parsing it gives the set back, for every finite set |
| CpuText.BootIsolatesStagedCpus | lib/sigmond/cpu.py:811-841 | a command line that carries the rendered drop-in parses to the staged CPUs and what the rest of the line already named, so no reboot is pending |
| CpuText.RebootIsPendingWhen | lib/sigmond/cpu.py:831-841 | a reboot is pending exactly when some wanted CPU is not isolated yet |
| CpuPlacement.EligibleAreHostCores | lib/sigmond/cpu.py:251-322 | eligible cores are distinct host cores, fast ones, and off the boot CPU when there is any fast core off it |
| CpuPlacement.EligiblePrefersIsolated | lib/sigmond/cpu.py:251-322 | which cores are eligible: all fast ones when none is off the boot CPU, all off it when nothing is isolated there; else the isolated ones first, and then the highest of the others until there are as many as needed or no more |
| CpuPlacement.EligibleAreCandidates | lib/sigmond/cpu.py:251-322 | in terms of the host: only whole performance cores where there are any to tell, and the boot CPU's only when every such core is on it; all of them unless some are isolated, then all the isolated ones and just as many of the highest others as are missing |
| CpuAssign.DistributeCores | lib/sigmond/cpu.py:363-386 | the two loops: pinned units keep free chosen cores, the others take what is free in order, then share the last |
| CpuAssign.AssignRadiodCores | lib/sigmond/cpu.py:325-386 | placement or operator override as the specification function says |
| CpuAssign.PlacedOnFastCores | lib/sigmond/cpu.py:325-416 | with no override every unit's CPUs are one core of the host, within the performance set where there is one and off the boot CPU where another is; a unit gets none exactly when no core is within it, and then all units are reported short |
| CpuAssign.OverrideIsShared | lib/sigmond/cpu.py:356-360 | CPUs that the operator names are every unit's, and no unit is short of a core |
| CpuAssign.DistributeConsistent | lib/sigmond/cpu.py:363-386 | each chosen core is free or in use, never both; one is shared only when all are in use, and then the last |
| CpuAssign.UnitsUseChosenCores | lib/sigmond/cpu.py:325-416 | units use exactly min(units, eligible) whole host cores, so the units without a core of their own number the shortfall |
| CpuAssign.RunningUnitStaysPut | lib/sigmond/cpu.py:325-386 | a unit whose unshared pin is still chosen keeps it |
| CpuAssign.SpreadIsKept | lib/sigmond/cpu.py:325-386 | units already spread over the chosen cores all stay |
| CpuAssign.PlacementIsFixpoint | lib/sigmond/cpu.py:325-386 | placement fed back as the current pins moves nothing |
| AffinityPlan.L3IslandCpusFor | lib/sigmond/cpu.py:721-735 | the union of the islands that touch radiod's CPUs |
| AffinityPlan.PlanDividesTheHost | lib/sigmond/cpu.py:844-936 | with no pool of the operator's own: radiod's, other and idle CPUs are apart where islands cover radiod, contain the host's CPUs, and are exactly these when radiod's CPUs and island are the host's; what is to be isolated is never given to others |
| AffinityPlan.SegregatedPlanIsolatesTheIsland | lib/sigmond/cpu.py:753-774 | on a divided L3 that is used, radiod's whole island is what is isolated |
| AffinityPlan.SplitL3Is | lib/sigmond/cpu.py:738-750 | the L3 is divided when two islands have CPUs and one has fewer than the host |
| AffinityPlan.CpusAre | lib/sigmond/cpu.py:896-897 | the host's CPUs are numbered from zero |
| AffinityPlan.OthersGet | lib/sigmond/cpu.py:902-926 | everyone else gets all CPUs outside radiod's island where the division is there and wanted, and all but radiod's own otherwise; what is left of the island stays idle |
| AffinityPlan.PoolIsTheOperators | lib/sigmond/cpu.py:909-913 | a pool that the operator names is used as it stands, and when it reaches into the island only radiod's own CPUs are isolated |
| AffinityPlan.FencedChoice | lib/sigmond/cpu.py:251-322 | once enough whole cores are isolated, the highest of them are chosen |
| AffinityPlan.PlacementSurvivesReboot | lib/sigmond/cpu.py:325-386 | planning again after the reboot keeps every unit in place if and only if radiod's cores are the highest of the isolated ones |
| AffinityPlan.RebootConverges | lib/sigmond/cpu.py:753-841 | with a core for every unit, plan, stage, boot on any command line that carries the drop-in, re-plan closes with the same plan and none pending if and only if radiod's cores are the highest of all that this command line isolates |
| AffinityPlan.NextPlanIsReplan | lib/sigmond/cpu.py:811-841 | booting isolates the staged CPUs and what the rest of the command line names, which is what the next plan sees |
| AffinityPlan.OwnCoresConverge | lib/sigmond/cpu.py:753-774 | isolating only radiod's own cores always converges, whatever was isolated before, when the rest of the command line isolates nothing new |
| AffinityPlan.FirstIsolationConverges | lib/sigmond/cpu.py:753-774 | so does a first isolation of radiod's whole island, whatever the rest of the command line isolates |
| AffinityPlan.NextPlanWantsNoMore | lib/sigmond/cpu.py:753-774 | the second plan never asks for CPUs that the first did not isolate |
| AffinityPlan.TwoReplansSuffice | lib/sigmond/cpu.py:844-936 | the same of two re-plans, in terms of the isolated sets |
| AffinityPlan.TwoRebootsSuffice | lib/sigmond/cpu.py:844-936 | however the host was isolated before, the plan after the first boot on the staged command line is the plan after the second, with none pending, when the rest of the line isolates nothing new, and either nothing or no core straddles islands |
| AffinityPlan.EarlierIsolationCanMoveRadiod | lib/sigmond/cpu.py:251-322 | a concrete host where an earlier isolation makes radiod move once |
| HostLayout.VcpuMapIsInjective | lib/sigmond/cpu.py:479-494 | distinct guest CPUs run on distinct host CPUs |
| HostLayout.GuestCoreLandsOnPair | lib/sigmond/cpu.py:479-494 | guest core k is host pair k, whole |
| HostLayout.GuestPlacementIsHostLayout | lib/sigmond/cpu.py:419-494 | the placement of a guest with no pins yet and nothing isolated yet, carried through the CPU map, is the host's radiod pairs unit by unit and never a worker or reserved pair |
| HostLayout.LayoutExists | lib/sigmond/cpu.py:452-470 | there is a layout exactly when there is a radiod, every core has two CPUs, and the pairs cover the reserve, the radiods and one worker; which refusal there is otherwise |
| HostLayout.LayoutDividesThePairs | lib/sigmond/cpu.py:471-478 | the guest has all but the last reserved pairs, the radiods the last of these and the workers the rest, each pair the host's |
| AlignPlan.PlanAlign | lib/sigmond/align.py:177-209 | the two loops build the specified plan: pinned components by plan order, then strays by name |
| AlignPlan.Classify | lib/sigmond/align.py:212-236 | the loop gives each item the action that the checkout's state calls for |
| AlignPlan.ClassifiedIs | lib/sigmond/align.py:212-229 | in terms of ancestry alone: forward when HEAD is an ancestor of the pin, ahead when only the pin is one of HEAD, diverged when neither, refused when git cannot tell |
| AlignPlan.MoveIsPlanned | lib/sigmond/align.py:177-209 | a move is planned exactly when HEAD was read and is not the pin, the state was read and nothing but uv.lock and the pin file is changed; current, missing and refused otherwise |
| AlignPlan.PlanCoversEverything | lib/sigmond/align.py:177-229 | one item for each pinned component, one stray for each other checkout, nothing else, in plan order |
| AlignPlan.PlanHasNoRepeats | lib/sigmond/align.py:177-209 | no component is planned twice |
| AlignPlan.LibrariesComeFirst | lib/sigmond/align.py:138-152 | in every plan sigmond comes first, then the shared libraries in their own order, then the others by name |
| AlignPlan.TextLeqIs | lib/sigmond/align.py:138-152 | names are compared as dictionaries do |
| AlignPlan.SortItems | lib/sigmond/align.py:146-152 | sorting by the plan order is a permutation in that order |
| AlignApply.Checkout.Move | lib/sigmond/align_apply.py:380-502 | a move is a transaction under any failures of git, installers and builders, with one exception: moved means HEAD and pin are the target and everything owed was done there; otherwise both are as before unless a failed rollback is flagged or the checkout was cut off (timed out, or reported as failed after it happened), and then HEAD may be the target while pin, binary and install are the old ones; local changes survive; radiod's binary is HEAD's unless some note is made; HEAD changes only where the origin is the catalog's, origin vouches for the commit, and nothing but uv.lock and the pin file is changed, and a refusal has one of these reasons |
| AlignApply.Checkout.Prepare | lib/sigmond/align_apply.py:380-440 | up to the checkout nothing but remote refs changes; it ends with where to go and what to come back to |
| AlignApply.Checkout.FetchTarget | lib/sigmond/align_apply.py:388-418 | the origin is the catalog's, the remote is fetched, and the target is one commit that origin vouches for, or the step ends here |
| AlignApply.Checkout.FollowThrough | lib/sigmond/align_apply.py:455-502 | pin, then build or install; any failure rolls back |
| AlignApply.Checkout.RollBack | lib/sigmond/align_apply.py:312-349 | pin first, then a lone uv.lock, then branch or commit: without a failure note all are as before |
| AlignApply.Checkout.RollBackAndRebuild | lib/sigmond/align_apply.py:352-377 | the same and a rebuild, so an unflagged result has the old commit's binary |
| AlignApply.Checkout.RefreshPin | lib/sigmond/align_apply.py:521-553 | an absent or wrong pin is rewritten to HEAD's commit, a matching one left |
| AlignApply.Checkout.BuildCurrent | lib/sigmond/align_apply.py:505-518 | a current component ends with a build of HEAD or says why not |
| AlignApply.Checkout.PinAndCompare | lib/sigmond/align_apply.py:297-309 | writes the pin and lists what the move changes; on failure says so |
| AlignApply.Checkout.InstallAt | lib/sigmond/align_apply.py:455-502 | the install or build owed at the new commit |
| AlignRun.Station.ApplyPlan | lib/sigmond/align_apply.py:556-604 | one step for each item in order, each with its own checkout's effect, the pin of a current one included, skipping after a stop |
| AlignRun.RunStopsOnce | lib/sigmond/align_apply.py:556-604 | at most one step failed and it is the last executed; bytes fetched before it stay within the budget |
| AlignRun.StopLeavesTheRest | lib/sigmond/align_apply.py:556-604 | everything after a failed step, or after the step that spends the byte budget, is skipped and as it was |
| AlignRun.SuccessfulRunIsAligned | lib/sigmond/align_apply.py:556-604 | after a run without failed, skipped or refused steps, planning again finds every pinned component current, or ahead where rollback was not allowed, and else only strays |
| AlignRun.AlignedRunMovesNothing | lib/sigmond/align_apply.py:556-604 | so a second run checks nothing out |
| AlignRun.HeadsMoveTowardsPins | lib/sigmond/align_apply.py:556-604 | a run changes the HEAD of a pinned checkout only, from an ancestor of its pin, or from a descendant where going back is allowed, to a commit that the pin names and origin vouches for, and never over local changes |
| AlignRun.LeftIsStrayOrAhead | lib/sigmond/align_apply.py:584-590 | no run loses a checkout, and one that is left is no part of the release or is ahead of its pin where going back is not allowed |
| AlignRun.SuccessfulRunIsPinned | lib/sigmond/align_apply.py:521-553 | after such a run every pin names the release's commit, but for components left ahead and those whose step says the pin was not refreshed |
| AlignRun.StalePinPasses | lib/sigmond/align_apply.py:521-553 | a successful run that leaves a pin naming another commit |
| AlignRun.FailedMoveReplans | lib/sigmond/align_apply.py:441-453 | after a failed step without a failed rollback, planning again finds the component current if and only if HEAD moved, which only a cut-off checkout does, with the old pin and nothing made at the target; else it finds the item the step started from, or refuses a checkout that a build left dirty |
| AlignRun.RunAtPinBuildsNothing | lib/sigmond/align_apply.py:562-566 | and no later run makes up for it: a checkout at its pin keeps the radiod and the install it has |
| AlignRun.CutOffMoveExists | lib/sigmond/align_apply.py:441-447 | such a step, for any component and any two commits |
| AlignRun.PlannedItem | lib/sigmond/align.py:212-236 | the item a pinned component gets, from the state of its checkout |
| AlignRun.PrefixIsEqualSha | lib/sigmond/doctor.py:432-457 | a pin that is a long enough prefix of HEAD's name counts as equal |
| AlignLive.StaleComponents | lib/sigmond/align_live.py:16-39 | exactly the components whose own or imported code moved after they started |
| AlignLive.PredictedRestarts | lib/sigmond/align_live.py:42-60 | the dry run's set of restarts |
| AlignLive.RestartSequence | lib/sigmond/align_live.py:63-72 | the stale components in restart order |
| AlignLive.StaleAfterMoves | lib/sigmond/align_live.py:16-39 | moving after everything started makes stale exactly what moved or imports what moved |
| AlignLive.PredictionIsWhatHappens | lib/sigmond/align_live.py:42-72 | the prediction is the restart sequence, except exactly when radiod is itself listed as importer or consumer of what moves |
| AlignLive.RestartClearsWhatItRestarts | lib/sigmond/align_live.py:16-39 | a partial restart leaves exactly the rest stale |
| AlignLive.WholeSequenceClearsAll | lib/sigmond/align_live.py:63-72 | the whole sequence leaves nothing stale |
| Fleet.Network.FleetUpdate | lib/sigmond/fleet.py:883-924 | results and the whole trace of commands of one roll-out, for any replies of the hosts |
| Fleet.Network.Wave | lib/sigmond/fleet.py:908-922 | hosts one after another until one is not verified; the rest are reported halted without being contacted |
| Fleet.Network.UpdateOne | lib/sigmond/fleet.py:1049-1074 | what one host is sent and what its replies come to |
| Fleet.Network.PlanOnly | lib/sigmond/fleet.py:967-985 | a plan sends no apply command |
| Fleet.Network.HasArrived | lib/sigmond/fleet.py:1002-1029 | verified only if the last answer was that there is nothing to do and, where positions can be had, the host is level with main |
| FleetSafety.ChoiceIgnoresOrder | lib/sigmond/fleet.py:841-880 | the canary does not depend on the inventory's order |
| Fleet.LeaderIsDeclared | lib/sigmond/fleet.py:841-880 | a host leads if and only if it is not frozen and the one marked, or none is marked and it is the only one not frozen |
| FleetSafety.BlastRadiusIsOne | lib/sigmond/fleet.py:883-924 | a host is contacted only after the canary and every host before were verified; once one is not, no later host hears anything |
| FleetSafety.HaltedWereNotContacted | lib/sigmond/fleet.py:908-922 | a host of the roll-out is reported as halted exactly when it was not contacted |
| FleetSafety.SkippedIsReported | lib/sigmond/fleet.py:899-902 | how a frozen host is reported |
| FleetSafety.ApplyFollowsVerification | lib/sigmond/fleet.py:1049-1074 | whenever the apply command is sent, every host contacted before has been seen to arrive |
| FleetSafety.FrozenHostsHearNothing | lib/sigmond/fleet.py:883-924 | no command reaches a frozen host and none gets the apply command twice |
| FleetSafety.DryRunOnlyLooks | lib/sigmond/fleet.py:904-907 | a dry run sends no apply command |
| Fleet.ResultsCoverFleet | lib/sigmond/fleet.py:927-934 | each host is reported once, in the inventory's order |
| Fleet.ReportFollowsInventory | lib/sigmond/fleet.py:927-934 | sorting results by inventory position lists the inventory |
| FleetSafety.FailedPlanIsApplied | lib/sigmond/fleet.py:1049-1074 | a host whose plan failed is updated anyway if and only if the failure put only white space on its error output |
| FleetSafety.SilentFailureExists | lib/sigmond/fleet.py:1049-1074 | such a failure exists |
| FleetSafety.FailedPlanIsVerified | lib/sigmond/fleet.py:791-800 | a host whose plan failed otherwise is counted as verified, and never updated, if and only if the exit code is 127 or the reply holds one of two phrases |
| FleetSafety.BrokenPlanPasses | lib/sigmond/fleet.py:791-800 | so a plan that broke on a host that has sigmond passes, whatever stands around the phrase |
| FleetSafety.ContainsIs | lib/sigmond/fleet.py:799-800 | a text contains a part exactly when something before it, it and something after it make up the text |
| FleetSafety.SaysCurrentIs | lib/sigmond/fleet.py:967-999 | a reply says that there is nothing to do exactly when the update ended well, or held components back, and the words stand in its output |
| FleetSafety.SmdAbsentIs | lib/sigmond/fleet.py:791-800 | a reply is that of a host without sigmond exactly when it failed with 127 or failed naming a missing command or file |
| LogLevel.EnvFile.SetLogLevel | lib/sigmond/log_cmd.py:99-130 | refuses an unknown level before writing; otherwise makes the plain or the timed writes, in order |
| LogLevel.EnvFile.ExpireLogLevels | lib/sigmond/log_cmd.py:145-175 | restores or removes the levels that are due, and nothing else |
| LogLevel.EnvFile.ReadEnv | lib/sigmond/log_cmd.py:133-142 | of several lines for a key the last counts |
| LogLevel.EnvFile.UpsertEnvLine | lib/sigmond/log_cmd.py:197-215 | replaces the first line for the key or appends one |
| LogLevel.EnvFile.RewriteEnv | lib/sigmond/log_cmd.py:178-189 | each line dropped, rewritten or kept as the edits say |
| LogLevel.EnvFile.DropEnvKeys | lib/sigmond/log_cmd.py:192-194 | the lines of the keys are gone, the others stay |
| LogLevel.UpsertIsRead | lib/sigmond/log_cmd.py:197-215 | a write is read back if and only if no further line for the key stands below the one replaced; other keys keep their value |
| LogLevel.UpsertChangesOneLine | lib/sigmond/log_cmd.py:197-215 | a write replaces the first line that begins with the key and the equals sign and leaves all others, or adds one at the end, after a blank line where the file ends with a plain one |
| LogLevel.MaskedWriteIsIdle | lib/sigmond/log_cmd.py:197-215 | a file with two lines for the key, where a write changes nothing that is read |
| LogLevel.RewriteIsRead | lib/sigmond/log_cmd.py:178-189 | a rewrite changes what it names and nothing else |
| LogLevel.EditedStaysTidy | lib/sigmond/log_cmd.py:178-189 | editing lines never gives a key a second line |
| LogLevelRuns.StepRefines | lib/sigmond/log_cmd.py:99-215 | each operation does to every client's lines what it does to the client's state |
| LogLevelRuns.RunRefines | lib/sigmond/log_cmd.py:99-215 | any run of settings, raises, expiries and cut-off operations refines one state machine for each client |
| LogLevelRuns.RaisesKeepWhatIsOwed | lib/sigmond/log_cmd.py:121-130 | raises, cut-off raises and expiries never lose the value to go back to |
| LogLevelRuns.ExpiryRestores | lib/sigmond/log_cmd.py:145-175 | once the recorded time reads as one that has come, an expiry restores the value from before the first raise since the last plain setting, or removes the key |
| LogLevelRuns.ExpiryEnds | lib/sigmond/log_cmd.py:145-175 | an expiry ends a raise exactly when its recorded time is there, can be read and has come, and else leaves the client's level as it is; what the level then is |
| LogLevelRuns.RaiseLastsUntil | lib/sigmond/log_cmd.py:121-130 | a raised level holds before its time and is what it was before the raise from then on |
| LogLevelRuns.PlainSupersedes | lib/sigmond/log_cmd.py:119-121 | a plain setting ends any raise |
| LogLevelRuns.CutPlainForgets | lib/sigmond/log_cmd.py:119-121 | a plain setting cut off between its writes keeps what is owed if and only if the level was not raised |
| LogLevelRuns.CutPlainKeepsRaised | lib/sigmond/log_cmd.py:119-121 | a raised level that a plain setting cut off after its first write leaves in force for good |
| LogLevelRuns.OtherLinesStay | lib/sigmond/log_cmd.py:178-215 | comments and other keys' lines survive every operation in order |
| BindingText.KindsAreTheTests | lib/sigmond/coordination.py:538-563 | the tests made of a line exclude one another |
| BindingText.HeaderLineIs | lib/sigmond/coordination.py:538-539 | a header that is written matches the header pattern with its client's name |
| BindingText.InstanceLineIs | lib/sigmond/coordination.py:562-563 | so does an instance line |
| BindingText.RadiodLineIs | lib/sigmond/coordination.py:562-563 | so does a radiod line |
| BindingText.SingleQuotesAreRead | lib/sigmond/coordination.py:562-563 | a value in single quotes is read as well |
| BindingText.QuotedHeaderIsRead | lib/sigmond/coordination.py:538-539 | a header may quote its client, and a comment may follow it |
| BindingText.BracketedStays | lib/sigmond/coordination.py:661-662 | a line that opens with a bracket still does with text joined to it |
| BindingText.StorageFormIsAccepted | lib/sigmond/coordination.py:559 | a reporter id in capitals, typed with a slash, is accepted in storage form |
| BindingText.HostNameIsAccepted | lib/sigmond/coordination.py:558 | a host name is accepted as a radiod id |
| BindingText.NamesAreHarmless | lib/sigmond/coordination.py:651-657 | no accepted name holds a quote, a bracket, a line break or a space |
| Bindings.CoordinationFile.EnsureClientBinding | lib/sigmond/coordination.py:638-694 | refuses bad names; otherwise leaves the file alone or makes one step, for every list of lines |
| Bindings.CoordinationFile.ScanBlock | lib/sigmond/coordination.py:661-669 | where the block ends, its last instance and its last radiod line |
| Bindings.RadiodReplaced | lib/sigmond/coordination.py:672-677 | replacing the block's radiod line rebinds that instance's first block and changes no other |
| Bindings.RadiodInserted | lib/sigmond/coordination.py:678-679 | so does inserting one into a block without |
| Bindings.BlockAppended | lib/sigmond/coordination.py:684-694 | appending a block binds an instance that had none |
| Bindings.AddedText | lib/sigmond/coordination.py:684-694 | the text after a block is added: the old one, ended by a newline, a blank line unless it was blank, and the three lines |
| Bindings.BlockIsLookedUp | lib/sigmond/coordination.py:658-671 | the block the scan finds is the one that is read back |
| BindingRuns.StepBinds | lib/sigmond/coordination.py:638-694 | on a sound file a call rebinds its instance, leaves the others' blocks, and keeps the file sound |
| BindingRuns.BindKeepsOthers | lib/sigmond/coordination.py:638-694 | the blocks of other instances stay, in order |
| BindingRuns.BindKeepsOne | lib/sigmond/coordination.py:641-646 | at most one block for each instance is preserved |
| BindingRuns.RepeatIsIdle | lib/sigmond/coordination.py:675-676 | a repeat of a call returns False and leaves the text |
| BindingRuns.WroteWhenMapChanges | lib/sigmond/coordination.py:641-646 | True is returned if and only if the map of bindings changes |
| BindingRuns.LastWriteWins | lib/sigmond/coordination.py:638-694 | bindings made one after another are a last-write-wins map |
| BindingRuns.RunRefinesMap | lib/sigmond/coordination.py:638-694 | any run of calls on a sound file reads back as that map |
| BindingRuns.WrittenIsReadBack | lib/sigmond/coordination.py:678-681 | on any file, a reported write is read back if and only if the block was not an unended header on the last line |
| BindingRuns.JoinedLineIsLost | lib/sigmond/coordination.py:678-681 | in that case the binding joins the header's line and is not read back |
| BindingRuns.UnendedHeaderExists | lib/sigmond/coordination.py:678-681 | a file where that happens, for any client and radiod |
| GapRows.SummariseWindow | lib/sigmond/gap_hourly.py:65-110 | count and sum over exactly the sidecars of the window; NA when there is none |
| GapRows.BuildRow | lib/sigmond/gap_hourly.py:178-192 | the row of one sample, of the sidecars it is given |
| GapRows.GapLog.AppendRow | lib/sigmond/gap_hourly.py:146-154 | the row goes to the end, after the header in a new file |
| GapVerdict.RowIsAppended | lib/sigmond/gap_hourly.py:150-154 | a row becomes a row of its own if and only if the file was empty or ended with a line break |
| GapVerdict.LogKeepsRows | lib/sigmond/gap_hourly.py:146-154 | a log started from no file keeps every row in order |
| GapVerdict.SampleIsRead | lib/sigmond/heartbeat.py:718-762 | a sample's fields are read back as written |
| GapVerdict.VerdictOnSample | lib/sigmond/heartbeat.py:377-419 | from any sidecars through the row, in a log whose last line is ended, to the verdict: INDETERMINATE when stale or nothing measured, else INVALID if and only if the counts sum to more than zero |
| GapVerdict.HonestVerdict | lib/sigmond/heartbeat.py:377-419 | with counts not negative: INVALID if and only if the row is read within two hours and some sidecar of the hour before it reports a gap, INDETERMINATE if and only if it is read too late or too early or no sidecar is of that hour |
| GapVerdict.HoursAndRate | lib/sigmond/gap_hourly.py:95-110 | each sidecar stands for five minutes of one channel: the row gives the hours that makes and the gaps for each such hour |
| GapVerdict.OppositeCountsCancel | lib/sigmond/gap_hourly.py:88-90 | counts +1 and -1 give VALID |
| GapVerdict.VerdictOnUnended | lib/sigmond/heartbeat.py:718-762 | what is read after a row is appended to a log whose last line is not ended: the rows before when that line is a comment, else the line and the row run together |
| GapVerdict.TornRowHidesSample | lib/sigmond/heartbeat.py:718-762 | so when three fields or more of the torn line are there, its time and count are read and the new ones are not |
| GapVerdict.TornSampleIsJudgedAgain | lib/sigmond/heartbeat.py:377-419 | and a sample torn after its fourth field is judged again in place of the new one |
| Prune.LayOver | lib/sigmond/catalog.py:429-432 | a layer laid over another, key by key |
| Prune.PruneBlock | lib/sigmond/catalog_prune.py:69-78 | keeps exactly the keys that do not repeat the repository's value |
| Prune.PruneSection | lib/sigmond/catalog_prune.py:99-117 | the minimal section, and the reported drops, kept blocks and pruned keys |
| Prune.OperatorCatalog.PruneOperatorCatalog | lib/sigmond/catalog_prune.py:167-201 | content, backup and report in every case: nothing to do, dry run, file removed, rewritten, and a value that cannot be printed |
| Prune.PruneKeepsMeaning | lib/sigmond/catalog.py:398-438 | the merged client and deprecated catalogs are the same before and after, for every discovery layer, repository file and operator file |
| Prune.PyEqIsAlike | lib/sigmond/catalog_prune.py:75-76 | equal in Python means the same value, two ways to write one number, or lists that differ only in such numbers |
| Prune.TextsAreAlikeWhenSame | lib/sigmond/catalog_prune.py:75-76 | a text, a table or a date is like itself alone |
| Prune.PruneRewritesOnlyNumbers | lib/sigmond/catalog_prune.py:69-117 | where a merged catalog reads differently after pruning, it does so by the way a number is written |
| Prune.OverridesStay | lib/sigmond/catalog_prune.py:69-78 | what the operator set to something else than the repository's file says stays in the operator's file and is read as before |
| Prune.HighestLayerWins | lib/sigmond/catalog.py:398-438 | a setting is the operator's, else the repository's, else the discovered one, and deprecated entries are gone |
| Prune.PruneComesTo | lib/sigmond/catalog_prune.py:178-201 | there is work exactly when some key repeats the repository's value or some block is empty where the repository has it; the writing fails exactly when a value is left that is no text, whole number, truth value or list of these; the file goes exactly when nothing is left |
| Prune.PruneTwice | lib/sigmond/catalog_prune.py:178-181 | pruning again finds nothing to do |
| Prune.MinimalIsLeast | lib/sigmond/catalog_prune.py:69-117 | every block and key kept is in every operator section with the same meaning |
| Prune.ExactlySameWhenIdentical | lib/sigmond/catalog_prune.py:75-76 | the merged values are the very same if and only if each pruned value is identical, not only equal in Python |
| Prune.TrueReadsAsOne | lib/sigmond/catalog_prune.py:75-76 | a case where they are equal and not identical |
| Prune.UpstreamShows | lib/sigmond/catalog_prune.py:6-10 | a pruned key follows later versions of the repository's file |
| Prune.ProfilesSurviveOnlyWithoutWork | lib/sigmond/catalog_prune.py:55-66 | profile blocks are lost if and only if something is pruned and they say something |
| DocsCache.GitLastCommits | lib/sigmond/docs_index.py:158-194 | the nested first-seen loops date each file by its newest commit, leaving out those dated by a shallow boundary |
| DocsCache.BuildIndex | lib/sigmond/docs_index.py:291-340 | index and new cache as the specification functions say |
| DocsCache.BuildRoot | lib/sigmond/docs_index.py:258-279 | one document for each page, dated and marked |
| DocsCache.PageSays | lib/sigmond/docs_index.py:272-284 | a page is dated by the newest commit that names it under docs/ unless the history is cut off there, and marked as indexed and canonical as the index links it |
| DocsCache.HeaderIsRead | lib/sigmond/docs_index.py:180-186 | the line that git prints for a commit is read back: its time and its name |
| DocsCache.RootsAre | lib/sigmond/docs_index.py:307-339 | a root for each component with documentation, one for sigmond's checks, and no other |
| DocsCache.HonestDates | lib/sigmond/docs_index.py:312-322 | with an honest cache a component's dates are git's, or the true ones where git fails |
| DocsCache.BuildKeepsHonest | lib/sigmond/docs_index.py:321-322 | every entry written holds the dates of the full history of its HEAD |
| DocsCache.CacheIsInvisible | lib/sigmond/docs_index.py:291-340 | over any run of builds from no cache, whatever HEADs and depths do between them and whatever becomes of the cache file, each index is the uncached one |
| DocsCache.MovedHeadIsRemembered | lib/sigmond/docs_index.py:310-322 | if HEAD moves between the two git calls, a later build on the first HEAD is right if and only if both histories date the pages alike |
| Bringup.PlanBuilder.BuildPlan | lib/sigmond/bringup.py:199-801 | the statements and closures build exactly the specified plan |
| Bringup.PlanBuilder.AddInstall | lib/sigmond/bringup.py:320-345 | enable and install, or install without enabling; the two lists follow the steps |
| BringupOrder.SameInstances | lib/sigmond/bringup.py:520-577 | the instances scaffolded, flagged for upload and enabled are one and the same sequence; none when the radio is deferred |
| BringupContent.InstancesAre | lib/sigmond/bringup.py:166-188 | an instance is made, flagged and started exactly when its client takes a reporter, is in the profile and not skipped, and some entry of the request, in the three cases there are, has that reporter and lists the client or all; none without the SDR |
| BringupContent.InstallsAre | lib/sigmond/bringup.py:320-345 | what is installed, and what of it enabled, in terms of the request |
| BringupContent.ConfigurationsAre | lib/sigmond/bringup.py:347-372 | what is configured, interactively for radiod alone, and that a client's check is hard unless the client waits for hardware |
| BringupContent.CheckpointsAre | lib/sigmond/bringup.py:388-457 | the other checkpoints: radiod's two and the instances' hard, the final one always there and not |
| BringupContent.SingleStepsAre | lib/sigmond/bringup.py:388-801 | when each of the plan's single steps is there |
| BringupContent.UploadsAre | lib/sigmond/bringup.py:559-577 | an instance uploads unless its reporter, however spelled, stays local |
| BringupContent.BindsAre | lib/sigmond/bringup.py:485-501 | each remote receiver of a host without a radiod is bound, and marked when it is the one for timing |
| BringupContent.AppliesAre | lib/sigmond/bringup.py:458-461 | declared receivers are applied in one step for the clients that take a reporter |
| BringupContent.KeyedClientsAre | lib/sigmond/bringup.py:194-196 | which clients take a reporter |
| BringupContent.TimingDnsIs | lib/sigmond/bringup.py:284-294 | the radiod for timing is the only one, or the one named, compared in lower case, or none |
| BringupContent.TimingIdleIs | lib/sigmond/bringup.py:295-297 | the timing authority is idle exactly with several remote radiods and none named |
| BringupContent.RendersWhen | lib/sigmond/bringup.py:580-594 | when receivers are rendered |
| BringupContent.StaggeredStartsAre | lib/sigmond/bringup.py:698-733 | which clients are started by themselves |
| BringupContent.RadiodStackIs | lib/sigmond/bringup.py:690-697 | what starts with radiod |
| BringupStarts.BoundCheckComesBetween | lib/sigmond/bringup.py:584-594 | the checkpoint on bound instances is hard, lists exactly those, and stands after all are made and before any start |
| BringupStarts.WhenBoundIsChecked | lib/sigmond/bringup.py:580-594 | when it is emitted |
| BringupStarts.StartsAreReady | lib/sigmond/bringup.py:320-345 | in every plan, what a step starts was enabled and installed, and made if it is an instance, by earlier steps |
| BringupStarts.RadiodComesFirst | lib/sigmond/bringup.py:690-733 | watermark directory, wisdom wait, radiod, streaming wait in that order, and every other start after them but those of clients that do not use radiod |
| BringupStarts.RadiodIsConfiguredFirst | lib/sigmond/bringup.py:388-457 | install, hard check, SDR wait, configuration, tuning, hard check, and only then any client's configuration or instance |
| BringupStarts.BindsComeBeforeClients | lib/sigmond/bringup.py:485-501 | receivers are bound before any client is configured or instance made |
| BringupStarts.ManifestComesBetween | lib/sigmond/bringup.py:652-688 | the uploader's manifest is written after all configurations, instances, upload flags, the rendered site profile and the hold on uploads, and before radiod-bound starts and the uploader's restart |
| BringupStarts.UploadsFollowLocalOnly | lib/sigmond/bringup.py:559-575 | an instance's upload is off if and only if its reporter stays local |
| BringupStarts.OnlyIndependentClientsRun | lib/sigmond/bringup.py:375-387 | without an SDR a component is enabled, started, and configured unless it has no configuration, if and only if it is an independent client not skipped; there is no bare start |
| BringupStarts.LastStartNamesActivated | lib/sigmond/bringup.py:735-748 | the last component start names what was activated less what was deferred: all of it when none is both |
| BringupStarts.DeferredSetup | lib/sigmond/bringup.py:375-387 | without an SDR what is activated is the profile's independent clients in order |
| Bringup.PlanBuilder.AddConfigure | lib/sigmond/bringup.py:347-372 | interview and its checkpoint, hard unless the client is dormant; neither without a configuration |
| Bringup.PlanBuilder.AddInfra | lib/sigmond/bringup.py:380-392 | the infrastructure that is not skipped, in order |
| Bringup.PlanBuilder.AddRadiodStage | lib/sigmond/bringup.py:375-501 | Stage 1 in its three cases: deferred, own radiod, remote radiods |
| Bringup.PlanBuilder.AddBinds | lib/sigmond/bringup.py:496-501 | one binding for each kept radiod, the timing one marked |
| Bringup.PlanBuilder.AddTimingStage | lib/sigmond/bringup.py:503-517 | the timing authority, idle when several radiods and none named for it |
| Bringup.PlanBuilder.AddSpotStage | lib/sigmond/bringup.py:519-577 | Stage 3a client by client |
| Bringup.PlanBuilder.AddInstances | lib/sigmond/bringup.py:543-577 | an instance and its upload flag for each reporter |
| Bringup.PlanBuilder.AddRenderStage | lib/sigmond/bringup.py:580-594 | rendering and the checkpoint on bound instances |
| Bringup.PlanBuilder.AddIndependentStage | lib/sigmond/bringup.py:614-650 | Stage 3b, each client started as soon as it is configured |
| Bringup.PlanBuilder.AddBoundStarts | lib/sigmond/bringup.py:698-733 | the staggered starts, instance by instance where there are any |
| Bringup.RolesAreDisjoint | lib/sigmond/bringup.py:72-88 | a reporter-keyed client is neither independent nor the timing authority |
| AlignApply.Checkout.Fetch | lib/sigmond/align_apply.py:91-102 | changes remote refs only, or fails |
| AlignApply.Checkout.Resolve | lib/sigmond/align_apply.py:105-112 | one commit or none |
| AlignApply.Checkout.DirtyFiles | lib/sigmond/align_apply.py:142-150 | a failing status may list too little, never too much |
| AlignApply.Checkout.ResetUvLock | lib/sigmond/align_apply.py:153-159 | drops a change of uv.lock and nothing else |
| AlignApply.Checkout.CheckOut | lib/sigmond/align_apply.py:162-168 | rejected: no change; cut off, or reported as failed after it happened: may have happened; local changes carried over |
| AlignApply.Checkout.CheckOutBranch | lib/sigmond/align_apply.py:177-183 | the same for a branch |
| AlignApply.Checkout.SetPin | lib/sigmond/align_apply.py:219-225 | a failed write leaves anything in the pin and nothing else changed |
| AlignApply.Checkout.DeployBuild | lib/sigmond/align_apply.py:283-294 | a build that is due and declared, or none |
| AlignRun.Station.RunItem | lib/sigmond/align_apply.py:562-596 | what the status of an item makes of it |
| AlignRun.Station.InstallMissing | lib/sigmond/align_apply.py:568-577 | a failed install may leave a checkout or none; success is taken to leave one at the pin |
| AlignRun.Station.RunCurrent | lib/sigmond/align_apply.py:562-566 | pin refreshed or noted as not, build made up for |
| AlignApply.Checkout.KeepCurrent | lib/sigmond/align_apply.py:567 | pin refreshed or noted as not, then the build that is due; HEAD, branch, radiod and install stay |
| Fleet.Network.TruePosition | lib/sigmond/fleet.py:937-964 | whether the host was found level with main, when positions can be had |
| Fleet.Network.DryRun | lib/sigmond/fleet.py:904-907 | every host not frozen is planned, in order |
| Fleet.SkipFrozen | lib/sigmond/fleet.py:899-902 | the frozen hosts are reported as skipped |
| CpuText.PrintRuns | lib/sigmond/cpu.py:497-508 | the runs from the index on, as text |
| AffinityPlan.FencedPlacement | lib/sigmond/cpu.py:325-386 | the placement on a host with enough isolated cores |
| HostLayout.GuestChoice | lib/sigmond/cpu.py:251-322 | a guest places radiod off its first core only |
| HostLayout.FreshUnitsInOrder | lib/sigmond/cpu.py:363-386 | units without pins take the chosen cores in order |
| DocsCache.DatesAreUnique | lib/sigmond/docs_index.py:158-166 | the dates of a log are determined by it |
| GapVerdict.NoGapsAtAll | lib/sigmond/gap_hourly.py:95-110 | counts not negative sum to zero if and only if all are zero |
| Prune.WorkIsReported | lib/sigmond/catalog_prune.py:178-181 | nothing is reported if and only if the section is minimal already |

## Left out

- Text of TOML files: catalogs are nested maps and coordination.toml is lines told apart by the module's own patterns; comments, order of keys and the printing of names and strings by the pruning's writer are not modelled.
- NaN, and the order in which dictionaries list their keys.
- Prune.ProfilesSurviveOnlyWithoutWork: profile blocks are lost by a rewrite, so their preservation is stated with its exact condition only.
- The library entries that `load_catalog` adds when no layer has them (lib/sigmond/catalog.py:345-361).
- Lines are as read: universal-newline translation happens before `ensure_client_binding` sees them; a last line that ends with a rarer line break and is given a newline stays one line.
- BindingRuns.RunRefinesMap: is stated for files whose last line is ended or no header; BindingRuns.WrittenIsReadBack gives the exact condition on any file.
- `ensure_radiod_block` and `write_station_identity` (lib/sigmond/coordination.py:476-508, 611-635): single edits, and the second does not carry every field.
- AlignApply.Checkout.Move: git, installers and builders answer anything; that a `git checkout` leaves either the old commit or the new one, never a mixture, is taken from git's own behaviour.
- `cache_aware` as a text, and the capital letters that a log level is put in, are read before the model begins.
- AlignApply.Checkout.Resolve: a pin that is also the name of a branch or tag is not considered; a reference is the commit whose name it begins.
- AlignRun.Station.InstallMissing: success is assumed to leave a checkout at the pin, with its .pin, and to touch no other; the installer of radiod's decoder (bin/smd:7413) writes no .pin and may clone another source.
- `record` and the history file of an alignment (lib/sigmond/align_apply.py:607-693).
- Fleet.Network.FleetUpdate: held targets, plan text and other report text are not modelled; an exception raised by the ssh runner is not either.
- LogLevelRuns.RunRefines: file replacement is one atomic step for each write; owner and mode are not modelled.
- HostLayout.GuestPlacementIsHostLayout: a guest that has pins or isolated CPUs already is placed by the lemmas on `CpuAssign` and `AffinityPlan`, not by this one.
- AffinityPlan.PlanDividesTheHost: an operator's own pool of other CPUs is taken as given and may overlap radiod's.
- GapRows.BuildRow: the walk over the sidecar files and their reading as JSON are inputs.
- Prune.OperatorCatalog.PruneOperatorCatalog: the text that the writer prints for names and strings is not modelled.
- GapVerdict.VerdictOnSample: gap counts are whole numbers; a fractional one would print with a decimal point and read as not measured. The two-decimal texts of hours and rate and the calendar form of the time stamp are parameters.
- Infinity as a `minute_boundary`, which the sampler does not catch.
- DocsCache.CacheIsInvisible: that a full clone's log is a function of HEAD, and that HEAD holds still while one checkout is read, are assumptions of the lemma; titles, page bounds and links are inputs.
- Labels, settle times, `may_fail` marks, and the `--via` of an upload in the bring-up plan; the executor that runs it.
- BringupStarts.OnlyIndependentClientsRun: a component of the radio half that is also an independent client is started; the lemma says exactly when.
- Probing of /proc, /sys, systemd and hardware; rendering of systemd drop-ins; the terminal user interface; HTTP look-ups; install locking.
- The remaining single-branch rules (harmonize, environment kinds, adoption, capacity): they would only add easy members.
