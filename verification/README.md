# PortHub in Dafny

PortHub runs an agent on machines, a set of containers on a server, and scripts that
release both. This project models seven parts of it and proves what they promise over
every input, every pattern of failures and every run. `dafny verify dfyconfig.toml`
checks all of it.

| part | files |
|---|---|
| Adoption of legacy services by the native agent, with a journal, rollback and recovery | `AdoptionModel`, `AdoptionSafety`, `AdoptionRuns`, `AdoptionRecovery`, `AdoptionExact`, `AdoptionWitness`, `Adoption` |
| Container upgrade around a second transaction over image aliases and the environment | `Upgrade` |
| Route monitor and session as two interleaved tasks | `RouteModel`, `RouteRuns`, `RouteTasks` |
| Control requests: path selection, backoff, and no replay of ambiguous mutations | `PathSelection`, `ControlFailover` |
| Diagnostic ring and its uploader | `LogRing`, `LogUpload` |
| Release pipeline: packaging, recovery and version planning | `Release`, `ReleasePackage`, `ReleaseRoundTrip`, `ReleaseScripts`, `ReleasePlan` |
| Text transformations: Windows command lines and `nsswitch.conf` | `WindowsArguments`, `NssHosts`, `Text` |
| The optional value they share | `Wrappers` |

## How the outside is modelled

- **Failures and crashes.** The adoption draws every file operation and service manager
  call from a fault tape: a call succeeds, fails with or without having taken effect, or is
  the last thing the process does. A statement over all tapes covers a crash at every point.
  In the upgrade and in the control client each command and answer is a fresh unknown of a
  method, so a contract holds for all of them.
- **Time, clocks, network, resolver, tunnel client and compiler** are parameters of each
  step. Times of the path selection are real numbers, times of the uploader are natural ones.
- **Interleavings.** The monitor and the session, and the uploader and its event sources,
  are state machines over sequences of events.
- **Digests** identify contents: a receipt records the binary itself.
- **Versions** are triples, because the accepted texts are canonical decimals. The session
  revision is unbounded; the log sequence number saturates at 2^64 - 1 as in the code.
- `service::install`, `Uninstall` and `Publication` follow `service/mod.rs` and
  `service/publication.rs`, not an assumed contract.
- Objects that the source updates in place are classes. Each method is proved equal to a
  function on values, and the lemmas are about those functions.

## Where the code does less than it promises

Each of these has a lemma that gives the exact condition and, where it fails, an input or a
run that shows it.

1. A failed installation drops the results of its own stop and disable. The service it could
   not stop runs on without a manifest, rollback does not see it, and apply then reports the
   originals as restored while legacy and native services both run
   (`RollbackKeepsOrphans`, `LostStopRunsBoth`). A later adoption that records the entry as
   stopped completes with the service running (`AdoptionIsExact`, `OrphanOutlivesRecord`).
2. Rollback never stops a unit. A unit that was enabled but stopped is started by a reboot
   during the adoption and stays running (`RollbackRestores`, `RebootBreaksRestoration`).
3. Apply does not look at unfinished receipts. A second adoption records what the first one
   stopped as the original state and reports it as restored (`RollbackRestoresFirst`,
   `SecondAdoptionForgets`). One with another server, or after a legacy unit was added, makes
   registrations that the first receipt does not name; rolling that receipt back then starts
   the legacy units beside them (`RollbackExclusive`, `OtherServerRunsBoth`,
   `AddedUnitRunsBoth`).
4. A crash between the unit file and the manifest leaves a unit file that install refuses and
   rollback does not see, so no later adoption under its identity completes (`FaultFreeAdoption`,
   `LeftoverBlocksForever`, `CrashBlocksLaterAdoptions`).
5. A private entry with a registered public owner becomes a module of the owner and gets no
   registration, so binding the CLI fails and the adoption never commits (`FaultFreeAdoption`).
   If the owner is outside the plan, the module stays switched on beside the restored legacy
   unit, without any fault (`OutsideOwnerRunsBoth`).
6. Inspection admits 258 registrations, rollback 257 (`OversizedAdoptionCannotBeRolledBack`).
7. An alias whose creation never took effect cannot be removed, so that a clean state is
   reported as an incomplete rollback (`Unselect`).
8. A signal after the release selection has returned ends in an error without an incomplete
   rollback although the selection, or everything, is the candidate; one between an error and
   the rollback skips the rollback (`Activate`).
9. When the log counter saturates, a reader that has caught up gets nothing any more
   (`CaughtUpReader`).
10. A `dns` service between whitespace other than ASCII space, tab, line feed, form feed and
    carriage return is overlooked by the rewrite and seen by the reader
    (`IntegrationIsDetected`, `NoBreakSpaceIsOverlooked`); a line that ends in a carriage
    return loses it on the next reading (`OtherLinesKept`).
11. A replacement of `nsswitch.conf` whose directory sync fails stays in place without an
    undo (`FailureRestores`).
12. An edit of that file between a reading and the write that follows is lost (`EditsSurvive`,
    `EditIsLost`).
13. Packaging limits the receipt file, recovery a wider layout of the same receipt
    (`WideReceiptIsNotRecovered`).
14. Kept versions accumulate until the next run refuses its own index (`NextRunReads`,
    `IndexOutgrowsLimit`).

## Model

| member | source | states |
|---|---|---|
| `AdoptionRuns.EveryRunIsExclusive` | crates/porthub-agent/src/adopt.rs:597-625 | In every run of applies, rollbacks of any receipt, failed or crashed steps, reboots and edits whose plans name the same registrations, and in which no legacy unit is switched on by hand beside one: while any native registration exists every legacy unit is stopped and disabled |
| `AdoptionRuns.RollbackExclusive` | crates/porthub-agent/src/adopt.rs:727-795 | On a host without both, a completed rollback leaves no legacy unit beside a registration if and only if its receipt names every registration there is or has nothing to bring back; under that condition a rollback that stops half-way does not either |
| `AdoptionRuns.HistorySane` | crates/porthub-agent/src/adopt.rs:525-795 | In every run, whatever its plans are, no service runs or is enabled without a registration unless its installation lost track of it, and receipts fit the host; a run whose every rollback meets the condition above is exclusive throughout |
| `AdoptionRuns.ApplyOutcomes` | crates/porthub-agent/src/adopt.rs:525-658 | Apply is all or nothing for every fault tape and beside any earlier receipts: a completed adoption registers everything its plan names with all legacy units off, a rolled back one has the units as before it, the original CLI and none of its registrations, a refusal changes no service and no CLI, earlier receipts and registrations outside the plan are untouched, and an exclusive host stays exclusive |
| `AdoptionRuns.RollbackOutcomes` | crates/porthub-agent/src/adopt.rs:659-795 | At every crash point a rollback has touched no other receipt and no registration that its receipt does not name, and started no legacy unit before those it names were gone; once it completes they are gone and the units are what its receipt makes of what it found; a closed receipt changes nothing |
| `AdoptionRecovery.RollbackRestores` | crates/porthub-agent/src/adopt.rs:685-795 | From any state of any run a completed rollback restores the CLI and leaves none of the registrations that its receipt names, and restores the unit states of its receipt if and only if no unit was running that the receipt recorded as stopped |
| `AdoptionRecovery.RollbackRestoresFirst` | crates/porthub-agent/src/adopt.rs:779-789 | With several receipts open, rolling back one of them restores the states before the first unfinished adoption if and only if, for each unit of that first one, it enables it likewise and what it recorded as running, with what runs, is what the first one recorded |
| `AdoptionRecovery.LaterReceiptUndoesRestoration` | crates/porthub-agent/src/adopt.rs:779-789 | Rolling back another receipt after the first one undoes the restoration whenever the two recorded a unit as enabled differently |
| `AdoptionRecovery.CalmRunsRestoreExactly` | crates/porthub-agent/src/adopt.rs:772-791 | Over every run that rolls back newest first and leaves units alone meanwhile, without a reboot or with plans that have no enabled but stopped unit, a completed rollback restores every recorded unit state |
| `AdoptionWitness.RebootBreaksRestoration` | crates/porthub-agent/src/adopt.rs:779-789 | The reboot condition is needed: for every plan with an enabled but stopped unit, a crash, a reboot and a completed rollback leave it running |
| `AdoptionWitness.SecondAdoptionForgets` | crates/porthub-agent/src/adopt.rs:538-595 | For every plan with a unit that is not off, private entries included, an adoption killed after it quiesced and a second one of the same plan that fails report the originals as restored while every unit is off and the first receipt is still open |
| `AdoptionRecovery.RollbackTwice` | crates/porthub-agent/src/adopt.rs:680-683 | A second rollback is a no-op |
| `AdoptionRecovery.RollbackCanFinish` | crates/porthub-agent/src/adopt.rs:691-795 | Rollback is resumable: without further faults it completes from any open state, including between hard link and rename, if and only if the receipt validates and the CLI is the original or the receipt's own release |
| `AdoptionSafety.InvalidReceiptChangesNothing` | crates/porthub-agent/src/adopt.rs:691-731 | A rollback whose validation fails changes nothing |
| `AdoptionRecovery.OversizedAdoptionCannotBeRolledBack` | crates/porthub-agent/src/adopt.rs:690-694 | Inspection admits one registration more than recovery does; such an adoption can never be rolled back |
| `AdoptionExact.AdoptionIsExact` | crates/porthub-agent/src/adopt.rs:606-625 | A completed adoption had no owned entry and no leftover unit file, and runs each native service with exactly the recorded state if and only if no service was running or enabled that the plan records as stopped |
| `AdoptionExact.OrphanMakesAdoptionInexact` | crates/porthub-agent/src/adopt.rs:469-499 | With a running orphan whose entry is recorded as stopped, the adoption completes and is not exact |
| `AdoptionWitness.OrphanOutlivesRecord` | crates/porthub-agent/src/adopt.rs:469-499 | Runs reach such a host: the orphan of an adoption killed before its rollback, and a second adoption of the same plan, private entries included, that finds the units off |
| `AdoptionExact.FaultFreeAdoption` | crates/porthub-agent/src/service/mod.rs:836-997 | Without faults an accepted plan is adopted if and only if its private entry has no registered owner and no unit file is left over |
| `AdoptionExact.LeftoverBlocksForever` | crates/porthub-agent/src/service/mod.rs:917-921 | A unit file without a manifest survives every run, and no adoption whose plan names that identity ever completes |
| `AdoptionWitness.CrashBlocksLaterAdoptions` | crates/porthub-agent/src/service/mod.rs:938-944 | For every accepted plan of up to 257 entries whose first one has no registered owner, a crash between unit file and manifest and a completed rollback leave a host on which no later adoption under that identity ever completes |
| `AdoptionRecovery.BothRunOnlyBesideOrphan` | crates/porthub-agent/src/service/mod.rs:945-991 | In every run, native and legacy services run at once if and only if a legacy unit runs beside a service whose failed installation could not confirm its stop and disable, beside the private module of an owner outside the plan, or beside a registration; the last case is excluded in a run whose rollbacks name every registration |
| `AdoptionRecovery.RollbackKeepsOrphans` | crates/porthub-agent/src/adopt.rs:727-780 | After a completed rollback both kinds run at once if and only if such an orphan or module, or a registration that the receipt does not name, was running and some legacy unit was recorded as, or found, running |
| `AdoptionWitness.LostStopRunsBoth` | crates/porthub-agent/src/service/mod.rs:956-962 | For every plan that starts with a running unit and no leftover, two lost calls make apply report the originals as restored while both services run |
| `AdoptionWitness.OutsideOwnerRunsBoth` | crates/porthub-agent/src/service/mod.rs:866-901 | Without any fault, a private entry whose owner is registered outside the plan joins it, the adoption reports the originals as restored, and the module stays on beside the legacy units; the owner stays disabled if the entry ran without being enabled |
| `AdoptionWitness.RollbackBesideAdoption` | crates/porthub-agent/src/adopt.rs:727-795 | An adoption that completes beside an open receipt of the same release leaves that receipt valid; rolling it back completes, and the host stays exclusive if and only if the receipt names every registration or has nothing to bring back |
| `AdoptionWitness.OtherServerRunsBoth` | crates/porthub-agent/src/adopt.rs:594-595 | For any two accepted plans of which the second has a running unit under an identity that the first does not name, as with another server: the first is refused by a failed directory sync, the second completes, and rolling back the first receipt runs legacy units beside a native service |
| `AdoptionWitness.AddedUnitRunsBoth` | crates/porthub-agent/src/adopt.rs:411-441 | Likewise when a legacy unit is added between the two attempts and only the second plan covers it |
| `AdoptionSafety.InstallAccounted` | crates/porthub-agent/src/service/mod.rs:836-997 | Installation leaves no running or enabled service without a manifest, other than one marked as unconfirmed; it refuses a leftover unit file, and success adds the recorded state to what ran |
| `AdoptionSafety.JoinEnables` | crates/porthub-agent/src/service/mod.rs:866-901 | Joining an owner changes nothing but its private module, and needs the same release and no other private identity |
| `AdoptionSafety.UninstallRemoves` | crates/porthub-agent/src/service/mod.rs:1061-1108 | The manifest disappears only once the service is stopped, disabled and without unit file and module |
| `AdoptionSafety.PublishKeeps` | crates/porthub-agent/src/service/publication.rs:350-454 | Publication commits with the adopted link in place; after a failure the original is back if and only if it was never replaced or the restoring call took effect; any other CLI is left alone |
| `Adoption.Agent.Apply` | crates/porthub-agent/src/adopt.rs:525-658 | The imperative apply, step by step on the host, does what the model of it does |
| `Adoption.Agent.Rollback` | crates/porthub-agent/src/adopt.rs:659-684 | The imperative rollback does what the model of it does |
| `Adoption.Agent.RollbackReceipt` | crates/porthub-agent/src/adopt.rs:685-795 | The guarded part of rollback: validate, withdraw the CLI and the registrations, revive the legacy units |
| `Adoption.Agent.Transaction` | crates/porthub-agent/src/adopt.rs:596-640 | The guarded part of apply: quiesce, install, publish, commit |
| `Upgrade.Deployment.Perform` | deploy/native/upgrade.py:296-368 | For every pattern of failures: a normal return means all selected roles, aliases and variables choose the candidate and the previous image keeps its rollback alias; an error without an incomplete rollback means every role runs its previous image, unattempted roles were never recreated, and aliases and environment are the originals, except when a signal arrives after the selection has returned or before the rollback ignores signals |
| `Upgrade.Deployment.Activate` | deploy/native/upgrade.py:249-293 | Role replacement around the release selection, with the end state for each kind of late signal |
| `Upgrade.Deployment.ApplySelection` | deploy/native/upgrade.py:215-246 | All planned aliases and the environment are selected, or after an error without an incomplete rollback they are the originals; no other alias changes |
| `Upgrade.Deployment.Unselect` | deploy/native/upgrade.py:231-246 | Zero failures mean that aliases and environment are the originals; an alias whose creation never took effect always counts as a failure |
| `Upgrade.Deployment.Preflight` | deploy/native/upgrade.py:182-213 | Succeeds if and only if no immutable alias names something else; the plan covers the stable, versioned and rollback alias of each role with what they name now |
| `Upgrade.Deployment.Replace` | deploy/native/upgrade.py:257-264 | Roles are attempted in order; every role outside the attempted prefix is untouched |
| `Upgrade.ReplacedSelects` | deploy/native/upgrade.py:200-213 | Every variable reads as its new value if it was changed and as before otherwise |
| `Upgrade.PlannedDistinct` | deploy/native/upgrade.py:188-199 | The planned aliases are distinct and record what each one named |
| `RouteRuns.AcceptedRerouteStaysInPlan` | crates/porthub-agent/src/runtime.rs:194-206 | In every interleaving an accepted proposal installs a member of the plan in use whose endpoint differs from the one in use, and changes nothing else |
| `RouteRuns.StaleProposalsAreRefused` | crates/porthub-agent/src/runtime.rs:194-198 | Once plan or route has been another than when a proposal was made, that proposal is refused at every later point, also when both are back as they were |
| `RouteRuns.HistoryInv` | crates/porthub-agent/src/routes.rs:35-104 | The invariant of every interleaving: the session is coherent, published snapshots and pending proposals of the current revision match it, counters match the probe history |
| `RouteRuns.RevisionGrows` | crates/porthub-agent/src/runtime.rs:136-206 | Revisions never fall, and plan and candidate change only together with the revision |
| `RouteRuns.EveryProposalIsJustified` | crates/porthub-agent/src/routes.rs:56-104 | Every proposal follows two failed probes in a row, or a healthy non-origin probe at a tenth tick and then goes to an origin; the counters stay within 2 and 9; without a client there is no candidate, plan or version, and with one the candidate is in the plan |
| `RouteTasks.SessionTask.Apply` | crates/porthub-agent/src/runtime.rs:224-306 | The session update in place does what the model of it does |
| `RouteTasks.SessionTask.Reroute` | crates/porthub-agent/src/runtime.rs:194-206 | Accepts exactly the proposals for the current revision that the client takes |
| `RouteTasks.SessionTask.RefreshSource` | crates/porthub-agent/src/runtime.rs:136-156 | Candidate and plan are rebound together or not at all |
| `RouteTasks.Prober.Check` | crates/porthub-agent/src/routes.rs:68-93 | One probe moves both counters and proposes what the model proposes |
| `RouteTasks.Monitor.Set` | crates/porthub-agent/src/routes.rs:35-40 | Publishes a snapshot only for a revision not published last |
| `PathSelection.OrderDrawsAvailable` | crates/porthub-agent/src/outbound.rs:195-245 | `order` returns min(8, available) paths drawn from those not backing off without extra repetition, a permutation of them up to eight, with the surviving selected path first |
| `PathSelection.OrderTriesBothFamilies` | crates/porthub-agent/src/outbound.rs:218-244 | Both address families appear whenever both are available |
| `PathSelection.RunBacksOff` | crates/porthub-agent/src/outbound.rs:246-261 | After any operations each backoff counts 1 to 6 failures and ends min(2^count, 60) seconds after the last failure of its path |
| `PathSelection.RunExcludesForAWhile` | crates/porthub-agent/src/outbound.rs:208-216 | A path is excluded only within 60 seconds of its last failure, and never offered within 2 seconds of a remembered one |
| `PathSelection.OrderForgets` | crates/porthub-agent/src/outbound.rs:195-207 | After `order` the failure table and the selection refer only to offered paths, otherwise unchanged |
| `PathSelection.Fill` | crates/porthub-agent/src/outbound.rs:226-244 | The interleaving loop yields the alternating sequence of the two families, cut at eight |
| `PathSelection.Selection.MakeOrder` | crates/porthub-agent/src/outbound.rs:195-245 | The in-place `order` returns the specified order and keeps the specified state |
| `PathSelection.Selection.RecordFailure` | crates/porthub-agent/src/outbound.rs:246-256 | A failure raises the count up to six and moves the deadline |
| `PathSelection.Selection.RecordSuccess` | crates/porthub-agent/src/outbound.rs:257-261 | A success selects the path and forgets its failures |
| `ControlFailover.Control.RequestAccept` | crates/porthub-agent/src/control.rs:255-346 | For every network: unless the request is repeatable, every send but the last ended in a connect failure, a redirect or a server error; at most eight sends go to each enrolled authority and none elsewhere; under an unchanged offer a path is reused only two seconds after its recorded failure |
| `ControlFailover.Control.TryEach` | crates/porthub-agent/src/control.rs:283-346 | The same over the authorities in turn |
| `ControlFailover.Control.TryAuthority` | crates/porthub-agent/src/control.rs:285-345 | At most eight attempts at one authority, none after an ambiguous failure of a mutation, spaced under an unchanged offer |
| `ControlFailover.Control.Authorities` | crates/porthub-agent/src/control.rs:200-219 | Each enrolled authority exactly once, an unexpired preference first |
| `ControlFailover.Control.HttpFor` | crates/porthub-agent/src/control.rs:86-124 | The chosen path is the unexpired cached one of this authority or one of the available ones; other authorities keep their state |
| `ControlFailover.Control.RefreshUnderlay` | crates/porthub-agent/src/control.rs:125-132 | Drops the cached client and records the failure against the authority |
| `ControlFailover.Control.PreferAuthority` | crates/porthub-agent/src/control.rs:141-143 | Prefers the given authority for a minute; the preferred one stays enrolled if and only if the given one is |
| `ControlFailover.Control.OpenStream` | crates/porthub-agent/src/control.rs:145-176 | Streams prefer only authorities taken from the list, so the preferred one stays enrolled |
| `ControlFailover.PacedAfter` | crates/porthub-agent/src/control.rs:287-310 | Spacing and remembered failures are kept by one more attempt |
| `LogRing.TailIsLongest` | crates/porthub-agent/src/logs.rs:161-166 | A suffix of all retained lines fits both bounds if and only if it is no longer than the ring |
| `LogRing.TailStep` | crates/porthub-agent/src/logs.rs:154-167 | The ring after more lines depends only on the ring before them |
| `LogRing.EvictedGrows` | crates/porthub-agent/src/logs.rs:161-165 | Evicted lines never come back |
| `LogRing.NewestIsKept` | crates/porthub-agent/src/logs.rs:155-166 | The newest line is never evicted |
| `LogRing.Ring.Push` | crates/porthub-agent/src/logs.rs:155-166 | After one line the ring is the longest fitting suffix, numbered consecutively until the counter saturates, with an exact byte count, and ends in the new line |
| `LogRing.Ring.Evict` | crates/porthub-agent/src/logs.rs:161-165 | The eviction loop ends, at exactly the longest fitting suffix |
| `LogRing.Ring.Retain` | crates/porthub-agent/src/logs.rs:153-168 | A text adds its non-blank lines, cut to 4000 characters |
| `LogRing.Ring.Record` | crates/porthub-agent/src/logs.rs:170-176 | An oversized event adds the fixed notice, any other its cleaned lines |
| `LogRing.BatchResumes` | crates/porthub-agent/src/logs.rs:177-197 | With a cursor a batch is the first surviving lines after it, up to the limit |
| `LogRing.BatchStarts` | crates/porthub-agent/src/logs.rs:177-197 | Without a cursor a batch is the newest lines |
| `LogRing.CaughtUpReader` | crates/porthub-agent/src/logs.rs:157 | A reader that has caught up is offered the next line if and only if the 64-bit counter has not saturated |
| `LogRing.SaturatedLineIsLost` | crates/porthub-agent/src/logs.rs:157 | The line after 2^64 - 1 others never reaches such a reader |
| `LogUpload.EveryRun` | crates/porthub-agent/src/logs.rs:283-350 | On every run the uploads of an active period are chained while the counter has not saturated, every batch is within the limits, and both retry delays stay between the poll interval and the maximum |
| `LogUpload.AcknowledgedIncrease` | crates/porthub-agent/src/logs.rs:328-349 | Within one active period every number sent after an acknowledged batch is above it |
| `LogUpload.FailedIsRetried` | crates/porthub-agent/src/logs.rs:329-345 | A failed batch is the next one sent, unchanged |
| `LogUpload.OnlyEvictedAreSkipped` | crates/porthub-agent/src/logs.rs:177-197 | From the first batch of a period on, every line before an acknowledged position was acknowledged or had been evicted when its turn came |
| `LogUpload.BatchIsAcceptable` | crates/porthub-agent/src/control.rs:431-437 | Every batch passes the size check of the upload |
| `LogUpload.Uploader.Loop` | crates/porthub-agent/src/logs.rs:283-350 | The uploader, turn by turn, does what the model of the run does |
| `LogUpload.Uploader.Flush` | crates/porthub-agent/src/logs.rs:328-349 | Sends the pending or the next batch and acts on the outcome |
| `LogUpload.Uploader.Ask` | crates/porthub-agent/src/logs.rs:302-327 | Acts on the answer to the poll |
| `WindowsArguments.CommandLine` | crates/porthub-agent/src/detached_windows.rs:74-81 | Refused if and only if a value contains a NUL; otherwise the child parses the line back to the same program and arguments if and only if the program has no quote and no trailing backslash, and to the same arguments whenever it has no quote |
| `WindowsArguments.Quote` | crates/porthub-agent/src/detached_windows.rs:26-46 | Appends the escaped value, or fails exactly at a NUL |
| `WindowsArguments.RoundTrip` | crates/porthub-agent/src/detached_windows.rs:26-46 | Parsing inverts assembly if and only if the program path is plain |
| `WindowsArguments.ReadsEscaped` | crates/porthub-agent/src/detached_windows.rs:28-44 | Reading undoes escaping after any run of backslashes |
| `WindowsArguments.ArgumentsSurvive` | crates/porthub-agent/src/detached_windows.rs:78-81 | Without a quote in the program path all arguments survive |
| `WindowsArguments.TrailingBackslashIsDoubled` | crates/porthub-agent/src/detached_windows.rs:43-44 | A program path that ends in a backslash reaches the child with the backslash doubled |
| `NssHosts.IntegrationIsDetected` | crates/porthub-agent/src/private_prerequisites.rs:127-146 | For a hosts line without a comment, the rewritten file is detected as integrated if and only if no whitespace-separated `dns` was overlooked before the insertion, or `resolve` already preceded it, or the stub resolver is configured |
| `NssHosts.OneRewriteSuffices` | crates/porthub-agent/src/private_dns_setup.rs:36-75 | With ordinary ASCII spaces in the hosts line one rewrite always integrates |
| `NssHosts.NoBreakSpaceIsOverlooked` | crates/porthub-agent/src/private_dns_setup.rs:47-52 | A `dns` set off by a no-break space is overlooked and the file stays unintegrated |
| `NssHosts.TokensInserted` | crates/porthub-agent/src/private_dns_setup.rs:44-60 | The service tokens gain exactly the two inserted ones at one place and lose none |
| `NssHosts.OtherLinesKept` | crates/porthub-agent/src/private_dns_setup.rs:39-70 | Every other line keeps its place, and its text if and only if it does not end in a carriage return |
| `NssHosts.RewriteChanges` | crates/porthub-agent/src/private_dns_setup.rs:36-75 | A rewrite never leaves the file as it was |
| `NssHosts.IntegrateHosts` | crates/porthub-agent/src/private_dns_setup.rs:36-75 | The loop computes the specified file, refusing anything but one changeable hosts entry |
| `NssHosts.SecondConfigureRewritesNothing` | crates/porthub-agent/src/private_dns_setup.rs:260-275 | After a success, further attempts leave the file alone if and only if nothing was rewritten, or no whitespace-separated `dns` precedes the insertion unless `resolve` precedes it, or another tool claims the result |
| `NssHosts.IntegratesAgain` | crates/porthub-agent/src/private_dns_setup.rs:36-75 | A rewritten file is never refused by a second rewrite |
| `NssHosts.FailureRestores` | crates/porthub-agent/src/private_dns_setup.rs:231-258 | Left alone, a failed attempt restores the original if and only if the first replacement did not fail after taking effect and the undoing one took effect |
| `NssHosts.EditsSurvive` | crates/porthub-agent/src/private_dns_setup.rs:246-255 | The last edit by the administrator during an attempt survives if and only if it does not fall between a reading of the file and a write that takes effect |
| `NssHosts.EditIsLost` | crates/porthub-agent/src/private_dns_setup.rs:246-251 | An edit between the second reading and the replacement is lost |
| `NssHosts.Host.Configure` | crates/porthub-agent/src/private_dns_setup.rs:260-275 | The in-place configuration does what the model of it does |
| `ReleaseRoundTrip.RecoveryInvertsPackaging` | scripts/recover-component-builds.py:24-117 | Every accepted package, recovered for any of its platforms with receipts under the caps, gives at most 128 rows that are accepted for reuse as exactly the platform's packaged builds |
| `ReleaseRoundTrip.RecoveredIffPackaged` | scripts/build-component-platform.py:16-57 | A build is found under its identity if and only if it was packaged for the platform |
| `ReleaseRoundTrip.WideReceiptIsNotRecovered` | scripts/recover-component-builds.py:62-64 | A packaged receipt above the cap in the wider JSON layout is never recovered |
| `ReleaseRoundTrip.AcceptedPlatform` | scripts/package-components.py:35-80 | An accepted package has one core per platform with the shared version, and 1 to 127 tools with distinct identities |
| `Release.NamesAreDistinct` | scripts/package-components.py:19-30 | No two targets share a catalog or an asset name |
| `ReleaseScripts.PackageRelease` | scripts/package-components.py:35-146 | Accepts exactly the consistent, complete and small enough entries and writes the specified release |
| `ReleaseScripts.CheckEntries` | scripts/package-components.py:41-59 | Accepts exactly admissible entries with distinct platform, tool and version |
| `ReleaseScripts.Group` | scripts/package-components.py:60-69 | Sorts the builds by platform, refusing exactly a second core |
| `ReleaseScripts.Stage` | scripts/package-components.py:85-136 | Writes the platforms in order, refusing exactly those beyond the limits |
| `ReleaseScripts.Recover` | scripts/recover-component-builds.py:24-117 | The receipt loop recovers the specified rows or refuses |
| `ReleaseScripts.PreviousBuilds` | scripts/build-component-platform.py:16-57 | Reads an index of at most 128 usable, distinct rows into the specified dictionary |
| `ReleasePlan.OlderVersionsAreKept` | scripts/build-component-platform.py:110-125 | Every earlier non-core build of a selected tool is in the new index, unchanged |
| `ReleasePlan.IndexIsKnown` | scripts/build-component-platform.py:70-127 | The new index has no duplicate identity, and each row has its own bytes and the target of the run; whether the next run reads it is a matter of its length only |
| `ReleasePlan.NothingElse` | scripts/build-component-platform.py:88-125 | Each row belongs to a selected tool and was built before or is its new build |
| `ReleasePlan.NewIsAbove` | scripts/component-build-plan.py:462-487 | A newly built version is above every earlier version of its tool |
| `ReleasePlan.VersionsSurvive` | scripts/build-component-platform.py:110-125 | Over every sequence of releases that select a tool no version of it is lost |
| `ReleasePlan.VersionsIncrease` | scripts/component-build-plan.py:480-486 | Over every such sequence a later build is above every version there ever was |
| `ReleasePlan.ReadableIffShort` | scripts/build-component-platform.py:27-29 | The next run reads an index of distinct, matching rows if and only if it has at most 128 of them |
| `ReleasePlan.IndexLength` | scripts/build-component-platform.py:88-125 | The new index has as many rows as there are earlier non-core builds of the selected tools, newly built tools, and core if selected |
| `ReleasePlan.NextRunReads` | scripts/build-component-platform.py:27-29 | The next run reads the new index if and only if that number is at most 128 |
| `ReleasePlan.IndexHasOneCore` | scripts/build-component-platform.py:110-125 | The new index has at most one core build |
| `ReleasePlan.IndexOutgrowsLimit` | scripts/build-component-platform.py:110-125 | A run that selects every tool it was given writes an index that is longer by exactly the newly built tools, a replaced core aside, so after 128 rows the next run reads it if and only if there is none |
| `ReleasePlan.Run` | scripts/build-component-platform.py:60-127 | The loops compute the specified index |

## Left out

- Real files, permissions, locks, sockets, TLS, Docker, git and subprocesses: each is a step that succeeds or fails.
- Other commands on adopted registrations.
- A private legacy unit that runs without its `private.json`: inspection overlooks it, the model takes a unit that a plan does not cover to be off, as inspection enforces for every unit that uses the shared CLI.
- Handoff and enrollment variants of the adoption, and the inspection of legacy files beyond its limit on registrations.
- Signals inside the rollback of the release selection, which the code does not mask.
- Rollback alias names use the first 12 digits of an image digest; the model keeps the whole digest.
- `Session.count`: it is assigned before a reload that can fail, so nothing is stated about its agreement with the candidate.
- Concurrent requests that share the path state of one authority.
- Upload uniqueness across separate active periods, because losing the cursor between them is intended.
- Log redaction: the redacted text is a parameter of each recorded event. The console copy of an event is not modelled.
- The authselect branch of the DNS setup, and the two reads of `nsswitch.conf` by one attempt, which are taken as one.
- Hosts lines with an inline comment: the insertion may land inside the comment.
- The order of rows inside a receipt envelope and a manifest, archive bytes, JSON layouts, hash internals and path checks of the release scripts; archive, protocol and manifest limits are one parameter.
- Computing the state of build inputs (`cargo_graph`, `record`, `dep_paths`): whether sources are unchanged is a parameter of a run.
- Recipe versions that are not stable numeric versions.
- Command lines, tables, UI, service worker, Windows handles, terminal and proxy copying.
