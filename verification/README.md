# Cloud Print connector: a verified model

The connector keeps a cloud and a local mirror of native printers and carries jobs to them. These Dafny
modules model its stateful core and prove what it keeps: over every run, every interleaving, every order of
map iteration and message arrival, and every answer of the services it talks to.

| module | models |
|---|---|
| Printers, PrinterMap, Sync, Cloud, CloudRuns, Manager, Rounds | printer synchronisation: the diff, the concurrent apply and fan-in, the two indexes, the cloud's records, and runs of rounds |
| Semaphore, Jobs, JobCache | the life of print jobs: in-flight set, counters, reports, and the Privet job cache |
| LogRoller, Decimals | the rolling log file |
| Ppd, PpdEntries, Capabilities, PpdStandAlones, PpdTranslation | from PPD statements to a printer's capabilities |
| Ticket, TicketRoundTrip, PpdToTicket | from a job ticket back to PPD options, and the way from PPD to job end to end |
| PpdCache | the cache of translated PPDs, with the descriptions that share its pointers |
| Xmpp | the keep-alive protocol: dispatcher, pinger, supervisor |
| Ports, Backoff, DeepHash, Fcm | the port allocator, the retry delays, the deep hash, the notification framing |
| Cdd, Collections | shared types; stock datatypes and sequence facts |

`dafny verify dfyconfig.toml` checks everything.

Objects whose methods change their fields are classes with a `Valid` invariant; loops are methods proved
against specification functions, and the theorems are about those functions. Concurrency is modelled by steps:
a goroutine order is an arbitrary schedule, an interleaving is an arbitrary sequence of enabled events, and
clocks, random numbers, cloud replies, read sizes and the operating system's answers are parameters. Panics of
the source are results (`None`, `Crashed`, `Panics`), unless an earlier stage rules them out.

Where the code does not do what its comments or its purpose suggest, the model follows the code. For these the
exact condition is proved, in both directions, and an input is given where the condition does not show one:

- Surplus cloud printers of one name are never deleted, because the manager compares with an index by name; this
  is so exactly if the cloud lists a name twice at the start (CloudRuns.SurplusAtStart, CloudRuns.CloudFollows).
- A registration does not send the quota, so the cloud has the native quota exactly if it chose it
  (Cloud.CreatedIsTwin, Cloud.CloudBecomesMirror).
- The limit on concurrent print calls fails exactly for a printer that disappears and returns
  (Rounds.LimitFailsExactlyOnReturn).
- A native job state kills the process exactly if it is not one of 3 to 9 (Jobs.CrashesExactlyOnUnknown,
  Jobs.CrashNeedsUnknownState, Jobs.KnownNativeStates).
- Statements can be lost outside InstallableOptions groups (Ppd.WhatIsLost; Ppd.LossOutsideInstallable).
- The fallback for a missing PPD default is an option's value where a keyword is meant
  (Capabilities.SelectFallback and the four after it; Capabilities.FallbackMisfires).
- Output bins translated as "Print Quality" are advertised twice (PpdTranslation.IDsAreDistinct;
  PpdTranslation.BinCanBeQuality).
- A PPD that does not get a newer time than one before it can stay stale (PpdCache.StaleExactlyIfHeld;
  PpdCache.StaleWithinOneTick).
- A port scan leaves an interval that ends with 65535 (Ports.ScanLeavesOnlyAtTheTop).
- A port whose listener fails for a reason other than "address in use" stays marked (Ports.PortManager.Listen).
- The deep hash does not see integers of the platform's size, nor how lists are nested, nor where texts end
  (DeepHash.StrippedHashesAlike, DeepHash.TextsRunTogether); every other change of a leaf it sees exactly if it reaches
  it (DeepHash.ChangesAreSeen).
- A dying XMPP conversation waits for ever exactly if Quit has given up and the supervisor has stopped
  (Xmpp.DeathIsHeard, Xmpp.StuckStays; Xmpp.StuckIsReached).

Three assumptions about the outside are shown to be needed, or sufficient, and are not claimed to be exact: a server
that sends numbers in iqs only as replies (Xmpp.IntruderIsBelieved shows a run without it), a clock that advances
with every change of a PPD (PpdCache.EveryGetIsCurrent), and a cloud that hands out new IDs (CloudRuns.IsFair).

## Model

| member | source | states |
|---|---|---|
| Printers.DiffPrinter | lib/printer.go:163-241 | the diff panics exactly when the cloud record has the newer API version; otherwise it is an update exactly when a compared field differs, flagged field by field, and the cloud record itself when none does |
| Printers.DiffPrinters | lib/printer.go:107-156 | for any two lists: nil exactly when no printer needs anything; otherwise one diff per cloud record (the first of each name compared with its native printer, all others deleted) and one registration per unknown native printer |
| Printers.DiffMeans | lib/printer.go:107-141 | by positions: a cloud record is deleted if another of its name comes before it or no native printer has its name; else it is compared with the last native printer of that name, which takes over its ID and semaphore |
| Printers.RegistrationsMean | lib/printer.go:143-149 | the diffs after these are the registrations of exactly those native printers whose name no cloud record has, in order |
| Printers.SliceToMapByName | lib/printer.go:97-103 | the index by name in which the last printer of a name wins |
| PrinterMap.ConcurrentPrinterMap.Refresh | lib/concprintermap.go:30-48 | both indexes are those of the new slice alone; printers without a GCPID are left out of the second |
| PrinterMap.ByIDIsLast | lib/concprintermap.go:30-48 | under each GCPID stands the last printer that has it, and under no other ID anything |
| PrinterMap.ConcurrentPrinterMap.GetAll | lib/concprintermap.go:77-89 | a listing of the name index without repeated names, in an arbitrary order |
| PrinterMap.IndexesAgree | lib/concprintermap.go:30-48 | with distinct names and distinct non-empty GCPIDs the two indexes hold the same printers |
| PrinterMap.AgreeDetermines | lib/concprintermap.go:30-48 | an ID index that holds the same printers as the name index is determined by it |
| Sync.DiffsHaveDistinctNames | lib/printer.go:107-156 | no two diffs of a round are about the same name |
| Sync.CollectedIsSynced | manager/printermanager.go:190-214 | any collection that holds one message of every diff amounts to the closed form of a round: native printers under their known ID and semaphore, plus successful registrations |
| Cloud.PatchMakesTwins | gcp/gcp.go:328-408 | diff and patch belong together: if a cloud record backs what the manager knows of it, the request of an update makes it equal to the native printer in every compared field that the cloud lists, tags up to their hash; and its quota becomes the native one exactly where it was flagged or already agreed |
| Cloud.CreatedIsTwin | gcp/gcp.go:265-325 | so does a registration, except for the quota, which it does not send: the new record has the native quota if and only if the cloud happened to choose it |
| Cloud.MirrorsAreInSync | lib/printer.go:163-241 | what the two are to achieve: a record equals the native printer in the compared fields, the duplex map aside, exactly if diffPrinter finds nothing to do |
| Cloud.CallsAreIndependent | manager/printermanager.go:198-205 | calls about different cloud IDs commute: each record ends up as its own call alone leaves it, for every order of the goroutines |
| Cloud.CloudBecomesTwin | lib/printer.go:115-149 | for any list of cloud printers, repeated names included, and any order of successful calls: the cloud ends up with exactly one printer per native name, equal to it but for the quota, if and only if it held nothing besides the list before |
| Cloud.CloudBecomesMirror | lib/printer.go:115-149 | and equal in the quota too, if and only if moreover every pushed or agreed quota and every quota chosen by the cloud is the native one |
| CloudRuns.SurplusAtStart | manager/printermanager.go:67-80 | of what the cloud lists when the manager starts, some printer is unknown to the manager if and only if a name occurs twice |
| CloudRuns.SurplusSurvives | manager/printermanager.go:164-215 | such a printer is never deleted or changed, in any run of rounds, whatever is native and whatever the cloud answers |
| CloudRuns.CloudFollows | manager/printermanager.go:64-215 | the cloud after any run of rounds whose calls succeed: exactly one printer per name of the last snapshot, equal to it but for the quota, if and only if no name occurred twice at the start; and equal in the quota too, if and only if moreover the last round keeps the quotas |
| Cloud.UntouchedStays | gcp/gcp.go:328-408 | a record that no successful call is about never changes |
| Manager.Service.Call | gcp/gcp.go:265-408 | a call changes the one record that it is about: a registration adds it from the request, an update patches it with the form filled field by field, a deletion removes it; a failed call changes nothing |
| Manager.PrinterManager.constructor | manager/printermanager.go:64-91 | the manager starts with the last of the cloud's printers of each name, each with a job semaphore of its own |
| Manager.PrinterManager.ApplyDiff | manager/printermanager.go:217-297 | every path through a goroutine sends exactly one message, and makes at most its one cloud call |
| Manager.PrinterManager.RunAll | manager/printermanager.go:198-202 | in every order of the goroutines the channel holds exactly one message per diff |
| Manager.PrinterManager.Collect | manager/printermanager.go:203-209 | exactly as many messages are received as there are diffs; the zero printers are dropped |
| Manager.PrinterManager.SyncPrinters | manager/printermanager.go:164-215 | a whole round, said of the snapshot as it was taken, for distinct names that are not empty: it crashes exactly if a known printer has a newer API version; otherwise it answers that all is in sync exactly if the known names are the snapshot's and each known printer shows its native one in every compared field, with the hash of its tags, the hash of its description and the configured channel; and afterwards every native printer that was known, or whose registration succeeded, is known and shows just that, under its known ID and semaphore or new ones, with its own tags where anything had changed. A failed snapshot changes nothing, the cloud is what the calls made of it, and the ID index holds the same printers as the name index if new IDs are new |
| Manager.PrinterManager.SyncPeriodically | manager/printermanager.go:144-162 | the loop over ticks: without a crash, the cloud and the known printers are what the run of all rounds whose snapshot could be taken makes of them |
| Manager.EverythingArrives | manager/printermanager.go:203-209 | for every schedule, what is collected is one message of every diff and nothing else |
| Manager.FanInIsConfluent | manager/printermanager.go:198-211 | two schedules of the same goroutines: the collector has the same printers, each as often, so both rebuilt indexes are the same, and they hold the same printers |
| Manager.RoundIsSynced | manager/printermanager.go:164-215 | whichever way a round goes, nil diff included, the known printers afterwards are the closed form |
| Manager.PrinterManager.SyncTwice | manager/printermanager.go:144-215 | two rounds on one snapshot: the second never panics, and it finds everything in sync if and only if no registration failed in the first |
| Rounds.OneRoundConverges | manager/printermanager.go:164-215 | after one round, whatever became of update and delete calls, the known names are the native ones minus failed registrations, each equal to its native printer in every compared field |
| Rounds.SecondRound | manager/printermanager.go:164-215 | a second round on the same snapshot never panics, asks for the failed registrations again and for nothing else; its diff is nil if and only if no registration failed |
| Rounds.CleanIsSynced | lib/printer.go:151-155 | a nil diff means that the round would have changed nothing |
| Rounds.SemaphoresAlways | manager/printermanager.go:236 | over all runs of rounds every known printer has a semaphore, and no two share one |
| Rounds.SemaphoreContinuity | lib/printer.go:124-139 | while a name stays native, its semaphore object never changes, through any number of updates |
| Rounds.PrintLimitHolds | cups/cups.go:481-483 | in every interleaving of rounds and print calls in which a printer stays native, at most the configured number of its print calls are under way |
| Rounds.LimitFailsExactlyOnReturn | manager/printermanager.go:236 | the limit on print calls, exactly: for any synchronisations and any limit, some interleaving with lookups, acquisitions and releases exceeds it if and only if the printer is forgotten in one of them and known again after a later one |
| Semaphore.Semaphore.TryAcquire | lib/semaphore.go:27-34 | a holder is let in exactly while fewer than size hold the semaphore |
| Semaphore.Semaphore.Release | lib/semaphore.go:38-45 | the panic happens exactly when nobody holds the semaphore; otherwise one holder less |
| Jobs.ExactlyOnceAccounting | manager/printermanager.go:323-356 | in every interleaving of any number of goroutines: at most one accepted job per ID is active, and accepted jobs = done + printJob's errors + accepted jobs not yet counted, all of which are active |
| Jobs.DuplicatesAreInert | manager/printermanager.go:363-371 | in every run: a job is rejected if and only if an active job has its ID; that changes no counter and not the in-flight set, and its goroutine stays as it is in whatever follows |
| Jobs.SqueezedStutters | manager/printermanager.go:435-441 | removing consecutive repeats loses nothing: the polled states are the reported ones with repetitions, and no two neighbouring reports are equal |
| Jobs.ReportTrace | manager/printermanager.go:407-451 | the reports of a finished submitted job, in terms of the answers it got: the polled states without consecutive repeats, plus one abort with the last page count exactly if a poll failed; all but the last are ongoing, the last is not, and the job counts as done exactly when the last says so |
| Jobs.FailureReport | manager/printermanager.go:377-406 | a finished job that was never submitted made one report and counts as an error: aborted because the printer is deleted exactly if the lookup failed, aborted with a print failure exactly if the submission failed |
| Jobs.EveryJobCanEnd | manager/printermanager.go:363-451 | at every point of every interleaving, each goroutine can be brought to its end by at most six steps of its own, even if every call to the spooler fails from now on; unless it has polled an unknown state, which kills the process |
| Jobs.JobsCanBePrinted | manager/printermanager.go:363-451 | at every point of every interleaving, a job whose ID is not in flight can be received, submitted, reported and counted, and then the counters have moved by its one result and everything else is as before |
| Jobs.CrashNeedsUnknownState | manager/printermanager.go:435-444 | the nil dereference can only follow a native state that the translation does not know |
| Jobs.CrashesExactlyOnUnknown | manager/printermanager.go:421-444 | whenever a goroutine polls a state, in any run, its own next steps crash the process if and only if the state is such a one |
| Jobs.KnownNativeStates | cups/cups.go:451-478 | every code of RFC 8011 section 5.3.7 with its cloud state and cause: 3 to 5 in progress, 6 stopped, 7 aborted by the user, 8 aborted with a print failure, 9 done; no other code is known |
| JobCache.FormatIsInjective | privet/jobcache.go:78-85 | different numbers never print the same in base 36 |
| JobCache.DigitsAre | privet/jobcache.go:78-85 | the digits are 0 to 9 and a to z |
| JobCache.IDsAreNotReused | privet/jobcache.go:78-85 | two IDs differ whenever fewer than 2^64 jobs lie between them, and coincide at exactly 2^64 |
| JobCache.Cache.CreateJob | privet/jobcache.go:87-100 | a never used ID, the next one in base 36; an entry that is queued with a ticket and a draft without, for 3600 seconds; and a timer for its expiry; every job stays in the cache until it expires or is deleted |
| JobCache.Cache.UpdateJob | privet/jobcache.go:140-155 | the state and the pages that a report carries replace the old ones, and nothing else changes; a job no longer there is ignored |
| JobCache.Cache.SubmitJob | privet/jobcache.go:113-126 | name, type and size are stored, nothing else changes, and the answer is the time left; zero for a job no longer there |
| JobCache.Cache.DeleteJob | privet/jobcache.go:128-138 | entry and timer go together |
| JobCache.Cache.GetJobExpiresIn | privet/jobcache.go:102-111 | an unexpired job that was not deleted is found, with the time it has left |
| JobCache.EntryShowsReports | privet/jobcache.go:87-155 | while a job is in the cache, its entry shows exactly the reports about it, whatever else is called in between, about this job or others |
| JobCache.ShownStateIsLast | privet/jobcache.go:140-155 | of any reports, the state shown is that of the last one that has a state |
| JobCache.ShownPagesAreLast | privet/jobcache.go:140-155 | and the pages are those of the last one that has pages |
| JobCache.UnreportedStays | privet/jobcache.go:140-155 | what no report says stays as it was |
| JobCache.ReportsAreItsOwn | manager/printermanager.go:407-451 | in every interleaving, the reports made about a job ID that was accepted once are those of its goroutine, in order |
| JobCache.CacheShowsLastReport | privet/jobcache.go:140-155 | goroutines and cache together: when a submitted job has finished, its entry shows the last reported state, and the job was counted as done exactly when that is DONE |
| LogRoller.InsertAscends | log/logroller.go:96-110 | sorting by number value keeps all names and orders them strictly |
| LogRoller.PadHasWidth | log/logroller.go:150-165 | a number is written with the width asked for, or, if it is longer, without a leading zero |
| Decimals.ValIsPositional | log/logroller.go:129-140 | the value of a numeric suffix is positional: each digit is worth ten times as much as in the next place |
| Decimals.DigitsAre | log/logroller.go:129-140 | and a digit alone is worth its distance from 0 |
| LogRoller.TargetIsFree | log/logroller.go:143-159 | in the descending pass no rename hits an existing path, and the file to be renamed is still untouched |
| LogRoller.StagesRenumber | log/logroller.go:143-159 | on any directory with distinct numbers below 65535: exactly the maxFiles-1 lowest-numbered files survive, contents unchanged, under the next number; all other numbered files are gone, other names untouched, number 0 free |
| LogRoller.LogRoller.Numbers | log/logroller.go:122-142 | the numeric suffixes, each once, lowest first; other suffixes are ignored |
| LogRoller.LogRoller.Roll | log/logroller.go:116-170 | a roll is that renumbering followed by the log file becoming number 0; nothing happens without a log file, and with maxFiles 0 the log file stays to be truncated |
| LogRoller.RollExtendsHistory | log/logroller.go:116-170 | numbers 0, 1, ... are always the newest closed files, newest first, at most maxFiles of them |
| LogRoller.LogRoller.OpenFile | log/logroller.go:81-94 | the closed file joins the history as a whole, and an empty log file is opened |
| LogRoller.LogRoller.Write | log/logroller.go:56-79 | the bytes go to the end of the log file, or to a new one if it was closed; the file stays open exactly while it is not over the limit, so every closed file exceeds the limit by its last write alone |
| LogRoller.LogRoller.FilesAreTheLog | log/logroller.go:56-170 | conservation over all runs of writes: rolled files oldest first, then the log file, are the end of everything written, starting at a roll; all of it until more than maxFiles files were rolled |
| Ppd.GroupStatements | cups/translate-ppd.go:270-314 | the UI constraints are the statements with that keyword, in order; the other three outputs are, in order, those that belong there by keywords and positions (Belongs), and every group has its header in front and no other header |
| Ppd.SinkBelongs | cups/translate-ppd.go:270-314 | where each statement goes, by keywords and positions, both ways: stand-alone exactly if it is plain and the last InstallableOptions group and the last UI opened before it are closed; to the groups inside exactly if it opens a UI or is plain, in an InstallableOptions group, after a first UI inside; to those outside likewise with an open UI |
| Ppd.GroupingIsUnique | cups/translate-ppd.go:270-314 | no other grouping of the same statements has its headers in front |
| Ppd.EveryStatementGoesSomewhere | cups/translate-ppd.go:270-314 | every statement is selected for exactly one of the four outputs or for none |
| Ppd.WhatIsLost | cups/translate-ppd.go:298-309 | by positions, exactly which statements are thrown away: those in an InstallableOptions group before the first UI in such a group, and those after such a group that ended with a UI open, before the first UI outside; the second kind never in well-bracketed files |
| Ppd.LossOutsideInstallable | cups/translate-ppd.go:303-306 | a file in which a statement outside every InstallableOptions group is lost |
| PpdEntries.FilterConstraints | cups/translate-ppd.go:321-355 | every group keeps, in order, exactly the statements that no constraint excludes whose first half is installed, that is, the value of a default statement among the installable groups |
| PpdEntries.ExcludedAre | cups/translate-ppd.go:321-342 | an option is excluded if and only if some constraint names it second, and some installable default has the keyword and value that the constraint names first |
| PpdEntries.KeptMembers | cups/translate-ppd.go:343-352 | filtering removes the excluded statements and no others |
| PpdEntries.GroupIsEmptied | cups/translate-ppd.go:343-352 | a group loses its header position altogether if and only if all its statements are excluded |
| PpdEntries.GroupsSurvive | cups/translate-ppd.go:343-362 | if no applicable constraint names OpenUI or JCLOpenUI, every group keeps its header in front |
| PpdEntries.ReadEntry | cups/translate-ppd.go:360-394 | the entry of a group, if it has a supported type and an option |
| PpdEntries.EntryMeans | cups/translate-ppd.go:360-394 | a group gives an entry if and only if its type is PickOne or Boolean and it has an option; the options are the non-default statements whose keyword starts with that of the UI, in order; the default is that of the group if an option has this keyword, else the first option's value |
| PpdEntries.DefaultIsLast | cups/translate-ppd.go:368-374 | the default of a group is the value of its last default statement; empty without one |
| PpdEntries.OpenUIStatementsToEntries | cups/translate-ppd.go:357-400 | it fails exactly when some group is empty; otherwise both indexes hold, for each key, the last entry that has it |
| PpdEntries.EntriesAreSound | cups/translate-ppd.go:379-396 | every entry has an option, all from its group, and its default is the keyword of one of them or else the first one's value |
| Capabilities.ConvertColor | cups/translate-ppd.go:501-578 | nil exactly without options; else all options, colours before grays before the rest, typed by how many there are of each, with the first match of the default marked |
| Capabilities.ColorIsComplete | cups/translate-ppd.go:501-563 | every option of the entry is advertised |
| Capabilities.ColorIsSound | cups/translate-ppd.go:501-563 | every advertised colour is an option of the entry |
| Capabilities.ColorMeans | cups/translate-ppd.go:501-563 | each advertised colour has the ID and the name of an option; its type is monochrome if its keyword is gray, standard if no other option is, and colour likewise; what is neither is custom monochrome |
| Capabilities.ColorsComeFirst | cups/translate-ppd.go:554-563 | no colour comes after a monochrome option |
| Capabilities.ColorHasOneDefault | cups/translate-ppd.go:565-577 | exactly one colour is the default, and it is the entry's default if that is an option |
| Capabilities.StandardTypesAreUnique | cups/translate-ppd.go:515-553 | a standard colour type is advertised once at most |
| Capabilities.ConvertDPI | cups/translate-ppd.go:623-660 | nil exactly if no option parses; else the parsing options in order |
| Capabilities.DPIHasOneDefault | cups/translate-ppd.go:647-659 | exactly one resolution is the default |
| Capabilities.ConvertMediaSize | cups/translate-ppd.go:724-758 | the options with a size and without .FullBleed, in order; nil exactly if there is none |
| Capabilities.MediaSizesMean | cups/translate-ppd.go:726-742 | an option with a known size is advertised with that size, unless its keyword ends in .FullBleed, and then nothing has its ID |
| Capabilities.MediaSizeHasOneDefault | cups/translate-ppd.go:743-757 | there is exactly one default if and only if the default keyword is advertised once at most |
| Capabilities.ConvertDuplex | cups/translate-ppd.go:580-621 | the known options in order with their type, and for each advertised type the last option of that type; nil exactly if none is known |
| Capabilities.DuplexIsComplete | cups/translate-ppd.go:580-611 | by keyword: long edge is advertised, and mapped, if and only if some option is DuplexNoTumble, True or Double or starts with 2; short edge if and only if one is DuplexTumble or Booklet; no duplex if and only if one is None, False or Single or starts with 1 |
| Capabilities.DuplexIsMappedToLast | cups/translate-ppd.go:580-611 | it is mapped to the last such option |
| Capabilities.DuplexHasOneDefault | cups/translate-ppd.go:613-619 | there is exactly one default if and only if the default keyword is advertised once at most |
| Capabilities.ConvertVendorCapability | cups/translate-ppd.go:686-722 | all options of a PickOne entry, or the default of a Boolean one, under the entry's keyword |
| Capabilities.SelectHasOneDefault | cups/translate-ppd.go:696-711 | there is exactly one default if and only if the default keyword is advertised once at most |
| Capabilities.SelectFallback | cups/translate-ppd.go:391-393 | the fallback for a missing default is the first option's value; so the first value of a select capability is its default if and only if no option has that value for its keyword, or the first one has |
| Capabilities.ColorFallback | cups/translate-ppd.go:391-393 | the same for the first colour, among the options sorted by tint |
| Capabilities.DPIFallback | cups/translate-ppd.go:391-393 | the same for the first resolution, among the options that parse |
| Capabilities.MediaSizeFallback | cups/translate-ppd.go:391-393 | the same for the first media size, among the options with a size |
| Capabilities.DuplexFallback | cups/translate-ppd.go:391-393 | the same for the first duplex option, among the known ones |
| Capabilities.FallbackMisfires | cups/translate-ppd.go:391-393 | a family of files in which that fails: the fallback is a value, not a keyword, and happens to be the keyword of the second option |
| Capabilities.ConvertRicohLockedPrintPassword | cups/translate-ppd.go:664-684 | a password capability exactly if the job type offers locked print |
| PpdTranslation.TranslateVendor | cups/translate-ppd.go:139-206 | output bins, the Ricoh password and print quality first, then every other wanted entry exactly once, in the arbitrary order of the map |
| PpdTranslation.VendorIDs | cups/translate-ppd.go:169-206 | exactly which vendor capabilities are advertised: OutputBin if there is one, the Ricoh password if the job type can lock a print, the entry translated as Print Quality, and every wanted entry without a section of its own; by literal keywords, both ways |
| PpdTranslation.SectionsAre | cups/translate-ppd.go:144-171 | which entry each section is about: PageSize, Resolution, the first of ColorModel, CMAndResolution and SelectColor, and the first of Duplex, BRDuplex and KMDuplex; no section without them |
| PpdStandAlones.CleanupModel | cups/translate-ppd.go:402-414 | cleaning up a model ends, with the text that the next row is about |
| PpdStandAlones.CleanedIsClean | cups/translate-ppd.go:402-414 | what is left is the model after some rounds of deletions, with nothing superfluous in it, no comma and no (PS) at its end |
| PpdStandAlones.ConvertMargins | cups/translate-ppd.go:416-449 | four numbers are left, bottom, right, top; margins are borderless exactly if all are zero, and missing exactly if a number is no 32-bit number or the pattern fails |
| PpdStandAlones.ConvertPrintingSpeed | cups/translate-ppd.go:451-476 | the number, for exactly the colour types that are advertised |
| PpdStandAlones.ReadStandAlones | cups/translate-ppd.go:213-227 | of each kind of stand-alone statement the last one counts, and the model does not repeat the manufacturer |
| PpdStandAlones.SaysMeans | cups/translate-ppd.go:213-226 | by keyword: the last Manufacturer, NickName, HWMargins and Throughput each; the model without the manufacturer and the spaces after it |
| PpdStandAlones.SaysNothing | cups/translate-ppd.go:213-226 | and nothing of each kind that is missing |
| PpdTranslation.ReadEntries | cups/translate-ppd.go:131-136 | from statements to indexed entries: each entry comes from a group of the PPD after the filter; it cannot fail when no applicable constraint names a header keyword |
| PpdTranslation.TranslatePPD | cups/translate-ppd.go:131-229 | the composition of all stages keeps their contracts, from the statements to the description, manufacturer and model |
| PpdTranslation.IDsAreDistinct | cups/translate-ppd.go:172-206 | no vendor capability ID is advertised twice, if and only if the entry translated as "Print Quality" is not that of the output bins |
| PpdTranslation.BinCanBeQuality | cups/translate-ppd.go:172-193 | a PPD of two statements for which it is |
| Ticket.JoinOfSplit | cups/translate-ticket.go:43 | splitting an ID at slashes loses nothing |
| Ticket.SplitOfJoin | cups/translate-ticket.go:43 | joining pieces without slashes can be undone |
| Ticket.MatchMeans | cups/translate-ticket.go:22-24 | the pattern matches a key without a colon, and a key and a value with a colon between them, and nothing else |
| Ticket.PieceIsSet | cups/translate-ticket.go:43-52 | a pair sets its key to its value; every other piece is itself the key, and is set to the value of the item |
| Ticket.ApplyIsLast | cups/translate-ticket.go:43-52 | of settings with one key the last one wins, and keys without a setting stay |
| Ticket.VendorIDRoundTrip | cups/translate-ticket.go:22-53 | any A:B/C vendor ID built with the two separators is read back as exactly the settings it was built from |
| Ticket.TranslateItems | cups/translate-ticket.go:32-53 | vendor items set their options in order; a Ricoh password that is empty is skipped, and a malformed one fails the whole ticket |
| Ticket.TranslateTicket | cups/translate-ticket.go:26-138 | nothing without a printer or a ticket; else the vendor items and then every section that the printer and the ticket both have, later ones winning |
| TicketRoundTrip.ColorRoundTrip | cups/translate-ticket.go:54-71 | a ticket with an advertised colour ID sets exactly the entry's main keyword to that option's keyword |
| TicketRoundTrip.EveryColorCanBeChosen | cups/translate-ticket.go:54-71 | for every option of the entry some advertised colour leads to it |
| TicketRoundTrip.ColorByType | cups/translate-ticket.go:58-66 | a ticket with a type only gets the first advertised colour of that type |
| TicketRoundTrip.DPIRoundTrip | cups/translate-ticket.go:93-95 | an advertised resolution sets exactly Resolution, to an option that parses to its numbers and has its name |
| TicketRoundTrip.DPIByNumbers | cups/translate-ticket.go:96-103 | so does a ticket that gives only the numbers; of several options with these it gets the last |
| TicketRoundTrip.MediaSizeRoundTrip | cups/translate-ticket.go:113-121 | an advertised media size sets exactly PageSize, to an option that stands for this size |
| TicketRoundTrip.CustomMediaSize | cups/translate-ticket.go:116-120 | a media size without an ID sets PageSize to a custom size, its width first |
| TicketRoundTrip.UnsupportedIsIgnored | cups/translate-ticket.go:54-135 | sections that the printer lacks, and values without a native counterpart, make no difference |
| TicketRoundTrip.DuplexRoundTrip | cups/translate-ticket.go:72-78 | every advertised duplex type sets exactly the main keyword: long edge to an option that is DuplexNoTumble, True or Double or starts with 2, short edge to DuplexTumble or Booklet, no duplex to None, False or Single or one that starts with 1 |
| TicketRoundTrip.SelectRoundTrip | cups/translate-ticket.go:43-52 | a value of a select capability sets exactly the entry's main keyword to it |
| TicketRoundTrip.PasswordRoundTrip | cups/translate-ticket.go:32-52 | the Ricoh ID locks the print with four digits, asks for nothing when empty, and is an error otherwise |
| PpdToTicket.ChoicesDoNotInterfere | cups/translate-ticket.go:26-138 | a ticket may choose colour, duplex, resolution, media size and vendor options at once: each choice is set, and every other key is that of the vendor items |
| PpdToTicket.ChoicesAreInThePpd | cups/translate-ppd.go:131-229 | from the PPD to the job: whatever a ticket asks for at once, of what the translation of a PPD advertises, by IDs or by type and numbers alone, becomes an option of the right UI that stands in the PPD and that no applicable constraint excludes; all other job options but the attributes are those of the vendor items |
| PpdToTicket.AttributesAreSet | cups/translate-ticket.go:79-135 | copies, orientation, margins, fitting, collation and output order are the ticket's, whatever the other sections and vendor items set |
| PpdCache.Absorb | cdd/cdd.go:49-122 | the absorbed fields win and the others stay; of the vendor capabilities exactly those are added whose ID is new, after the receiver's own; the receiver's own list is written to if and only if both lists are there, it is not empty, and some ID is new |
| PpdCache.Entry.Refresh | cups/ppdcache.go:152-194 | it succeeds exactly with the server and the PPD, and with a time that has not advanced or a file that parses to a manufacturer and a model; then the entry is unchanged, or else just that translation with the new time |
| PpdCache.Cache.RemovePPD | cups/ppdcache.go:61-69 | the cache without that printer |
| PpdCache.Cache.GetPPDCacheEntry | cups/ppdcache.go:71-107 | the refreshed entry, shared by pointer, and no other entry touched; after a failed refresh no entry is left |
| PpdCache.EveryGetIsCurrent | cups/ppdcache.go:71-107 | coherence: if every change of a PPD advances its time, then in every run of gets, failed refreshes, removals, quits and server changes each successful get is the translation of the then current PPD |
| PpdCache.StaleExactlyIfHeld | cups/ppdcache.go:71-107 | coherence, exactly: given what happens on the server and what is removed from the cache, some placement of gets gives a stale answer if and only if a PPD that was current since the last removal is no older than the present one and translates differently, or the present one has no positive time |
| PpdCache.StaleWithinOneTick | cups/ppdcache.go:161-164 | the input: two changes within one tick of the server's clock |
| PpdCache.Describe | cups/cups.go:320-365 | absorbing the cached and the static description into a printer's own never changes the cached descriptions, although their lists are shared |
| Xmpp.RunIsSafe | xmpp/internal-xmpp.go:97-121 | every state of every run with a polite server satisfies the invariant on which the others rest |
| Xmpp.DispatcherNeverBlocks | xmpp/internal-xmpp.go:214-219 | in every such run, the pong channel of a connection holds one item at most, and its dispatcher can always send |
| Xmpp.SuccessIsGenuine | xmpp/internal-xmpp.go:246-268 | in every such run, a pong that is taken answers the ping just sent, although IDs repeat after 256 pings |
| Xmpp.NoPingAfterFailure | xmpp/internal-xmpp.go:136-144 | after a failed ping a connection never sends another, in the rest of the run |
| Xmpp.OneLiveConversation | xmpp/xmpp.go:78-120 | in every such run, at most one conversation is live; each signals its death once at most, and only after its dispatcher has ended |
| Xmpp.DeadIsReplaced | xmpp/xmpp.go:78-120 | recovery: in every run, whatever the goroutines of the current conversation are doing, four steps of their own at most, none of them the server's, bring it to its end; its death is then heard once, and a new connection is made |
| Xmpp.PingSucceeds | xmpp/internal-xmpp.go:132-153 | in every run, an idle conversation can ping and be answered, and is as before but for the count |
| Xmpp.DeathIsHeard | xmpp/xmpp.go:65-76 | in every run, a conversation about to signal its death finds a receiver if and only if it is not so that the supervisor has stopped and Quit no longer waits |
| Xmpp.StuckStays | xmpp/xmpp.go:65-76 | without a receiver it waits for ever, in whatever follows |
| Xmpp.StuckIsReached | xmpp/xmpp.go:65-76 | a run that comes to this: Quit gives up before the dispatcher notices the closed connection |
| Xmpp.IntruderIsBelieved | xmpp/internal-xmpp.go:214-219 | an assumption that is needed: an unsolicited iq with the next number makes a ping succeed that nobody answered |
| Ports.PortManager.NextAvailablePort | privet/portmanager.go:62-74 | the least unmarked port from the start on, now marked; zero exactly if all are marked |
| Ports.PortManager.Listen | privet/portmanager.go:43-55 | it ends, with the least port neither marked nor in use elsewhere; no port is available if and only if every port is marked or in use; other failures leave their port marked with nobody listening |
| Ports.Listener.Close | privet/portmanager.go:130-137 | live listeners always hold distinct marked ports of the interval; a second close frees nothing |
| Ports.ScanIsLeast | privet/portmanager.go:66-71 | a scan in 16 bits stays in an interval that ends before 65535 |
| Ports.ScanLeavesOnlyAtTheTop | privet/portmanager.go:66-71 | a scan can come to a port outside the interval if and only if the interval ends with 65535 |
| Backoff.Backoff.Pause | lib/backoff.go:33-55 | for all random factors: a pause is granted if and only if the pauses then add up to 15 minutes at most; so the first 19 are granted, at most 39 ever are, and a refusal is final |
| Backoff.ThirtyNineIsReached | lib/backoff.go:33-55 | with the shortest random factor exactly 39 pauses are granted |
| Backoff.NineteenIsReached | lib/backoff.go:33-55 | with the random factor 1.49 exactly 19 are granted |
| Backoff.WithRetry | gcp/http.go:65-84 | both retry loops end with the first response whose status is not 500 to 599, or with the first pause too many, after 20 to 40 of those |
| DeepHash.Hasher.Hash | lib/deephash.go:58-132 | for any pointer heap the traversal ends, writes what Output says or panics, and restores the visited set; the next seven rows determine Output |
| DeepHash.LeavesAre | lib/deephash.go:60-97 | leaves write their bytes: a zero for an invalid value, a zero or a one for a truth value, the encoding of a number of fixed size, the bytes of a text, and nothing for an int |
| DeepHash.SameLeaves | lib/deephash.go:60-97 | so two texts, two numbers of fixed size or two truth values write the same if and only if they are the same |
| DeepHash.NothingIsWritten | lib/deephash.go:98-127 | empty lists, structures and maps write nothing |
| DeepHash.ListNext | lib/deephash.go:116-120 | a list writes its items in order, without their indices |
| DeepHash.StructNext | lib/deephash.go:123-127 | a structure writes its fields in order, each one's name first |
| DeepHash.MapNext | lib/deephash.go:98-107 | a map writes its entries by ascending keys, each one's key first |
| DeepHash.LessIsLexicographic | lib/deephash.go:51-52 | the order of the keys is the lexicographic one |
| DeepHash.PointersAre | lib/deephash.go:108-115 | a pointer writes what it points to, a zero if it is nil, and panics if the traversal is already there |
| DeepHash.Hasher.HashMap | lib/deephash.go:98-107 | what a map writes does not depend on the order in which its keys are enumerated |
| DeepHash.AscendingIsUnique | lib/deephash.go:99-103 | the sorted list of keys is determined by the keys |
| DeepHash.PanicsExactlyOnCycles | lib/deephash.go:108-115 | a panic exactly when some pointer that is reached leads back to itself, so sharing without a cycle is accepted |
| DeepHash.StrippedHashesAlike | lib/deephash.go:58-132 | what the hash does not see: dropping all int and uint values and splicing nested lists, anywhere in a value and in what it points to, leaves the output the same, against the comment in the source |
| DeepHash.IntegersAndNestingAreIgnored | lib/deephash.go:58-132 | so values that differ in nothing else have the same hash |
| DeepHash.TextsRunTogether | lib/deephash.go:116-122 | nor does it see where one text ends and the next one starts |
| DeepHash.ReplacingIsSeen | lib/deephash.go:58-132 | what the hash does see: a value with one part replaced, at any depth in lists, structures and maps, writes the same if and only if the replaced part does, and is longer by as much as that |
| DeepHash.LeafChangesAreSeen | lib/deephash.go:58-132 | so a change of one text, truth value or number of fixed size at any depth changes what is written, unless there is a panic |
| DeepHash.ChangesAreSeen | lib/deephash.go:58-132 | behind pointers too: a change of one in a cell of the heap changes what a value writes if and only if a chain of pointers leads from the value to that cell, however often it is reached |
| Fcm.GetPrinterID | fcm/fcm.go:119-142 | for every chunking of reads: exactly one frame is consumed; a frame that is cut off is an error and never a partial payload; a length that no slice can have, or a payload of the wrong shape, panics |
| Fcm.FrameRoundTrip | fcm/fcm.go:119-142 | a framed payload is read back, whatever follows it |
| Fcm.TruncatedFrame | fcm/fcm.go:119-142 | no proper prefix of a frame yields a payload |
| Fcm.ReadLoop | fcm/fcm.go:100-114 | the loop panics exactly when some frame makes it; otherwise it consumes the stream, delivers what it gives rise to in order, and then signals its end once |
| Fcm.FramesAreDelivered | fcm/fcm.go:100-142 | for a stream of frames, the last one possibly cut off, exactly what the payloads decode to is delivered, in order, without the empty IDs |
| Fcm.BadPayloadPanics | fcm/fcm.go:100-142 | a payload of the wrong shape makes the loop panic, whatever comes before and after it |
| Fcm.BadLengths | fcm/fcm.go:119-126 | so does a negative length, and one that no slice can have |
| Fcm.NoNumberIsZero | fcm/fcm.go:123-126 | a line that does not end in a digit counts as a length of zero, against what one would expect of a malformed frame |

## Left out

- HTTP, TLS, OAuth, JSON, XML, SASL and the XMPP handshakes; payloads are opaque values, and the XMPP model starts after the subscription.
- CUPS, Avahi, Bonjour, Windows and Cairo code: only what the core needs of them, such as the freshness rule of cupsGetPPD3.
- Regular expressions, the table of media sizes and the colour name clean-up: they are parameters of the translation. Keyed says what is assumed of the table.
- Unit conversion in float32: points and microns are parameters.
- `Config` backfill, command-line tools, the monitor socket, and XSRF tokens.
- CloudRuns.CloudFollows: all calls succeed; what a failed update or delete leaves behind is not repaired by later rounds (Rounds.SecondRound). The records have the fields that the two requests carry; the cloud lists all of them but the quota, and the notification channel of Register is the native printer's, because both come from one setting.
- Manager.PrinterManager.ApplyDiff: leaves out the Privet calls, the share call and the removal of a cached PPD, which do not affect the message sent.
- Manager.PrinterManager.SyncPrinters: the snapshot, the hashes and the listing are parameters; rounds do not overlap.
- Manager.PrinterManager.SyncPeriodically: the ticks are the elements of a list, and quitting is the end of it.
- Jobs.ReportTrace: each goroutine step is atomic, and what updateJob answers is ignored, as in the source.
- JobCache.CacheShowsLastReport: the cache receives the reports about a job in the order in which its goroutine makes them.
- JobCache.Cache.CreateJob: fewer than 2^64 jobs are ever created, and int32 truncation of the remaining seconds is not modelled.
- LogRoller.LogRoller.Write: no file-system errors, no overflow of the unsigned size, no pattern characters in the log's name; maxFiles up to 65535 and numeric suffixes with distinct values below 65535.
- LogRoller.LogRoller.constructor: the width of the numbers is a parameter, because the source computes it with a floating-point logarithm; every width is covered.
- LogRoller.LogRoller.Numbers: sorting is by insertion; the order is the same as any sort's because values are distinct.
- PpdTranslation.TranslatePPD: the statements are given; splitting the text into statements is not part of this model. Patterns and number parsing are parameters; Sensible says what is assumed of them.
- PpdCache.Cache.GetPPDCacheEntry: sequential; the unlocked delete and the race of two first gets are not modelled.
- Xmpp.RunIsSafe: the server sends a number in an iq only as a reply, once per ping; delays are arbitrary, and taking a notification is a step that may never come.
- Ports.PortManager.Listen: the upper bound is below 65535 (Ports.ScanLeavesOnlyAtTheTop shows why); concurrent callers are serialised.
- Backoff.Backoff.Pause: durations are integers, the random factor is any real in [0.5, 1.5), and the product is truncated exactly.
- Backoff.WithRetry: getWithRetry and postWithRetry differ only in how they find the status of a response, which is a parameter.
- DeepHash.Hasher.Hash: maps have string keys (the comparison of other keys in the source is broken), interfaces and other kinds on which the source panics are left out, and different objects have different addresses.
- Fcm.ReadLoop: the largest slice is a parameter; token retrieval and reconnecting are not part of this model.
