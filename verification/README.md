# Mafold: its small protocols, proved

A Dafny model of the parts of the Mafold command line and daemon where several processes, or
several steps of one process, have to fit together, with proofs of what they are for.
`dafny verify dfyconfig.toml` checks all of it.

| file | what it models |
|---|---|
| `ExitReceipt.dfy`, `LateReceipt.dfy`, `TaskLife.dfy`, `ReceiptText.dfy` | a detached task: the generated script's shell, its command, its timeout watchdog, the `mv` and `rm` they start and the outside world as one transition system of renames, creates, removes, signals, deaths and pid reuse; the daemon's observer interleaved with it one system call at a time; and the receipt's text |
| `ShellQuote.dfy` | quoting a path for that script, read by the quoting rules of the POSIX Shell Command Language, sections 2.2.1 and 2.2.2 |
| `ControlProtocol.dfy`, `ControlTruth.dfy`, `ControlDir.dfy`, `PassWords.dfy` | requests to the supervisor: askers and supervisors sharing a directory through renames, writes and removals, any of them dying anywhere; what an answer rests on; and one supervisor's whole pass over it |
| `CardTags.dfy`, `CardSpelling.dfy`, `CardStream.dfy`, `CardOwners.dfy`, `CardFeed.dfy` | splicing owners into card tags, cutting a stream where that is safe, the registry of slugs, and the narration that is committed piece by piece |
| `Seats.dfy`, `SeatMerge.dfy`, `SeatVerdict.dfy`, `SeatWords.dfy`, `SeatRecords.dfy`, `SeatChoice.dfy` | the registry of Claude logins: its rows and marks, merging what a probe found, reading the usage windows, reconciling, listing, choosing and handing over |
| `Keychain.dfy` | what is handed back while the Keychain is silent |
| `Calendar.dfy`, `UsageScan.dfy`, `UsageTotals.dfy` | dates as day numbers and back, streaks, and the windowed scan of transcripts |
| `Download.dfy` | the resuming download against a server of one object (RFC 9110, sections 14.2 and 15.3.7) |
| `AccountHealth.dfy` | the record of refused sign-ins |

A text is a sequence of cells, a character with a flag that says whether it stands in a code span;
what is spliced in is never code. `CardSpelling`, `SeatWords`, `UsageTotals` and `PassWords` say what is computed
once more in the terms of the input, down to the characters and constants. Time, start times, fingerprints, probes, the server's replies and
what other processes do are inputs, quantified over.

## What turned out not to hold

- The script traps HUP, INT and TERM. Any other fatal signal to the shell alone runs its EXIT trap at
  once, and the command runs on. A receipt, or the answer "exited", then stands beside a running command
  (`TaskLife.FatalMayTellTooEarly`), and comes to do so exactly when such a signal came after the command's
  start, the command runs on, and neither the shell nor its `mv` was ended short of the receipt
  (`ExitReceipt.OverlapIff`, `TaskLife.ExitedWhileRunningIff`).
- One that comes after the watchdog's start and before the shell has noted its pid leaves a watchdog
  nobody takes down, which writes over the receipt (`LateReceipt.ReceiptMayChange`). A receipt can change
  exactly when it is not the watchdog's and the watchdog may still write its own
  (`LateReceipt.ReceiptChangesIff`).
- `mv` is a process of the task's group. The watchdog's own TERM can end it, and then the shell takes the
  mark away and leaves by itself, and no receipt ever comes (`TaskLife.TermMayTakeTheReceipt`).
- `life` can answer "exited" with no code for a task whose receipt is still to come: in the second
  between the watchdog's KILL and its receipt (`TaskLife.TimedOutMayReadAsNoCode`). Such an answer is
  the last word exactly when the watchdog can no longer write (`TaskLife.NoCodeIsFinalIff`).
- A running task is called exited by some run, with no such signal, exactly when its pid cannot be read
  or a start time other than its own was recorded (`TaskLife.NeverEarlyIffRight`).
- `qualify` says it is idempotent. It is exactly for registries each of whose canonical references is
  left alone (`CardOwners.IdempotentIffStable`), which those with owners of the shape `[a-z][a-z0-9-]*` are;
  an owner `a_b` beside a slug `a` is spliced twice (`CardOwners.AnUnderscoreIsSplicedTwice`). For exactly
  those registries a narration streamed in any chunks comes out as it would in one
  (`CardFeed.StreamsIffStable`).
- With a second supervisor alive, an asker can be told its request was interrupted although the one
  that took it answered (`ControlProtocol.TwoMayDisagree`): nobody is told other than what was answered
  exactly when at most one may be alive at once (`ControlProtocol.NoneMistoldIffOneAtMost`). Nothing worse happens: what it reads is always
  the one or the other (`ControlProtocol.AnswerIsTheTakersOrInterrupted`).
- The download need not end (`Download.MayNeverEnd`). It ends exactly when the buffer shrinks only so many
  times (`Download.EndsIffSettles`), as it does when ranges are honoured. Of an object
  all of whose bytes arrived, the body that brought the last one may have torn after it, and then a request
  goes out for what lies past the end. From a server that refuses that, the object is handed back exactly
  when that body ended cleanly, and is lost otherwise (`Download.CompleteIffClean`,
  `Download.LostWithEveryByte`); from one that does not, the next body decides
  (`Download.TornThenAgain`, `Download.RecoveredAfterATear`).
- Of the walls a live probe measures only the first is remembered. After a probe of the same login that
  tells nothing, a turn is stopped by what the measurement said exactly when that first wall stops it and
  lasts (`SeatRecords.MeasuredWallHolds`); a second model's wall, or one behind an account-wide wall that
  rolls over first, is forgotten (`SeatRecords.SecondWallIsForgotten`,
  `SeatRecords.ScopedBehindAccountIsForgotten`).
- History and windowed scan together can count a session twice that goes on in a second file
  (`UsageScan.SessionInTwoFilesCountsTwice`). They agree with the full scan exactly when no session has its
  turns before the cut only in files that are passed over and a turn from the cut on in one that is read
  (`UsageScan.WindowAgreesIff`).

## Model

| member | source | states |
|---|---|---|
| ExitReceipt.StepKeepsInv | src/bash_hook.rs:310-341 | whichever process takes the next step, is ended, or gets a signal from outside, trapped or not, the one invariant of shell, command, watchdog, their `mv` and `rm`, mark and receipt is kept, and a receipt is not touched unless a fatal signal came before the watchdog was noted |
| ExitReceipt.ReceiptTellsTheEnd | src/bash_hook.rs:310-341 | a receipt beside a running command means a fatal signal took the shell from it; with the `timeout` line it says 124 and the mark was set; without, it carries the command's own code, had no such signal come between; and unless one came before the watchdog was noted, the line is there exactly when a watchdog was launched and never taken down, and else none is left |
| ExitReceipt.OverlapIff | src/bash_hook.rs:310-341 | from anywhere in any run, a receipt can come to stand beside the running command if and only if an untrapped fatal signal hit the shell after the start, the command runs on, and shell and `mv` were not killed short of the receipt |
| ExitReceipt.HistoryIsTheRun | src/bash_hook.rs:310-341 | what the invariant remembers of marks, of the watchdog's end, of a signal during the command and of an ended `mv` is what the run's steps were |
| ExitReceipt.UnnamedIsTheRun | src/bash_hook.rs:325-337 | and so of a fatal signal between the watchdog's start and `__mf_wd=$!` |
| ExitReceipt.MarkComesBeforeSignal | src/bash_hook.rs:316-324 | the watchdog signals the group only after it set its mark |
| LateReceipt.ReceiptChangesIff | src/bash_hook.rs:310-341 | in every interleaving, a receipt can come to change if and only if it is not the watchdog's and the watchdog may still write |
| LateReceipt.ReceiptNeverChanges | src/bash_hook.rs:310-341 | so its content never changes, unless a fatal signal came between the watchdog's start and the noting of its pid |
| LateReceipt.ReceiptMayChange | src/bash_hook.rs:325-337 | a run in which one did and the watchdog writes over the shell's receipt |
| LateReceipt.OverrunIsReported | src/bash_hook.rs:310-341 | a command still running when the mark was set, the shell not taken from it: any receipt there ever is says 124 and `timeout` |
| LateReceipt.NobodyLeftToWrite | src/bash_hook.rs:310-341 | a shell past its receipt, whose watchdog cannot write one, leaves things as they are, however the run goes on |
| ReceiptText.ReceiptReadsBack | src/bgtasks.rs:134-142 | reading what the script printed gives the code modulo 256 and whether the `timeout` line was there, for every receipt there can be |
| ReceiptText.PaddedReadsBack | src/bgtasks.rs:134-142 | and blanks around the code do not matter |
| ReceiptText.AnyLineMayMark | src/bgtasks.rs:140 | the word may stand on any line, with blanks around it |
| ReceiptText.WatchdogPrintsTheSame | src/bash_hook.rs:324 | the watchdog's own literal is what the shell prints for a timeout |
| TaskLife.ExitedOnlyAfterTheEnd | src/bgtasks.rs:198-214 | in every interleaving of the observer's reads with the task, pid reuse included, "exited" is answered only after the command's end, unless a fatal signal took the shell from it |
| TaskLife.ExitedWhileRunningIff | src/bgtasks.rs:198-214 | from anywhere in any run, "exited" can come to be answered of the running command exactly when a receipt can come to stand beside it |
| TaskLife.FatalMayTellTooEarly | src/bgtasks.rs:198-214 | a run in which it is |
| TaskLife.AnswerIsTheReceiptOrAKill | src/bgtasks.rs:198-214 | an answer with a code is the receipt's, had the watchdog been noted; one without comes only when the shell was killed, or its `mv` ended, short of a receipt, with nobody of the group left |
| TaskLife.SecondLookMatters | src/bgtasks.rs:213 | a run in which the first look and the pid both say gone and only the second look sees the receipt |
| TaskLife.NeverEarlyIffRight | src/bgtasks.rs:198-214 | without such a signal, "exited" is said of an unfinished task in no run if and only if the pid is readable and the recorded start, if any, the task's own |
| TaskLife.TimedOutMayReadAsNoCode | src/bgtasks.rs:213 | a run in which a timed-out task reads as ended with no code |
| TaskLife.TermMayTakeTheReceipt | src/bash_hook.rs:316-336 | a run in which the watchdog's TERM ends the `mv` of the shell's timeout receipt, and neither ever leaves one |
| TaskLife.NoCodeIsFinalIff | src/bgtasks.rs:198-214 | after an answer with no code, and none there, no receipt ever comes if and only if the watchdog can no longer write |
| ShellQuote.QuotedReadsAsItself | src/bash_hook.rs:380-382 | whatever precedes and follows, the quoted string reads as the string itself and what follows is read as it would have been |
| ShellQuote.QuotedIsOneWord | src/bash_hook.rs:380-382 | for every string, the shell reads its quoted form as one word, equal to it |
| ControlProtocol.StepKeepsInv | src/control.rs:152-316 | with any number of askers and supervisors, a step of any of them, or a crash, keeps the invariant of the directory and of what each supervisor holds |
| ControlProtocol.AtMostOnce | src/control.rs:227-261 | in every run each request is carried out at most once, one whose asker was told "untaken" never, a request never lies beside its taken file, and no taken request is dropped unanswered |
| ControlProtocol.AnswerIsTheTakersOrInterrupted | src/control.rs:152-294 | in every run, with any number of supervisors, an answer read is what the one that took the request wrote, or that it was interrupted, and the former when nobody said the latter |
| ControlTruth.BookIsTheRun | src/control.rs:152-261 | what was asked, which requests were read too late or found gone, and what the handler did and gave back are entries of acts of the run |
| ControlTruth.WhatIsSaid | src/control.rs:240-257 | in every run, with any number of supervisors, what the one that took a request wrote is the handler's own answer to the action asked for, exactly when it could be read in time, "unknown" exactly when it could not be read, and "expired" exactly when it was read too late |
| ControlProtocol.SoloStep | src/control.rs:227-316 | what holds besides when supervisors come one after another, crashing anywhere, is kept by every step |
| ControlTruth.AskerGetsTheHandlersOwn | src/control.rs:152-178 | one supervisor at a time, crashing anywhere: an asker that reads an answer gets the handler's own to what it asked, or learns that it could not be read, came too late or was interrupted, each exactly when it was |
| ControlProtocol.NothingTakenIsLeft | src/control.rs:265-294 | one supervisor at a time: whenever it rests, after its recovery or a pass, every request ever taken has been answered and no taken file is left |
| ControlProtocol.TwoMayDisagree | src/control.rs:273-294 | a run with two alive in which the asker reads "interrupted" though the handler's own answer was written |
| ControlProtocol.NoneMistoldIffOneAtMost | src/control.rs:152-294 | over all runs with never more than n supervisors alive: no asker is told other than what the one that took its request wrote, if and only if n is at most one |
| ControlDir.OrderIsUnique | src/control.rs:211-222 | the order requests are taken in is one and only one, whatever order the directory lists them in |
| ControlDir.TimeReadsBack | src/control.rs:185 | the time an id was made at is what sorting reads out of it |
| ControlDir.OlderGoesFirst | src/control.rs:219-221 | a request asked in an earlier second goes first |
| ControlDir.Dir.Waiting | src/control.rs:211-222 | every request waiting, once, in that order |
| ControlDir.Dir.Take | src/control.rs:232-238 | exactly those not withdrawn since the listing are renamed, contents kept, none left waiting, oldest first |
| ControlDir.Dir.Serve | src/control.rs:240-257 | what was read, what it was answered, and the directory after: the answer in place, the taken file gone, what came in meanwhile kept |
| ControlDir.ServesOn | src/control.rs:227-261 | however many come in meanwhile, those first waiting stay ahead, lie there as asked until reached, and have their own answers |
| ControlDir.Dir.Pass | src/control.rs:227-259 | with any handler, as far into the pass as one likes: those waiting at its start come first, oldest first, each read as it was asked; every one seen to is answered as due (unreadable, older than 60 s, or by its own call of the handler, in order); none waits, each taken is queued, and other taken files lie as they were |
| ControlDir.Dir.ServeOnce | src/control.rs:227-261 | the whole pass with its sweep: all of those are seen to, and all asked or taken meanwhile, each answered as due; the last answer of each lies there unless collected; it ends with none waiting; other taken files stay unless stale |
| PassWords.DueIs | src/control.rs:242-247 | an unreadable request is answered "unknown", one over 60 s old "expired", any other as the handler says, each with the source's texts |
| PassWords.CallsAre | src/control.rs:240-257 | the handler's calls before a request are as many as the requests before it that were read in time |
| PassWords.GoesFirst | src/control.rs:219-221 | of two ids the one of the earlier second goes first, and within a second the lesser as text |
| PassWords.NoTimeIsZero | src/control.rs:219-221 | an id that does not begin with a number counts as asked at 0 |
| ControlDir.Dir.Abandon | src/control.rs:273-294 | exactly the left-over taken files go, each answered "interrupted" unless it had an answer, which stays |
| ControlDir.Dir.Recover | src/control.rs:265-267 | no taken file is left and each has an answer, one that was there unchanged |
| ControlDir.Dir.Sweep | src/control.rs:301-316 | taken files older than 120 s are abandoned, and of the answers exactly those readable and at most 600 s old stay |
| PassWords.SweepIs | src/control.rs:273-316 | request by request: over 120 s taken it is answered "interrupted" unless it had an answer, and an answer stays exactly while it can be read and for 600 s |
| CardTags.Qualify | src/cardtags.rs:115-179 | the cursor loop over `i` and `copied` gives what rewriting tag by tag gives |
| CardTags.ReadTag | src/cardtags.rs:132-171 | where the scan of one tag ends and whether and with which owner it is rewritten |
| CardSpelling.RewrittenIff | src/cardtags.rs:132-171 | in literal characters: a `{%` is rewritten exactly when it is outside code and followed by blanks, perhaps one `/`, blanks, a known slug, and a tail that closes before it opens and is neither `/` and a letter nor more of the name |
| CardSpelling.TagIsRewritten | src/cardtags.rs:115-179 | then the owner and `/` go in right before the slug, and what follows the slug is seen to by itself |
| CardSpelling.OtherIsCopied | src/cardtags.rs:115-179 | any other `{%` is copied, and what follows it is seen to by itself |
| CardStream.CommitBoundary | src/cardtags.rs:101-110 | the cut it picks is clean whatever comes next; all of the buffer goes out unless what is held back begins with a lone `{` at the end or with a tag not closed |
| CardStream.BoundaryIsClean | src/cardtags.rs:101-110 | at the cut every `{%` that goes out is already decided, whatever the stream brings next |
| CardStream.QualifiedApart | src/cardtags.rs:115-179 | across such a cut the two sides can be qualified apart |
| CardStream.StreamedEqualsBatch | src/cardtags.rs:101-179 | for every buffer, continuation and registry, qualifying up to the cut and then the rest with what follows is qualifying it all |
| CardStream.NoTagAcrossTheCut | src/cardtags.rs:101-110 | no `{%` straddles the cut |
| CardOwners.OnlyInserts | src/cardtags.rs:115-179 | the result is the input with `owner/` runs put in right where a tag's name begins, each the owner of the slug that is that whole name; without them it is the input |
| CardOwners.StableIsIdempotent | src/cardtags.rs:115-179 | in a stable registry a second run changes nothing, on every text |
| CardOwners.IdempotentIffStable | src/cardtags.rs:112-179 | a second run never changes anything if and only if the registry is stable, a finite check on the texts of its owners and slugs |
| CardOwners.NameOwnersAreStable | src/cardtags.rs:115-179 | owners that fit the name scan make a stable registry |
| CardOwners.AnUnderscoreIsSplicedTwice | src/cardtags.rs:115-179 | owner `a_b` beside slug `a`: not idempotent |
| CardFeed.SetRegistry | src/cardtags.rs:68-86 | a slug is known exactly when some id publishes it, and stands for the official scope if that publishes it and else for the first that does |
| CardFeed.MeansIs | src/cardtags.rs:68-86 | in the ids as written: `mafold` if one is `mafold/slug`, and else the owner of the first that is `owner/slug`, neither part empty |
| CardFeed.RequalifiesIffStable | crates/mafold-transcript/src/transcript.rs:315-331 | qualifying again what was already qualified, with more behind it, is qualifying the whole once, for all texts and clean cuts, if and only if the registry is stable |
| CardFeed.Narration.FlushText | crates/mafold-transcript/src/transcript.rs:315-331 | it commits exactly up to the boundary, the rest stays, and in a stable registry what is committed is what was committed raw, qualified once |
| CardFeed.Narration.FlushTextAll | crates/mafold-transcript/src/transcript.rs:333-339 | in the end, in a stable registry, it is the whole of what was said, qualified once |
| CardFeed.Stream | crates/mafold-transcript/src/transcript.rs:315-339 | the loop over chunks leaves what the lemma below is about |
| CardFeed.StreamsIffStable | crates/mafold-transcript/src/transcript.rs:315-339 | streamed equals batch over every cutting into chunks if and only if the registry is stable |
| Seats.NormalForm | src/accounts.rs:681-695 | normalizing gives `default` first and once, no name twice and only proper rows; it changes no normal registry and running it twice is running it once; each other name keeps its first proper row |
| Seats.NamesLeft | src/accounts.rs:604-695 | the names left are `default` and those of 1 to 32 characters of `a-z0-9-_.`, the first no sign, that some row with a directory has |
| Seats.Registry.Normalize | src/accounts.rs:681-695 | the loop over rows and seen names computes that |
| Seats.Registry.Remove | src/accounts.rs:728-737 | never `default`; else the rows of that name and both its marks go, and it says whether there was one |
| Seats.Registry.Prune | src/accounts.rs:776-780 | a mark stays, as it is, exactly when it ends after now, and it says whether any went |
| Seats.Registry.Order | src/accounts.rs:784-795 | the loop puts the preferred seat first and the others as they are, each name once |
| Seats.EachNameOnce | src/accounts.rs:784-795 | whatever the rows, every name is tried once, with the first row it has |
| Seats.OrderedIsAPermutation | src/accounts.rs:784-795 | every seat is tried exactly once, the preferred one first when the machine has it |
| Seats.Merge | src/accounts.rs:861-870 | visiting the keys in any order gives, key by key, the probe's finding where it is one, the seat is the same and nobody changed the mark, and else what is there |
| Seats.Registry.MergeObservations | src/accounts.rs:853-873 | both kinds of marks are merged so, and the rows are not touched |
| SeatMerge.MergingTwice | src/accounts.rs:853-873 | merging the same probe again changes nothing |
| SeatMerge.DisjointProbesCommute | src/accounts.rs:853-873 | probes that changed no mark in common can be merged in either order |
| SeatMerge.AloneItLands | src/accounts.rs:853-873 | with nobody else writing, what the probe found on its seats is what is kept |
| SeatMerge.NoLostUpdate | src/accounts.rs:817-873 | in any interleaving of writers and probes, a merge changes a mark if and only if its probe found another than it loaded, the mark is still the one loaded and the seat the same, and then to what the probe found; rows stay |
| SeatMerge.OnlyNewerChangesIt | src/accounts.rs:817-873 | a mark put in after every probe under way had loaded: over any run, other writers and new probes in between, each step that takes it away is a write of that mark or the merge of a probe that loaded after it was put in |
| SeatMerge.NewerMarkWins | src/accounts.rs:851-873 | over any run, a mark that no probe under way had loaded and that is gone at the end was first taken away by a write of it or by the merge of a probe that loaded after it was put in |
| SeatVerdict.SnapshotFromUsage | src/accounts.rs:1126-1164 | the loop over the windows computes the verdict the lemmas below are about |
| SeatVerdict.WallsAreTheFullWindows | src/accounts.rs:1143-1159 | the walls are exactly the windows found full that nothing pays for, each ends after now, and those of the whole account come first |
| SeatVerdict.AccountFirstKeepsAll | src/accounts.rs:1157 | sorting them loses none |
| SeatVerdict.FullIffBlocked | src/accounts.rs:1158-1162 | a seat is exhausted exactly when a turn with no model is blocked, by that very wall |
| SeatVerdict.WorstIsTheFullest | src/accounts.rs:1133-1139 | the window shown is the fullest that could be read, the first of them |
| SeatWords.ScopeInWords | src/accounts.rs:1056-1149 | whose window it is: the display name lower-cased, else the id, else the model of the five that its own name ends in after `_`, in any case, and else the whole account's |
| SeatWords.WhatItStops | src/accounts.rs:1033-1047 | a window of the whole account stops every turn; a model's stops a turn on a model when either text stands in the other, in any case |
| SeatWords.StoppedIff | src/accounts.rs:1126-1163 | from the report: a turn is stopped exactly by a window at 100 or more that has not rolled over and stops it, unless extra usage is on with its limit not reached |
| SeatWords.FullInWords | src/accounts.rs:1148-1162 | full exactly when a window of the whole account is, told with its name and reset, or an hour from now |
| SeatWords.VerdictInWords | src/accounts.rs:1144-1162 | else unknown exactly when a window was full before it rolled over or none could be read, and else fine |
| SeatWords.FirstTold | src/accounts.rs:1151-1157 | the wall told first is that of the first full window of the whole account, or when there is none of the first full window |
| SeatRecords.Reconcile | src/accounts.rs:1269-1312 | only the seat's own two marks can change, it says so exactly when they did, and what it tells is what the lemmas below are about |
| SeatRecords.SameProbeIsAFixpoint | src/accounts.rs:1269-1312 | the same probe again, at any later clock, changes nothing and tells the same |
| SeatRecords.WallGoesOnlyOnEvidence | src/accounts.rs:1266-1299 | a remembered wall is replaced or removed exactly on a live answer that differs or when two known credentials do |
| SeatRecords.WallIsKept | src/accounts.rs:1273-1282 | a live answer leaves its first wall, its time kept if it is the one remembered, and no refusal |
| SeatRecords.NothingRemembered | src/accounts.rs:1253-1265 | what is told of a probe that measured nothing, when nothing is remembered |
| SeatRecords.RefusalGoesOnlyOnEvidence | src/accounts.rs:1274-1302 | a remembered refusal is removed exactly on a live answer or when two known credentials differ |
| SeatRecords.RememberedStillStops | src/accounts.rs:1286-1309 | after a probe that told nothing, refused is said exactly when the refusal stays, and a turn is blocked exactly by the probe's own walls or the wall that is still remembered |
| SeatRecords.MeasuredWallHolds | src/accounts.rs:1269-1312 | after any live measurement, and a probe of the same login that tells nothing, a turn on any model is stopped if and only if that probe stops it or the first wall measured stops it and lasts; an account-wide one shows as the seat's state |
| SeatRecords.SecondWallIsForgotten | src/accounts.rs:1275-1279 | full for two models, the second stops a turn when measured and no more after a probe that tells nothing |
| SeatRecords.ScopedBehindAccountIsForgotten | src/accounts.rs:1275-1279 | and so for a model's wall behind an account-wide one that rolls over first |
| SeatChoice.FirstUsable | src/accounts.rs:1377-1406 | the pick is the first of the order nothing keeps the turn off, each before it has its reason in order, and unless it says so nothing of the registry changed |
| SeatChoice.ListStates | src/accounts.rs:1315-1329 | one row a seat, with the verdict and the mark that still holds it |
| SeatChoice.Choose | src/accounts.rs:1410-1426 | the same verdicts, over the preferred order, with "not on this machine" said first exactly when it applies |
| SeatChoice.ListingAndChoosingAgree | src/accounts.rs:1315-1426 | the seat chosen is the first of the order whose listed row does not keep the turn off, each before it is named once with what its row says, and none is chosen exactly when every row says no |
| SeatChoice.PassedOverIff | src/accounts.rs:1126-1406 | from the probe to the choice: exactly when a seat is passed over, through windows, marks, credentials and the turn's model |
| SeatChoice.WhyPassedOver | src/accounts.rs:1243-1400 | and with what reason: not logged in, unreadable, refused at 401, rejected at 403, a refusal remembered, or the first wall that stops the turn |
| SeatChoice.HandOver | src/accounts.rs:1502-1520 | the pick is the first usable of the seats neither current nor tried |
| SeatChoice.TurnOnSeats | src/agent.rs:10323-10364 | a turn handed on for as long as seats refuse it runs on no seat twice, ends (by the seats not yet run on), and if it ends with nobody left every such seat has a reason |
| Keychain.ToldIsTheLastAnswer | src/accounts.rs:382-410 | the answer kept for an item is its last real one with no refusal since, and there is one exactly then |
| Keychain.StandInIsTheLastAnswer | src/accounts.rs:412-421 | an item is handed back for a failure exactly when the Keychain was silent and the item's last real answer says so, under ten minutes ago with no refusal since |
| Keychain.AskedUnlessItJustFailed | src/accounts.rs:387-391 | the Keychain is not asked exactly within a minute of a failure that was the last thing about the item |
| Keychain.ReplayIsTheFailure | src/accounts.rs:387-421 | all of a replay: it is the last ask's failure, under 60 s ago, handed back as the item's last real answer exactly when it was silent, that answer is under 600 s old and no refusal came since, and as that failure's error otherwise |
| Keychain.OthersDoNotMatter | src/accounts.rs:379-422 | other items have no part in it |
| Keychain.Unanswered.Record | src/accounts.rs:395-410 | the two maps stay what the log of asks says they are, and what is handed back follows from the log |
| Keychain.Unanswered.Password | src/accounts.rs:428-443 | a failure under 60 s ago is handed back so, asking nothing and remembering nothing; else the one answer is remembered and handed back, a failure so |
| Calendar.DateReadsBack | src/commands.rs:1673-1693 | every valid Gregorian date, negative years included, comes back from its day number |
| Calendar.DayReadsBack | src/commands.rs:1673-1693 | every day number is that of the valid date it comes back as |
| Calendar.NextDayIsOneMore | src/commands.rs:1673-1680 | the day after has the number after (leap rule of RFC 3339, Appendix C) |
| Calendar.EarlierIffLess | src/commands.rs:1673-1680 | dates and their numbers are in the same order |
| Calendar.Streaks | src/commands.rs:1747-1774 | the best is the longest run of consecutive days, the current one the run that ends with the last day if that is today or yesterday |
| UsageScan.ScanTranscripts | src/commands.rs:672-785 | the loops over files and lines, stale files passed over, compute the counts and sessions the lemmas below are about |
| UsageScan.CountersAreSums | src/commands.rs:701-776 | each counter is a sum over the lines: the messages are those that show a day, a day's its own, an hour's its turns, a model's its tokens |
| UsageTotals.ScanIs | src/commands.rs:672-785 | all of a scan, from the lines of the files it reads: every counter as a sum from the first day on, nothing listed that was not counted, and the sessions exactly those whose first turn is no earlier |
| UsageScan.FilesSplit | src/commands.rs:672-785 | counted before the cut and from it on, passing over files last written before it, makes up the whole, line by line |
| UsageScan.OnlyOlderMissed | src/commands.rs:682-694 | passing over stale files misses only sessions that began before the cut, and dates none of the others wrongly |
| UsageScan.WindowAgreesIff | src/commands.rs:620-785 | history up to a day merged with the scan from it on is the full scan, per day, per hour, per model, messages, tools and sessions, if and only if no session is astride the cut |
| UsageScan.Agg.Merge | src/commands.rs:621-646 | the merged counters are the sums, key by key |
| UsageScan.WindowAgrees | src/commands.rs:620-785 | they always agree when files are written no earlier than their lines and no session is in two |
| UsageScan.SessionInTwoFilesCountsTwice | src/commands.rs:668-690 | two files with times as they should be and one session: counted twice |
| Download.AlwaysAPrefix | src/client.rs:1048-1170 | after any number of tries, against any server of the object, what is in hand is how the object begins |
| Download.WholeIsAll | src/client.rs:1069-1104 | once its length was stated, what is handed back is all of the object |
| Download.FirstLengthStands | src/client.rs:1069-1071 | the length gone by is the first one stated |
| Download.GivesUpAfterFive | src/client.rs:1126-1170 | it is given up only after five tries in a row that brought nothing |
| Download.FiveAreTheLast | src/client.rs:1131-1169 | and after five such in a row it is over |
| Download.StatusDecides | src/client.rs:1060-1169 | a status from 400 to 499 ends it; any other is a barren try, the fifth of which gives up |
| Download.DownloadWith | src/client.rs:1040-1170 | the loop follows the tries one by one, and ends with every server against which the buffer shrinks only so many times |
| Download.EndsIffSettles | src/client.rs:1048-1170 | the tries come to an end if and only if the buffer shrinks only so many times |
| Download.RepliesSettle | src/client.rs:1062-1090 | for that it is enough that every range is honoured, or that no body that starts over bringing less than was in hand |
| Download.Receive | src/client.rs:1081-1099 | what a body delivered before it tore is kept, chunk by chunk |
| Download.MayNeverEnd | src/client.rs:1066-1140 | with a server that answers 200 to every range the loop can go on for ever |
| Download.CompleteIffClean | src/client.rs:1048-1170 | from a server that refuses a request past the end, an object all of whose bytes arrived is handed back, then or ever, if and only if the body that brought the last byte ended cleanly; torn, it is lost to the refusal two tries on |
| Download.LostWithEveryByte | src/client.rs:1108-1112 | a run in which all bytes arrive and the download fails |
| Download.TornThenAgain | src/client.rs:1048-1170 | from any server, once torn with every byte in hand: the next try hands it back exactly when its body ends cleanly and is an empty rest or all of it, and loses it exactly when it is a client error |
| Download.RecoveredAfterATear | src/client.rs:1063-1112 | a run in which it does tear and is handed back |
| Download.ShortPassesForWhole | src/client.rs:1100 | without a stated length a short body passes for the whole |
| AccountHealth.RefusalShowsIff | src/account_health.rs:158-198 | a refusal shows for a token exactly when the last thing said of the user was that it was refused, with the time the unbroken run of such refusals began |
| AccountHealth.TakenAtTheLastAcceptance | src/account_health.rs:165-166 | the time shown as last taken is that of the last acceptance since the account was forgotten, and of nothing else |
| AccountHealth.OnlyThatUser | src/account_health.rs:162-184 | users are independent |
| AccountHealth.HealthFile.Record | src/account_health.rs:158-184 | "signed out" is said exactly when a token is refused that did not already show as refused, "signed back in" exactly when a report is taken while some refusal stood |
| AccountHealth.HealthFile.Told | src/account_health.rs:191-197 | what is read back: as last taken the time of the last acceptance not forgotten since, and a refusal exactly when that is the last thing said of the token held, since its run began |
| AccountHealth.HealthFile.Forget | src/account_health.rs:204-206 | the user's record is gone and no other's is touched |

## Left out

- Windows: its worker, its deletes racing renames, and its reading of a bare 124 as a timeout.
- Shell beyond the script's own steps: what the command does, job-control details, zombies, a full disk. A `mv` or `rm` fails only by being ended, and a second fatal signal inside the EXIT trap ends the shell as a KILL does. A task registered without a receipt is not part of this model.
- What an action carries besides what it does (`why`, `version`), and pid and interruption counts in `ControlProtocol`; `ControlDir` has all of a reply.
- Ids of requests are taken to be unique in `ControlProtocol`, and `ControlDir.Dir.ServeOnce` says for its first requests what needs that.
- `ControlDir.Dir.ServeOnce`: requires that requests stop coming in after some call of the handler; a pass that never runs dry does not end, and `ControlDir.Dir.Pass` says what holds of it as far as it goes. In `ControlDir` requests come in while the handler runs; those asked after a listing found none wait for the next pass.
- Which positions of a text are code is an oracle carried by its cells. Recomputing it over the text after a splice is not part of this model, and neither is a registry that changes mid-turn, a rewind of narration, or the menu of offered cards.
- JSON, locks, a damaged registry file (which a writer refuses to touch), and the cache of probes, which only repeats a verdict under a minute old.
- `SeatChoice.ListStates`: requires names to be unique, which normalizing on every load ensures; so does `SeatChoice.ListingAndChoosingAgree`.
- Adding a seat, its directory and its email; and what a failed run writes down (`remember_quota`, `remember_refusal`), which is one mark.
- The texts of reasons, labels and hints, and reading error prose (`usage_limit_reset`). The registry in `SeatChoice.TurnOnSeats` is any at each hand-over.
- Floors and timing of a download: a stalled try is one that tears. Which URLs may be fetched.
- `UsageScan.WindowAgreesIff`: requires that a file passed over holds no line that would be counted, as the scan trusts file times to say.
- The widest session, the first timestamp, today's turns and prices, which a merge of scans does not add up, and reading days out of raw JSON text.
- `iso_epoch_secs` and parsing of dates: short slicing and arithmetic over the day number.
- Lower-casing of user names and fingerprints of tokens: both are inputs of `AccountHealth`.
- Mailboxes, chat membership, the settings and card renderers, bots, and `due` with its ledger.
