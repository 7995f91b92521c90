# ovm: a verified model

`ovm` starts one Linux virtual machine on macOS and keeps it alive for a desktop
application. This project models the parts of it that carry state or encode text,
and proves what they promise over every run and every input. Concurrent code is a
state machine over its atomic steps with nondeterministic interleaving; code that
updates fields or loops is a class or method proved against functions of the old
state. `dafny verify dfyconfig.toml` checks everything.

| file | what it models |
|---|---|
| `PidLock.dfy` | the pid lock file: open, flock, write, unlock, close, unlink and crash by any number of processes |
| `Sse.dfy` | the Server-Sent Events printer of `/exec`, and the client's parser from sections 9.2.5 and 9.2.6 of the WHATWG HTML Living Standard |
| `Exec.dfy` | the `/exec` select loop against the goroutine that runs the command |
| `Versions.dfy`, `Target.dfy` | `parseVersions` and the versioned target directory, over any sequence of failing and succeeding runs |
| `Rotation.dfy` | log rotation at start, for any number of slots |
| `Lifecycle.dfy` | the task group of `main`, the event queue with its consumer, and the ready and sync channels |
| `VmState.dfy` | forwarding of VM states over a channel of capacity one to two successive waiters |
| `TimeSync.dfy` | length-prefixed commands over a connection with short writes |
| `Mounts.dfy` | the mount list and the fstab text that passes through a shell and `echo -e` |
| `Prelude.dfy`, `Text.dfy` | options, trimming, splitting, decimal numerals |

## What turned out not to hold

Each of these has a counterexample or an exact condition among the lemmas.

- Two processes can hold the pid lock at once, because `Unlock` unlinks after it
  releases: with n unlinks there can be n + 1 holders and never more
  (`PidLock.MutualExclusion`, `PidLock.HoldersAttained`). `TryLock` can succeed on a
  file the path no longer names (`PidLock.Overtaken`). A lock guards the path exactly
  when nobody unlinked since its file was opened (`PidLock.NamedExactly`).
- `Unlock` can unlink a file that another process holds. The plain case needs only
  one `Unlock`: another process takes the lock between its release and its unlink
  (`PidLock.ReleasedThenUnlinked`). A second `Unlock` of the same context does it too
  (`PidLock.UnlinksHeldFile`), and the file need not be the one this context opened
  (`PidLock.FirstUnlockHitsForeign`). A held file is hit exactly when some holder's
  file was not unlinked since that holder opened it (`PidLock.UnlinkHits`).
- `Owner` can name another process, because `TryLock` does not truncate: 9 written
  over 10 reads as 90 (`PidLock.OwnerNamesAnother`). It can also name nobody while a
  process holds the lock, after its file was unlinked (`PidLock.Overtaken`). For a
  holder whose file was not unlinked it is right exactly when nothing longer was
  written to that file, and otherwise reads no number or too large a one
  (`PidLock.OwnerExactly`).
- A carriage return that no line feed follows splits an SSE field. The stream
  parses back exactly when there is none (`Sse.RoundTrip`).
- The `/exec` loop may take `done` while output is queued, and that output is lost
  (`Exec.OutputCanBeLost`). Nothing is lost exactly when the queue is empty at that
  moment (`Exec.CompleteOutput`).
- A copy that restores a missing image of an already recorded version and breaks
  off half way is accepted by the next run (`Target.DamagedImageAccepted`). Failing
  runs cannot do this exactly when, before them, every image of a recorded version is
  there and `Stat` succeeds on it (`Target.FailureSafeExactly`).
- The user's data image is removed and recreated, and success reported, by one run
  that cannot read the version record or whose `Stat` fails on the image
  (`Target.DataRecreated`); it is never recreated exactly when every run can do both
  (`Target.NeverRecreatedExactly`).
- A `Stat` error in the logger can cost the newest log (`Rotation.StatErrorLosesNewest`);
  `Rotation.DiscardsExactly` says when any log is lost.
- The order in which the extension map is walked changes the mount list exactly
  when two entries, both fitting the base list, share a directory
  (`Mounts.OrderMattersExactly`).
- A share with an empty tag, as in `--extend-share-dir=:/tmp`, is accepted and its
  mount is lost in the guest (`Mounts.UntaggedMountLost`). Everything on the list is
  mounted exactly when no untagged extension fits the base list
  (`Mounts.AlwaysMountedExactly`). That the first word printed could be taken for an
  option of `echo` cannot happen: it is always `vfkit-share-user`.
- When the wait for Running fails, nobody reads the state channel any more and the
  forwarder can block for good (`VmState.FailedWaitCanBlock`), exactly when the VM
  announces two more states (`VmState.FailedWaitLimit`). Then `main` never gets past
  `g.Wait`, and neither the error nor the exit event is sent
  (`Lifecycle.UnreturnedTask`).
- README.md of the repository promises the logs of the latest 3 instances; the code
  keeps 5. The model follows the code with `max` as a parameter.

## Model

| member | source | states |
|---|---|---|
| PidLock.RunInv | pkg/pidlock/pidlock.go:24-51 | in every interleaving of any number of processes, each inode has at most one lock holder, the path names a context's inode exactly when nobody unlinked since its open, and two contexts share their inode exactly when they were opened between the same two unlinks |
| PidLock.RunExactly | pkg/pidlock/pidlock.go:24-51 | in every run a context holds a lock exactly when its last call left it one, and a call can come next exactly when its context has come to it and, for the lock, no holder opened the path between the same two unlinks |
| PidLock.OpenedOnce | pkg/pidlock/pidlock.go:24-28 | every context was opened by exactly one step of the run, and its epoch is the number of unlinks before that step |
| PidLock.HoldersSeparated | pkg/pidlock/pidlock.go:24-51 | any two simultaneous holders have an unlink between their opens |
| PidLock.MutualExclusion | pkg/pidlock/pidlock.go:24-51 | in every run at most one holder on the inode the path names, at most 1 + unlinks holders in all, and at most one holder ever when nobody unlinks |
| PidLock.HoldersAttained | pkg/pidlock/pidlock.go:43-51 | for every n there is a run with n unlinks and n + 1 simultaneous holders, so the bound cannot be improved |
| PidLock.NamedExactly | pkg/pidlock/pidlock.go:24-51 | in every run the path names the file a context opened if and only if no unlink came after that open |
| PidLock.Overtaken | pkg/pidlock/pidlock.go:24-65 | a run in which `TryLock` succeeds, the path names nothing and `Owner` reads nobody |
| PidLock.UnlinkHits | pkg/pidlock/pidlock.go:43-51 | in every run the unlink of an `Unlock` hits a file that another context holds if and only if some holder's file was not unlinked since that holder's open, and a file other than the one this context opened if and only if the path names one and somebody unlinked since this context's open |
| PidLock.ReleasedThenUnlinked | pkg/pidlock/pidlock.go:43-51 | a run without any unlink so far, after which a context's first and only unlink hits the file another one has locked |
| PidLock.UnlinksHeldFile | pkg/pidlock/pidlock.go:43-51 | after every run in which a context has closed its file and the path is free, another one can take the lock and the first one's further `Unlock` unlinks the file that is held |
| PidLock.FirstUnlockHitsForeign | pkg/pidlock/pidlock.go:43-51 | a run in which a context's only unlink hits a file that another one holds and that it did not open itself |
| PidLock.OwnerAfterWrite | pkg/pidlock/pidlock.go:34-65 | after writing pid p over content c, `Owner` reads p if and only if c is no longer than p's numeral, and otherwise no number or a larger one |
| PidLock.OverlayLength | pkg/pidlock/pidlock.go:30-36 | texts written over each other without truncation are as long as the longest of them |
| PidLock.RunContent | pkg/pidlock/pidlock.go:24-41 | after every run each inode holds the texts written to it over each other, and where a context holds the lock its pid was written last |
| PidLock.OwnerExactly | pkg/pidlock/pidlock.go:24-65 | in every run, with any number of unlinks, for a holder whose file was not unlinked since its open: `Owner` names it if and only if nothing longer was written to that inode, and a number it reads is never smaller than the holder's pid |
| PidLock.OwnerOfCrashOnlyRun | pkg/pidlock/pidlock.go:24-65 | so over every run without unlinks, `Owner` names the holder if and only if no process wrote anything longer |
| PidLock.OwnerNamesAnother | pkg/pidlock/pidlock.go:24-65 | a run of two processes after which the holder's pid is 9 and `Owner` reads 90 |
| PidLock.Context.TryLock | pkg/pidlock/pidlock.go:24-41 | whatever other contexts do between its calls: which error is returned in which case, the lock being refused exactly when the file opened is locked by the time of `flock` or `flock` itself fails; which system calls were made; the inode held is the one opened, its content begins with what was written of the pid, and the path names it if and only if nobody unlinked meanwhile; a failed write keeps the lock, and a failed call leaves the field alone |
| PidLock.Context.Unlock | pkg/pidlock/pidlock.go:43-51 | whatever other contexts do between its calls: nothing without a file; otherwise unlock, close and unlink in this order, and only the unlink on a second call; what the unlink hits, which is this context's own file if and only if nobody unlinked since its open; this context holds nothing afterwards |
| Sse.FeedData | pkg/ipc/restful/restful.go:386-388 | a printed payload without lone CR is read back by the standard's parser as the payload with CRLF turned into LF, from any parser state inside a data line |
| Sse.RoundTrip | pkg/ipc/restful/restful.go:182-209 | for every sequence of emissions the standard's parser yields exactly the out, error and done events in order, pings invisible, payloads trimmed and CRLF as LF, if and only if no trimmed payload has a lone CR |
| Sse.VerbatimRoundTrip | pkg/ipc/restful/restful.go:386-388 | payloads come back exactly as trimmed if and only if no trimmed payload contains a CR |
| Exec.StreamSafety | pkg/ipc/restful/restful.go:164-212 | in every interleaving the out payloads taken are a prefix of the chunks written, then empty ones only when that is all of them and the channel is closed; the same for at most one error; done at most once, last, and only after the command's goroutine sent it |
| Exec.RunExactly | pkg/ipc/restful/restful.go:164-212 | in every run the response is exactly what its steps write one by one, the channels hold exactly what the command wrote, and a step of the goroutine, the client or the select loop can come next exactly when it is allowed by the steps before it |
| Exec.DoneExactly | pkg/ipc/restful/restful.go:178-187 | done is written if and only if the deferred function comes before any cancellation |
| Exec.NoFurtherEmission | pkg/ipc/restful/restful.go:178-212 | once the handler has ended no step emits; the goroutine's sends on the error and done channels never block |
| Exec.CompleteOutput | pkg/ipc/restful/restful.go:189-206 | for a run that leaves the loop at some step: all output was emitted in the end if and only if the queue was empty at that step and, when left by cancellation, the command wrote nothing later |
| Exec.OutputCanBeLost | pkg/ipc/restful/restful.go:189-193 | a run that ends in done with the only chunk never emitted |
| Exec.ClientReadsPrefix | pkg/ipc/restful/restful.go:164-212 | end to end: the out events a standard client parses from the response are, in order, the trimmed chunks written, a prefix of them, and empty ones after that only when all were taken; the same for the one error message; the last event is done if and only if the deferred function came before any cancellation, and no other is |
| Exec.Handle | pkg/ipc/restful/restful.go:164-212 | for every schedule, the response written piece by piece by the select loop's branches and the deferred function is what the steps of the induced run write; a schedule that is a run is followed as it is |
| Versions.ParseVersions | pkg/cli/target.go:179-211 | each key gets the value of the last well-formed item for it, and the call succeeds exactly when all four are non-empty |
| Versions.FirstMissing | pkg/cli/target.go:204-210 | an error names a key without version, and there is none exactly when all four are set |
| Versions.ItemExactly | pkg/cli/target.go:189-202 | an item sets a key to a version if and only if it is the key's name, one equals sign and the version, up to white space around each and the whole |
| Versions.OtherItem | pkg/cli/target.go:189-199 | an item of another shape or with another name than the four changes nothing |
| Versions.LastValueIsLast | pkg/cli/target.go:189-202 | the last item that names the key decides |
| Versions.LastValueAbsent | pkg/cli/target.go:189-202 | a key no well-formed item names stays empty |
| Versions.ItemOfPrinted | pkg/cli/target.go:190-201 | an item printed with any whitespace around key and value is read back |
| Versions.ParsePrinted | pkg/cli/target.go:186-202 | parsing inverts printing of trimmed non-empty versions free of comma and equals sign, in any order of keys, with repetitions and any whitespace |
| Versions.PrintThenParse | pkg/cli/target.go:186-211 | `parseVersions` on a printed text that names all four keys returns the versions printed and no missing key |
| Target.VersionsJSON.Read | pkg/cli/target.go:44-57 | it fails exactly when a present record can be neither read nor removed; the fields are the record's when it can be read and empty otherwise; an unreadable record is removed |
| Target.VersionsJSON.Set | pkg/cli/target.go:87-104 | sets one field, and marks the record dirty exactly on a change |
| Target.VersionsJSON.SaveToDisk | pkg/cli/target.go:59-70 | writes the fields exactly when dirty |
| Target.HandleKey | pkg/cli/target.go:141-153 | one turn of the scheduling loop, with the job it starts, is the next step of the declarative run |
| Target.Handle | pkg/cli/target.go:138-160 | the whole loop, the wait and the save have the result and effect of the declarative `Run` after the record was read |
| Target.Execute | pkg/cli/target.go:28-42 | reading the record and handling the directory have the result and effect of the declarative `Run` from any directory |
| Target.ResultExactly | pkg/cli/target.go:138-160 | from any directory, how a run ends, in terms of what is on disk and what the environment does: it succeeds if and only if the record is absent, readable or removable, every image that is unseen or without a readable record of its version is made, and the record is written or already right |
| Target.EffectExactly | pkg/cli/target.go:138-177 | and what it leaves on disk: nothing changed after a read error; otherwise the record, and every image by its own job alone |
| Target.FirstStart | pkg/cli/target.go:28-57 | in an empty directory a run whose jobs finish and whose record is written succeeds and completes it |
| Target.RunFiles | pkg/cli/target.go:138-177 | each file after a run depends on its own key's job alone |
| Target.AnyJobOrder | pkg/cli/target.go:155-177 | the concurrent jobs have the same effect in every order |
| Target.SuccessCompletes | pkg/cli/target.go:138-177 | from a consistent directory a successful run ends with all four files intact, of the requested versions and recorded as such |
| Target.CompleteIsStable | pkg/cli/target.go:141-160 | a second run with the same versions schedules nothing and changes nothing |
| Target.FailuresAreRetried | pkg/cli/target.go:138-160 | after any number of failed runs a key with a stale record is scheduled again, and the first success makes it valid |
| Target.NoRecordRedoesAll | pkg/cli/target.go:46-57 | without a usable record all four keys are scheduled, and a success completes the directory whatever its files were |
| Target.FailedRunTrust | pkg/cli/target.go:138-160 | a failed run keeps the directory trustworthy if and only if no job that restores an already recorded version leaves a half-written file |
| Target.FailureSafeExactly | pkg/cli/target.go:138-177 | for every set of files on which `Stat` succeeds: a trustworthy directory survives every failing run if and only if, before it, every key's record is stale or its file is present and in that set |
| Target.GuardedSuccessCompletes | pkg/cli/target.go:138-177 | from such a directory any number of runs may fail in any way while they can look at those files, and the first success completes it |
| Target.EventualSuccessCompletes | pkg/cli/target.go:138-160 | after any number of failed runs without such damage the first success completes the directory |
| Target.DamagedImageAccepted | pkg/utils/file.go:35-45 | for all requested versions: a restoring copy breaks off, and the next run succeeds with the damaged image |
| Target.DataImageKept | pkg/cli/target.go:138-177 | over any sequence of runs that request data version v, the data image and its recorded version stay, whatever happens to the other keys |
| Target.NeverRecreatedExactly | pkg/cli/target.go:46-57 | over any sequence of runs that request the recorded data version, the data image is never recreated if and only if every run reads the record and sees the file |
| Target.DataRecreated | pkg/cli/target.go:141-177 | in every complete directory, a run that cannot do both recreates the data image and reports success |
| Rotation.RotateShifts | pkg/logger/logger.go:96-108 | where each slot's content comes from after any part of the descending loop |
| Rotation.Context.Start | pkg/logger/logger.go:94-120 | the loop with its `Stat` calls, renames and open, each failing anywhere, has the effect of the recursive rotation; it succeeds exactly when no rename of a log that is seen fails, nor the open; and the file field is set exactly then |
| Rotation.RotationIsHistory | pkg/logger/logger.go:94-120 | after any mix of successful starts and writes, slot k holds the k-th newest log, for every k up to the slots there are, and no other slot exists |
| Rotation.HistoryLength | pkg/logger/logger.go:94-120 | the history has one log per start |
| Rotation.LogsHoldTheirTexts | pkg/logger/logger.go:81-86 | in every directory, whatever failed before, each log holds exactly the texts written to it since it was created, in order |
| Rotation.SlotsExactly | pkg/logger/logger.go:94-120 | after n successful starts with any writes between them, slot k exists if and only if 1 <= k <= n and k <= max, and holds the k-th log from the last with all that was written to it |
| Rotation.RestartOrdered | pkg/logger/logger.go:96-117 | a start that passes over any logs or fails at any rename or at the open keeps the slots newest to oldest |
| Rotation.AlwaysOrdered | pkg/logger/logger.go:96-117 | so they are after any sequence of failing and succeeding starts and writes |
| Rotation.DiscardsExactly | pkg/logger/logger.go:96-117 | in general a log is lost if and only if its slot is the last or its `Stat` fails, and the slot before is renamed onto it or, for slot 1, the new log is opened over it |
| Rotation.StatErrorLosesNewest | pkg/logger/logger.go:103-116 | in every directory with a newest log, a start whose `Stat` fails on it loses it |
| Rotation.DiscardsOnlyLast | pkg/logger/logger.go:96-117 | when no `Stat` fails on an existing log, a start discards a log if and only if it is in the last slot, the slot before it is occupied and that rename succeeds |
| Lifecycle.RunInv | cmd/ovm/main.go:71-162 | what every step of the task group, the event queue and the channels keeps |
| Lifecycle.AttemptsAreAPrefix | pkg/ipc/event/event.go:80-98 | at every moment the events attempted are a prefix of those enqueued, each once and in order |
| Lifecycle.EventLog | pkg/ipc/event/event.go:80-139 | when `NotifyExit` returned, every event was attempted, and the sequence is exit; Initializing, exit; or Initializing, distinct status events with IgnitionDone only after IgnitionProgress and GVProxyReady among them when IgnitionProgress is, one error, exit |
| Lifecycle.EventLogByCause | cmd/ovm/main.go:76-150 | the events attempted are those the steps of the run enqueued, and which of the three sequences they are is decided by whether the agent failed, the ready socket failed or the group ended |
| Lifecycle.GroupEndsInError | cmd/ovm/wait_bind_pid.go:14-36 | `g.Wait` never returns nil, so `exit(0)` is never reached |
| Lifecycle.ChannelSafety | pkg/channel/channel.go:16-52 | whatever a live task does next, the channels are open, no ready or sync send blocks, no receive gets a closed channel's zero value, and no task is started twice |
| Lifecycle.NotifiedFirst | pkg/channel/channel.go:30-52 | in every run no channel was received from more often than sent to, and each ready notification was sent and received at most once; so the podman forward is set up only after the machine said it is ready, the machine is started only after gvproxy did, and each is announced as an event only after it said so |
| Lifecycle.ClosedOnlyWhenIdle | cmd/ovm/main.go:143-162 | the channels are closed only when no task of the group is live |
| Lifecycle.GvAnnounced | pkg/gvproxy/gvproxy.go:118-129 | when the group has ended, IgnitionProgress was announced only if GVProxyReady was |
| Lifecycle.UnreturnedTask | cmd/ovm/main.go:143-162 | in every run from the moment a task is live until it returns, `main` stays before the end of `g.Wait`, neither the error nor the exit event is enqueued, and the channels stay open |
| VmState.WaitVerdict | pkg/vfkit/vfkit.go:164-178 | the first state that is the wanted one or an error decides the wait, and without one it goes on |
| VmState.WaitForVMState | pkg/vfkit/vfkit.go:164-178 | the loop stops at the deciding state or at the timer and consumes nothing after it |
| VmState.RunExactly | pkg/vfkit/vfkit.go:83-178 | in every run the forwarder took exactly what the VM announced, and a step of the forwarder or of a waiter can come next exactly when the states announced and the numbers of steps allow it |
| VmState.ForwardingSafety | pkg/vfkit/vfkit.go:83-146 | in every run the states taken from the VM are those of the first waiter, the second, the buffer and the hand, in order; only the last one is Stopped or Error, and the forwarder stops only after one of these; both waiters stand where their states put them; a successful first wait saw no Stopped or Error; when the watcher returned, it returned an error, its last state is the last of all, nothing is under way and the forwarder has only to return; one time sync per resume the forwarder has switched on |
| VmState.FailedWaitCanBlock | pkg/vfkit/vfkit.go:85-117 | a run after which the forwarder holds a state and no step is possible |
| VmState.FailedWaitLimit | pkg/vfkit/vfkit.go:85-117 | after a failed wait at most two more states are taken; the forwarder is blocked for good if and only if two were, only if the first of them does not end the VM; a forwarder that stopped took at most one |
| TimeSync.CommandShape | pkg/powermonitor/timesync.go:64-67 | for every int64 time the command is ASCII and at most 29 bytes, so the 16-bit length is lossless |
| TimeSync.WriteConn | pkg/powermonitor/timesync.go:83-96 | it fails exactly when a write fails, and makes no further one; the connection got a prefix of the data, all of it after success, in no more writes than bytes when each makes progress |
| TimeSync.SyncLoop | pkg/powermonitor/timesync.go:47-78 | it fails exactly when a write fails; the connection carries the whole frames of the requests made while connected, in order, and after a failure a prefix of one more; the guest reads exactly the times of the complete frames, in order |
| TimeSync.DecodeFrames | pkg/powermonitor/timesync.go:64-74 | a reader of whole frames gets exactly the payloads, and goes on with what follows |
| TimeSync.StreamDecodes | pkg/powermonitor/timesync.go:64-96 | frames followed by any part of one decode to the commands sent, an incomplete one staying undecoded |
| TimeSync.PayloadInjective | pkg/powermonitor/timesync.go:64-64 | different times are different payloads |
| TimeSync.TimeRead | pkg/powermonitor/timesync.go:64-64 | a reader of `date -s @`, an optional sign and digits reads every int64 time back from its command |
| Mounts.Mounts.Add | pkg/vfkit/mount.go:39-47 | the entry is appended exactly when no entry has its tag and none its directory |
| Mounts.Mounts.AddAll | pkg/vfkit/vfkit.go:29-31 | one walk of the extension map folds the entries into the list in the order walked |
| Mounts.Mounts.ToVFKit | pkg/vfkit/mount.go:49-56 | one device per entry, position by position |
| Mounts.Mounts.ToFSTAB | pkg/vfkit/mount.go:58-67 | one line per entry, position by position |
| Mounts.Mounts.FstabText | pkg/vfkit/ignition.go:26-29 | the accumulated text is that of the list |
| Mounts.ExtendAllSafe | pkg/vfkit/mount.go:39-47 | for every walk of the extension map: tags and directories stay pairwise distinct, earlier entries stay in place, and every rejected entry collides with a kept one |
| Mounts.MountListSafe | pkg/vfkit/vfkit.go:29-31 | after every walk no two entries share a tag or a directory, the base entries come first, nothing is on the list that was not asked for, and every extension is on it or shares its tag or its directory with an entry that is |
| Mounts.KeptExactly | pkg/vfkit/vfkit.go:29-31 | with distinct extension directories an entry is kept if and only if it fits the base list |
| Mounts.OrderMattersExactly | pkg/vfkit/vfkit.go:29-31 | two walks of the same map give different sets if and only if two entries that fit the base list share a directory |
| Mounts.ShellStage | pkg/vfkit/ignition.go:31-31 | shell unquoting halves the backslashes of the text and keeps everything else, empty tags after the first included |
| Mounts.EchoStage | pkg/vfkit/ignition.go:31-31 | `echo -e` halves them again and turns the line ends into line feeds |
| Mounts.FstabStage | pkg/vfkit/mount.go:58-67 | the reader of fstab finds exactly the lines that have a tag, in order |
| Mounts.FstabRoundTrip | pkg/vfkit/mount.go:58-67 | for tags, possibly empty, over a shell-safe alphabet and directories over it plus spaces, after a first tag such as every printed list has: shell, `echo -e` and fstab decoding give back the list without its untagged entries in order, so the list itself if and only if no tag is empty |
| Mounts.GuestMountsList | pkg/vfkit/ignition.go:26-31 | the same for the list that any walk of any extension map over the alphabet builds from the base list |
| Mounts.BaseAlwaysMounted | pkg/vfkit/mount.go:22-37 | `/Users`, `/var/folders` and `/private` are mounted under their tags whatever the extensions are |
| Mounts.AlwaysMountedExactly | pkg/cli/setup.go:119-135 | every walk of an extension map has all of its list mounted if and only if no untagged extension fits the base list |
| Mounts.UntaggedMountLost | pkg/cli/setup.go:119-135 | the extension with empty tag and directory `/tmp` is put on the list and not mounted |

## Left out

- Networking in `pkg/gvproxy`, the vsock proxies, the SSH agent socket and SSH dialling: wrappers over libraries.
- Flags, setup, VM configuration and the kernel command line: constants and straight-line assignments.
- `stopVM` and `requestStopVM`: they poll the VM's state for ten seconds, request a stop meanwhile and force one at the end; what they achieve is up to the VM, of which nothing is assumed here.
- The Awake/Sleep loop of `pkg/powermonitor/powermonitor.go`: only its sends on the sync queue are modelled.
- The single-instance check, port scan and process test: short branch chains.
- JSON, MD5, HTTP decoding and UTF-8: the version record is a value, and text is a sequence of characters with a whitespace predicate.
- A version record that parses only in part: an unreadable or unparsable record is taken to leave all four fields empty. Writing it takes full effect or none.
- Target directory paths: the four base names are taken to be distinct and different from the record's, and the sources to lie elsewhere.
- A process that keeps a log open which a later start truncates in place: its further writes are not added to the new log.
- `fmt.Sprintf` of the command's error text as a format string, and which stderr record that text starts with: the message is arbitrary.
- The unbounded channel library: an unbounded first-in first-out queue whose close keeps what is queued. `channel.Close` is one step.
- A run without event socket, or that fails before event setup: no events are sent, and `NotifyExit` returns at once.
- Panics and force quits of the whole process, except in the pid lock, where every process may die at any step.
- Inode numbers are not reused, and the lock path is a regular file on a local file system.
- Escapes of `echo -e` other than backslash and line feed, and shell expansions: neither occurs over the safe alphabet.
- Liveness: nothing is claimed about the group or the VM ever ending.
- The name that vfkit gives a device without tag: only the guest's fstab is followed.
- Mounts.FstabRoundTrip: does not cover tags or directories with characters special to the shell, because the source does not quote them.
- Exec.Handle: does not choose among ready channels itself; the schedule stands for the runtime's choices, and a choice that is not possible is passed over.
