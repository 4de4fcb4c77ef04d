# RFID ME reader session (hid.py), modelled in Dafny

`hid.py` drives an RFID ME reader (USB 1325:c029) as a single top-level script.
It finds the device and detaches the kernel driver from interface 0 if one is
active. It then sets the configuration, resets the device and claims
interface 0. Next it looks up the first OUT and IN endpoints and writes two
fixed commands, "set quick access mode" and "tag read", with a HID Set_Report
control transfer. Then it reads the IN endpoint until a timeout arrives
after at least one successful read (a read of zero bytes counts). Last, it releases the interface, disposes of the USB
resources and reattaches the kernel driver.

Every USB call is replaced by a scripted outcome:
- `Script` holds the outcome of each setup and endpoint call.
- `WriteOutcome` is what each `ctrl_transfer` reported.
- `ReadEvent` is what each `device.read` did: bytes, a timeout, or another USB error.

The model has four modules:

- `Common`: the `byte` type and `Option`.
- `ReadLoop`: the accumulate-until-timeout loop (hid.py:97-115). It is a
  `method` with a `while` loop over the events. Its specification, `Outcome`,
  is stated on prefixes of the event sequence:
  - `Concat`: the bytes read so far;
  - `Errors` / `Tryouts`: the budget left so far;
  - `Readed`: whether any read has succeeded;
  - the first index at which the loop breaks or exhausts its budget.
  Lemmas then prove the loop's properties from that specification.
- `CommandWrite`: the check on the two writes (hid.py:86-94). Each write must
  report exactly the command's length (3 and 8 bytes). The second command is
  not sent once the first is rejected.
- `Session`: the script's module-level state. A `Session` class holds the
  flags `attached` and `claimed` and a log of every transport call except the
  configuration and interface lookups of lines 43-54. Its
  methods are the setup steps, the main block, and the cleanup tail. `Run`
  and `RunAsWritten` are the whole script. Lemmas state which calls appear in
  the log on each way the script can end.

Behaviour of hid.py the model keeps:
- A non-timeout USB error during the read does not fail the read at once. It
  only takes one from the budget (hid.py:109-115).
- With a budget of 5, the loop survives five errors; the sixth error ends it unless it is a
  timeout after a successful read, which breaks instead (the break is tested first).
- A failure while configuring, resetting or claiming releases interface 0. It
  then exits without reattaching the kernel driver (hid.py:38-41). A failure
  while detaching exits without reattaching too, even though `attached` is already
  true (hid.py:25-29).
- The cleanup tail does not run on every exit path. It is skipped after
  `sys.exit` during setup. It is also skipped, through the finding below,
  when the main block raises before the read loop.
- hid.py decodes no response; it only prints the raw bytes (hid.py:120).

## Model

| member | source | states |
|---|---|---|
| `ReadLoop.ReadUntilTimeout` | hid.py:97-115 | the loop, with its statements in the source's order, returns exactly `Outcome(events)` and makes `ReadsMade(events)` reads; its invariants say `data`, `tryouts` and `readed` are the concatenation, the remaining budget and "some read succeeded" over the events seen so far, and no earlier event stopped the loop |
| `ReadLoop.FirstStop` | hid.py:102-115 | the index returned is a point where the loop breaks or exhausts its budget, and no earlier index is; with no such index, the loop never stops on these events |
| `ReadLoop.ConcatAppend` | hid.py:104 | the bytes of later reads come after those of earlier ones: the accumulation over `s + t` is that over `s` followed by that over `t` |
| `ReadLoop.TryoutsStep` | hid.py:104-110 | each USB error, timeout or not, takes exactly one from `tryouts`; a successful read leaves it unchanged |
| `ReadLoop.TryoutsNeverIncrease` | hid.py:98-110 | `tryouts` starts at 5 and never increases |
| `ReadLoop.ReadedStep` | hid.py:99-107 | `readed` starts false, becomes true exactly at a successful read, and stays true |
| `ReadLoop.BudgetBeforeStop` | hid.py:110-115 | until the loop stops, `tryouts` is never negative |
| `ReadLoop.AtMostSixErrors` | hid.py:98-115 | the loop sees at most six USB errors |
| `ReadLoop.ExhaustedOnSixthError` | hid.py:110-115 | a failure happens on an error, on exactly the sixth error; it happens on a timeout only when nothing was read; it carries whether the error was a timeout and the data read before it |
| `ReadLoop.SuccessEndsOnTimeout` | hid.py:104-112 | a success ends on a timeout that follows a successful read. Its data is the concatenation, in order, of every payload read before that timeout |
| `ReadLoop.TimeoutAfterDataSucceeds` | hid.py:110-113 | a timeout that reaches the loop after a successful read ends it successfully with the accumulated data, whatever the budget is, because the break is tested before the budget |
| `ReadLoop.OtherErrorOnlyConsumesBudget` | hid.py:109-115 | a non-timeout error never ends the loop successfully, even after data was read. It stops the loop, as a failure, exactly when it is the sixth error. Otherwise it takes one from a budget that stays non-negative |
| `ReadLoop.ErrorsWithoutDataExhaust` | hid.py:98-115 | six errors with no successful read before them fail the loop on the sixth, after six reads, with no data |
| `ReadLoop.ReadsAccumulateInOrder` | hid.py:104-112 | reads R1..Rn (n >= 1) followed by a timeout succeed with R1 + ... + Rn after n + 1 reads, whatever follows |
| `ReadLoop.TwoReadsThenTimeout` | hid.py:104-112 | reads R1, R2 then a timeout give R1 + R2 |
| `ReadLoop.BreakTestedBeforeBudget` | hid.py:110-115 | after one read and five other errors, a timeout drives `tryouts` to -1 and still succeeds with the data read, while a sixth other error fails |
| `CommandWrite.Bytes` | hid.py:8-9 | the quick-access command is 3 bytes long, the tag-read command 8 |
| `CommandWrite.Fault` | hid.py:87-94 | a write is rejected exactly when the reported count differs from the command's length or the transfer raised; a rejected count is recorded and differs from the length |
| `CommandWrite.CheckWrites` | hid.py:86-94 | both writes succeed iff they report 3 and 8 bytes; a rejected first write is the failure reported, otherwise a rejected second write |
| `CommandWrite.Sent` | hid.py:87-88 | the quick-access command is always sent first; the tag-read command is sent iff the quick-access write was accepted |
| `CommandWrite.MismatchRejects` | hid.py:87-94 | any reported count other than the command's length rejects that write as a mismatch |
| `Session.SetupFailureOf` | hid.py:15-41 | the setup exits exactly when the device is missing, the driver query or detach failed, or configuring, resetting or claiming failed |
| `Session.MainBlockResult` | hid.py:56-115 | a missing OUT endpoint is reported iff the OUT endpoint is missing; the main block completes only after both writes were accepted |
| `Session.Session.constructor` | hid.py:22-32 | a session starts with neither flag set and no call made |
| `Session.Session.Find` | hid.py:12-19 | the device is looked up once; the script goes on iff it is found |
| `Session.Session.DetachKernelDriverIfActive` | hid.py:22-29 | `attached` becomes true iff the driver was reported active; the detach is called only then; the step fails if the query or the detach raised |
| `Session.Session.Configure` | hid.py:32-41 | `claimed` becomes true only after the claim returned; any failure releases interface 0 |
| `Session.Session.Setup` | hid.py:12-41 | the setup fails as `SetupFailureOf` says. At its end, `attached` holds iff the driver was active and `claimed` holds iff every step returned |
| `Session.Session.WriteCommands` | hid.py:86-94 | the result is `CheckWrites`; the log gains one Set_Report transfer per command sent |
| `Session.Session.ReadResponse` | hid.py:97-115 | the result is the read loop's `Outcome`; the log gains one IN read per `device.read` call |
| `Session.Session.MainBlock` | hid.py:56-115 | the result is `MainBlockResult`, with the endpoint tests first, then the writes, then the read loop |
| `Session.Session.Cleanup` | hid.py:122-130 | the tail releases the interface iff `claimed`, always disposes, and reattaches the driver iff `attached`, in that order |
| `Session.TailUndoesSetup` | hid.py:122-130 | the tail releases once iff claimed, disposes exactly once, reattaches once iff attached, and does nothing else |
| `Session.NothingUndoneBeforeTail` | hid.py:12-115 | after a successful setup, nothing is released, disposed or reattached before the tail |
| `Session.FinishedLogCounts` | hid.py:117-130 | a run that reaches the tail releases iff claimed, disposes exactly once and reattaches iff attached |
| `Session.ExitLog` | hid.py:15-41 | an exit during setup disposes nothing and reattaches nothing; it releases interface 0 iff configuring or claiming failed; nothing was written or read |
| `Session.WritesGateReads` | hid.py:86-104 | the IN endpoint is read only if both writes were accepted; the tag-read command is sent only if the quick-access write was accepted |
| `Session.ReadLoopEnteredIff` | hid.py:97-120 | the read loop is entered iff the main block completed, ran out of events, or failed in the read loop |
| `Session.RunGuarantees` | hid.py:117-130 | summarises every way the corrected script can end. A finished run releases iff claimed, disposes once and reattaches iff attached. A setup exit disposes and reattaches nothing. Reads and the second write happen only after accepted writes |
| `Session.Run` | hid.py:12-130 | the corrected script: setup, main block, then the tail on every caught exception. It states the final flags, the outcome, the exact log and the guarantees of `RunGuarantees` on the session |
| `Session.RunAsWritten` | hid.py:12-130 | the script as written: it states the final flags; it exits as `SetupFailureOf` says; it is `Unfinished` with the setup and main-block log when the read events run out; it crashes exactly when setup succeeded but the read loop was not entered, and then releases, disposes and reattaches nothing; otherwise it finishes with the tail |
| `Session.CleanupSkippedAsWritten` | hid.py:56-130 | two inputs, a missing OUT endpoint with the kernel driver detached and a quick-access write that reports 2 bytes, on which setup succeeds and the read loop is never entered, so by `RunAsWritten` they crash with nothing undone |

## Findings

| source | as written | input that shows it | evidently intended | confidence | as-written member | corrected member |
|---|---|---|---|---|---|---|
| hid.py:97-130 | `data` is first bound at line 97, inside the `try`. If the main block raises before that, the handler at line 117 prints the error. Line 120 then raises NameError outside any handler, and lines 122-130 never run: `release_interface`, `dispose_resources` and `attach_kernel_driver` are never called, so the kernel driver stays detached | reader found, kernel driver active, OUT endpoint missing; or a quick-access write that reports 2 bytes | `data` bound before the `try`, so every caught exception reaches the release, dispose and reattach tail | high; not executed | `Session.RunAsWritten`, with `Session.CleanupSkippedAsWritten` | `Session.Run` |

## Left out

- pyusb itself is left out: device lookup, descriptor search with endpoint-direction matching, `ctrl_transfer` and `device.read`. Each call is one scripted outcome; endpoint addresses and packet sizes are not modelled.
- Lines 43-54 are assumed to succeed and are not logged: `get_active_configuration`, the GET_INTERFACE request of `usb.control.get_interface` and the interface lookup. They lie outside any `try`, so a failure there would end the script before any cleanup.
- The cleanup calls are modelled as always returning: `release_interface` (lines 40, 123), `dispose_resources` and `attach_kernel_driver`. A USBError from one of them would end the script at that point.
- The timeout test at line 111 compares `e.args` with `('Operation timed out',)`. A `Timeout` event stands for an error that compares equal. Whether pyusb builds its timeout errors that way depends on the pyusb version, which is not part of this model.
- The `is` comparisons at lines 87-88 are modelled as equality of the counts. The `assert` statements are assumed to be enabled; `python -O` would remove them and skip the length check.
- The `e` used at lines 74, 81 and 94 is undefined there, so those lines raise NameError instead. The model treats that as the same caught exception, because the handler at line 117 catches either.
- `release_interface(device, interface)` at line 123 passes the interface descriptor rather than 0. It is modelled as "release the claimed interface".
- Printing, the text of messages and the process exit code are left out. `sys.exit` is the terminal outcome `Exited`.
- Real timeouts and timing are left out. A device that never stops sending keeps `while 1` running for ever. Here that case is the `ScriptEnded` read result and the `Unfinished` run outcome, reached when the scripted events run out.
