/**
 * The session of hid.py as a whole: setup of the reader (lines 12-41), the
 * main block with its exception handler (lines 56-118) and the cleanup tail
 * (lines 120-130).
 *
 * The module-level flags `attached` and `claimed` become fields of a Session
 * object, next to a log of every transport call the script makes. Every
 * transport call's outcome comes from a Script given up front; `sys.exit`
 * becomes the terminal outcome Exited.
 */
module Session {
  import opened Common
  import opened ReadLoop
  import opened CommandWrite

  /** A call into the USB transport, as recorded in the log. */
  datatype Action =
    | FindDevice                // usb.core.find for 1325:c029 (hid.py:12)
    | QueryKernelDriver         // is_kernel_driver_active(0) (hid.py:24)
    | DetachKernelDriver        // detach_kernel_driver(0) (hid.py:26)
    | SetConfiguration          // hid.py:34
    | ResetDevice               // hid.py:35
    | ClaimInterface            // claim_interface(device, 0) (hid.py:36)
    | SetReport(data: seq<byte>) // ctrl_transfer(0x21, 0x09, 0, 0, data) (hid.py:87-88)
    | ReadIn                    // device.read on the IN endpoint (hid.py:104)
    | ReleaseInterface          // release_interface (hid.py:40, 123)
    | DisposeResources          // dispose_resources (hid.py:126)
    | AttachKernelDriver        // attach_kernel_driver(0) (hid.py:130)

  /** What `is_kernel_driver_active(0)` did. */
  datatype DriverProbe = Inactive | Active | ProbeFailed

  /** The outcome of every transport call the script can make. */
  datatype Script = Script(
    deviceFound: bool,
    probe: DriverProbe,
    detachOk: bool,
    setConfigurationOk: bool,
    resetOk: bool,
    claimOk: bool,
    outEndpointFound: bool,
    inEndpointFound: bool,
    quickAccessWrite: WriteOutcome,
    tagReadWrite: WriteOutcome,
    readEvents: seq<ReadEvent>)

  /** The three `sys.exit(1)` of the setup (hid.py:17, 29, 41). */
  datatype SetupFailure = DeviceNotFound | KernelDriverFailed | ConfigurationFailed

  /** The exceptions that the handler of hid.py:117 catches. */
  datatype MainFailure =
    | OutEndpointMissing                               // hid.py:72-74
    | InEndpointMissing                                // hid.py:79-81
    | WriteRejected(command: Command, fault: WriteFault) // hid.py:89-94
    | ReadExhausted(timedOut: bool, partial: seq<byte>) // hid.py:113-115

  /** How the main block (hid.py:56-115) ends. */
  datatype MainResult =
    | Completed(data: seq<byte>)
    | Failed(failure: MainFailure)
    | StillReading   // the read events ran out inside `while 1`

  /** How the whole script ends. */
  datatype RunOutcome =
    | Exited(reason: SetupFailure)                   // sys.exit(1) during setup
    | Finished(main: MainResult, printed: seq<byte>) // the last line of the script was reached
    | Crashed(main: MainResult)                      // uncaught NameError at hid.py:120
    | Unfinished                                     // the read events ran out inside `while 1`

  // Setup

  /** Lines 22-29 leave the script running. */
  predicate DriverReady(s: Script)
  {
    s.probe == Inactive || (s.probe == Active && s.detachOk)
  }

  /** Lines 33-37 all return. */
  predicate ConfigurationReady(s: Script)
  {
    s.setConfigurationOk && s.resetOk && s.claimOk
  }

  /** Which `sys.exit` of the setup is taken, if any. */
  function SetupFailureOf(s: Script): (f: Option<SetupFailure>)
    ensures f.None? <==> s.deviceFound && DriverReady(s) && ConfigurationReady(s)
  {
    if !s.deviceFound then Some(DeviceNotFound)
    else if !DriverReady(s) then Some(KernelDriverFailed)
    else if !ConfigurationReady(s) then Some(ConfigurationFailed)
    else None
  }

  predicate SetupSucceeds(s: Script)
  {
    SetupFailureOf(s).None?
  }

  /** The transport calls of lines 22-29. */
  function DetachActions(probe: DriverProbe): seq<Action>
  {
    [QueryKernelDriver] + (if probe == Active then [DetachKernelDriver] else [])
  }

  /** The transport calls of lines 32-41. */
  function ConfigureActions(setConfigurationOk: bool, resetOk: bool, claimOk: bool): seq<Action>
  {
    [SetConfiguration]
    + (if setConfigurationOk then [ResetDevice] else [])
    + (if setConfigurationOk && resetOk then [ClaimInterface] else [])
    + (if setConfigurationOk && resetOk && claimOk then [] else [ReleaseInterface])
  }

  /** The transport calls of lines 12-41. */
  function SetupActions(s: Script): seq<Action>
  {
    if !s.deviceFound then [FindDevice]
    else if !DriverReady(s) then [FindDevice] + DetachActions(s.probe)
    else [FindDevice] + DetachActions(s.probe) + ConfigureActions(s.setConfigurationOk, s.resetOk, s.claimOk)
  }

  // Main block

  /** One Set_Report transfer per command handed to `ctrl_transfer`. */
  function SetReports(cs: seq<Command>): (r: seq<Action>)
    ensures |r| == |cs|
    ensures forall j :: 0 <= j < |cs| ==> r[j] == SetReport(Bytes(cs[j]))
  {
    if cs == [] then [] else [SetReport(Bytes(cs[0]))] + SetReports(cs[1..])
  }

  /** `n` reads of the IN endpoint. */
  function ReadIns(n: nat): (r: seq<Action>)
    ensures |r| == n && forall j :: 0 <= j < n ==> r[j] == ReadIn
  {
    seq(n, _ => ReadIn)
  }

  /** How the main block ends on `s`: endpoint tests, then writes, then the read loop. */
  function MainBlockResult(s: Script): (m: MainResult)
    ensures m.Completed? ==> CheckWrites(s.quickAccessWrite, s.tagReadWrite) == BothWritten
    ensures m == Failed(OutEndpointMissing) <==> !s.outEndpointFound
  {
    if !s.outEndpointFound then Failed(OutEndpointMissing)
    else if !s.inEndpointFound then Failed(InEndpointMissing)
    else match CheckWrites(s.quickAccessWrite, s.tagReadWrite)
      case WriteFailed(c, f) => Failed(WriteRejected(c, f))
      case BothWritten =>
        match Outcome(s.readEvents)
        case Ok(d) => Completed(d)
        case Exhausted(t, p) => Failed(ReadExhausted(t, p))
        case ScriptEnded => StillReading
  }

  /** The read loop of hid.py:97-115 is entered. */
  predicate EntersReadLoop(s: Script)
  {
    s.outEndpointFound && s.inEndpointFound
    && CheckWrites(s.quickAccessWrite, s.tagReadWrite) == BothWritten
  }

  /** The transport calls of lines 56-115. */
  function MainActions(s: Script): seq<Action>
  {
    if EntersReadLoop(s) then SetReports(Sent(s.quickAccessWrite)) + ReadIns(ReadsMade(s.readEvents))
    else if s.outEndpointFound && s.inEndpointFound then SetReports(Sent(s.quickAccessWrite))
    else []
  }

  /** The value of `data` at hid.py:120, with [] where it was never assigned. */
  function DataOf(m: MainResult): seq<byte>
  {
    match m
    case Completed(d) => d
    case Failed(ReadExhausted(_, p)) => p
    case _ => []
  }

  // Cleanup

  /** The transport calls of the tail, hid.py:122-130. */
  function TailActions(claimed: bool, attached: bool): seq<Action>
  {
    (if claimed then [ReleaseInterface] else []) + [DisposeResources]
    + (if attached then [AttachKernelDriver] else [])
  }

  /** The calls that undo the setup: none of them appears before the tail unless claiming failed. */
  predicate Undoes(a: Action)
  {
    a == ReleaseInterface || a == DisposeResources || a == AttachKernelDriver
  }

  /** The module-level state of hid.py: the two flags and the calls made so far. */
  class Session {
    var attached: bool
    var claimed: bool
    var log: seq<Action>

    constructor ()
      ensures !attached && !claimed && log == []
    {
      attached, claimed, log := false, false, [];
    }

    /** hid.py:12-19: look the reader up; its absence ends the script. */
    method Find(found: bool) returns (ok: bool)
      modifies this
      ensures ok == found
      ensures log == old(log) + [FindDevice]
      ensures attached == old(attached) && claimed == old(claimed)
    {
      log := log + [FindDevice];
      ok := found;
    }

    /**
     * hid.py:22-29: detach the kernel driver of interface 0 if it is active.
     * `attached` is set before the detach call, so it is true even when that call fails.
     */
    method DetachKernelDriverIfActive(probe: DriverProbe, detachOk: bool) returns (ok: bool)
      modifies this
      ensures attached == (probe == Active)
      ensures ok == (probe == Inactive || (probe == Active && detachOk))
      ensures claimed == old(claimed)
      ensures log == old(log) + DetachActions(probe)
    {
      attached := false;
      log := log + [QueryKernelDriver];
      if probe == ProbeFailed {
        return false;
      }
      if probe == Active {
        attached := true;
        log := log + [DetachKernelDriver];
        if !detachOk {
          return false;
        }
      }
      ok := true;
    }

    /**
     * hid.py:32-41: set the configuration, reset, claim interface 0. `claimed`
     * becomes true only once the claim has returned; on any failure interface 0
     * is released and the script ends, without reattaching the driver.
     */
    method Configure(setConfigurationOk: bool, resetOk: bool, claimOk: bool) returns (ok: bool)
      modifies this
      ensures ok == (setConfigurationOk && resetOk && claimOk)
      ensures claimed == ok
      ensures attached == old(attached)
      ensures log == old(log) + ConfigureActions(setConfigurationOk, resetOk, claimOk)
    {
      claimed := false;
      log := log + [SetConfiguration];
      if setConfigurationOk {
        log := log + [ResetDevice];
        if resetOk {
          log := log + [ClaimInterface];
          if claimOk {
            claimed := true;
            return true;
          }
        }
      }
      log := log + [ReleaseInterface];
      ok := false;
    }

    /** hid.py:12-41. */
    method Setup(s: Script) returns (failure: Option<SetupFailure>)
      modifies this
      ensures failure == SetupFailureOf(s)
      ensures attached == (s.deviceFound && s.probe == Active)
      ensures claimed == SetupSucceeds(s)
      ensures log == old(log) + SetupActions(s)
    {
      attached, claimed := false, false;
      var ok := Find(s.deviceFound);
      if !ok {
        return Some(DeviceNotFound);
      }
      ghost var found := log;
      ok := DetachKernelDriverIfActive(s.probe, s.detachOk);
      assert log == found + DetachActions(s.probe);
      if !ok {
        return Some(KernelDriverFailed);
      }
      ghost var detached := log;
      ok := Configure(s.setConfigurationOk, s.resetOk, s.claimOk);
      assert log == detached + ConfigureActions(s.setConfigurationOk, s.resetOk, s.claimOk);
      if !ok {
        return Some(ConfigurationFailed);
      }
      failure := None;
    }

    /**
     * hid.py:86-94: write the two commands in order. The second is handed to
     * `ctrl_transfer` only once the first reported its full length.
     */
    method WriteCommands(quickAccess: WriteOutcome, tagRead: WriteOutcome) returns (r: WriteResult)
      modifies this
      ensures r == CheckWrites(quickAccess, tagRead)
      ensures log == old(log) + SetReports(Sent(quickAccess))
      ensures attached == old(attached) && claimed == old(claimed)
    {
      log := log + [SetReport(Bytes(SetQuickAccessMode))];
      var f := Fault(SetQuickAccessMode, quickAccess);
      if f.Some? {
        return WriteFailed(SetQuickAccessMode, f.value);
      }
      log := log + [SetReport(Bytes(TagRead))];
      f := Fault(TagRead, tagRead);
      if f.Some? {
        return WriteFailed(TagRead, f.value);
      }
      r := BothWritten;
    }

    /** hid.py:97-115, recording one read of the IN endpoint per call of `device.read`. */
    method ReadResponse(events: seq<ReadEvent>) returns (r: ReadResult)
      modifies this
      ensures r == Outcome(events)
      ensures log == old(log) + ReadIns(ReadsMade(events))
      ensures attached == old(attached) && claimed == old(claimed)
    {
      var calls;
      r, calls := ReadUntilTimeout(events);
      log := log + ReadIns(calls);
    }

    /** hid.py:56-115: test both endpoints, write the commands, read the response. */
    method MainBlock(s: Script) returns (m: MainResult)
      modifies this
      ensures m == MainBlockResult(s)
      ensures log == old(log) + MainActions(s)
      ensures attached == old(attached) && claimed == old(claimed)
    {
      if !s.outEndpointFound {
        return Failed(OutEndpointMissing);
      }
      if !s.inEndpointFound {
        return Failed(InEndpointMissing);
      }
      var w := WriteCommands(s.quickAccessWrite, s.tagReadWrite);
      if w.WriteFailed? {
        return Failed(WriteRejected(w.command, w.fault));
      }
      var r := ReadResponse(s.readEvents);
      match r
      case Ok(d) => m := Completed(d);
      case Exhausted(t, p) => m := Failed(ReadExhausted(t, p));
      case ScriptEnded => m := StillReading;
    }

    /**
     * hid.py:122-130: release the interface iff it was claimed, dispose of the
     * resources, reattach the kernel driver iff it was detached.
     */
    method Cleanup()
      modifies this
      ensures log == old(log) + TailActions(claimed, attached)
      ensures attached == old(attached) && claimed == old(claimed)
    {
      if claimed {
        log := log + [ReleaseInterface];
      }
      log := log + [DisposeResources];
      if attached {
        log := log + [AttachKernelDriver];
      }
    }
  }

  /** The calls of the tail undo exactly what the setup recorded in the flags (hid.py:122-130). */
  lemma TailUndoesSetup(claimed: bool, attached: bool)
    ensures multiset(TailActions(claimed, attached))[ReleaseInterface] == (if claimed then 1 else 0)
    ensures multiset(TailActions(claimed, attached))[DisposeResources] == 1
    ensures multiset(TailActions(claimed, attached))[AttachKernelDriver] == (if attached then 1 else 0)
    ensures forall a :: a in TailActions(claimed, attached) ==> Undoes(a)
  {
  }

  /** Before the tail, a session whose setup succeeded has undone nothing. */
  lemma NothingUndoneBeforeTail(s: Script)
    requires SetupSucceeds(s)
    ensures forall a :: Undoes(a) ==> a !in SetupActions(s) + MainActions(s)
  {
    var w := SetReports(Sent(s.quickAccessWrite));
    var r := ReadIns(ReadsMade(s.readEvents));
    forall a | Undoes(a)
      ensures a !in SetupActions(s) + MainActions(s)
    {
      assert a !in w;
      assert a !in r;
    }
  }

  /** Calls that undo nothing, followed by the tail: each undoing call appears as often as in the tail. */
  lemma UndoCounts(pre: seq<Action>, claimed: bool, attached: bool)
    requires forall a :: Undoes(a) ==> a !in pre
    ensures var log := pre + TailActions(claimed, attached);
      && multiset(log)[ReleaseInterface] == (if claimed then 1 else 0)
      && multiset(log)[DisposeResources] == 1
      && multiset(log)[AttachKernelDriver] == (if attached then 1 else 0)
  {
    assert Undoes(ReleaseInterface) && Undoes(DisposeResources) && Undoes(AttachKernelDriver);
    TailUndoesSetup(claimed, attached);
  }

  /** A run that reaches the tail after a successful setup undoes each acquisition exactly once. */
  lemma FinishedLogCounts(s: Script, claimed: bool, attached: bool)
    requires SetupSucceeds(s)
    ensures var log := SetupActions(s) + MainActions(s) + TailActions(claimed, attached);
      && multiset(log)[ReleaseInterface] == (if claimed then 1 else 0)
      && multiset(log)[DisposeResources] == 1
      && multiset(log)[AttachKernelDriver] == (if attached then 1 else 0)
  {
    NothingUndoneBeforeTail(s);
    UndoCounts(SetupActions(s) + MainActions(s), claimed, attached);
  }

  /**
   * An exit during setup disposes of nothing and reattaches nothing; it
   * releases interface 0 only when configuring or claiming failed (hid.py:17, 29, 40-41).
   */
  lemma ExitLog(s: Script)
    requires !SetupSucceeds(s)
    ensures DisposeResources !in SetupActions(s) && AttachKernelDriver !in SetupActions(s)
    ensures ReleaseInterface in SetupActions(s) <==> SetupFailureOf(s) == Some(ConfigurationFailed)
    ensures ReadIn !in SetupActions(s) && SetReport(Bytes(TagRead)) !in SetupActions(s)
  {
  }

  /**
   * The IN endpoint is read only after both commands were accepted, and the
   * tag-read command is sent only after the quick-access command was accepted
   * (hid.py:86-97).
   */
  lemma WritesGateReads(s: Script, tail: seq<Action>)
    requires forall a :: a in tail ==> Undoes(a)
    ensures var log := SetupActions(s) + MainActions(s) + tail;
      && (ReadIn in log ==> EntersReadLoop(s))
      && (SetReport(Bytes(TagRead)) in log ==> Accepted(SetQuickAccessMode, s.quickAccessWrite))
  {
    var log := SetupActions(s) + MainActions(s) + tail;
    var w := SetReports(Sent(s.quickAccessWrite));
    if ReadIn in log {
      assert ReadIn !in w;
      assert ReadIn !in SetupActions(s);
    }
    if SetReport(Bytes(TagRead)) in log {
      assert SetReport(Bytes(TagRead)) !in SetupActions(s);
      if !Accepted(SetQuickAccessMode, s.quickAccessWrite) {
        assert w == [SetReport(Bytes(SetQuickAccessMode))];
      }
    }
  }

  /**
   * `data` is bound at hid.py:120 exactly when the read loop was entered, that
   * is when the main block ended in the read loop or after it.
   */
  lemma ReadLoopEnteredIff(s: Script)
    ensures EntersReadLoop(s) <==>
      var m := MainBlockResult(s);
      m.Completed? || m.StillReading? || (m.Failed? && m.failure.ReadExhausted?)
  {
  }

  /**
   * What every run of the corrected script guarantees, given how it ends and
   * the calls it made: the tail releases iff claimed, disposes exactly once and
   * reattaches iff detached; an exit during setup undoes only the claim attempt;
   * a rejected write stops the second write and the read loop.
   */
  lemma RunGuarantees(s: Script, outcome: RunOutcome, log: seq<Action>, claimed: bool, attached: bool)
    requires attached == (s.deviceFound && s.probe == Active)
    requires claimed == SetupSucceeds(s)
    requires !SetupSucceeds(s) ==>
      outcome == Exited(SetupFailureOf(s).value) && log == SetupActions(s)
    requires SetupSucceeds(s) && MainBlockResult(s).StillReading? ==>
      outcome == Unfinished && log == SetupActions(s) + MainActions(s)
    requires SetupSucceeds(s) && !MainBlockResult(s).StillReading? ==>
      outcome.Finished? && log == SetupActions(s) + MainActions(s) + TailActions(claimed, attached)
    ensures outcome.Finished? ==>
      && multiset(log)[ReleaseInterface] == (if claimed then 1 else 0)
      && multiset(log)[DisposeResources] == 1
      && multiset(log)[AttachKernelDriver] == (if attached then 1 else 0)
    ensures outcome.Exited? ==>
      && DisposeResources !in log && AttachKernelDriver !in log
      && (ReleaseInterface in log <==> outcome.reason == ConfigurationFailed)
    ensures ReadIn in log ==> EntersReadLoop(s)
    ensures SetReport(Bytes(TagRead)) in log ==> Accepted(SetQuickAccessMode, s.quickAccessWrite)
  {
    if !SetupSucceeds(s) {
      ExitLog(s);
    } else if MainBlockResult(s).StillReading? {
      UnfinishedGuarantees(s, log);
    } else {
      FinishedGuarantees(s, log, claimed, attached);
    }
  }

  /** A run whose read events ran out: the read loop and the second write were still gated by the writes. */
  lemma UnfinishedGuarantees(s: Script, log: seq<Action>)
    requires log == SetupActions(s) + MainActions(s)
    ensures ReadIn in log ==> EntersReadLoop(s)
    ensures SetReport(Bytes(TagRead)) in log ==> Accepted(SetQuickAccessMode, s.quickAccessWrite)
  {
    WritesGateReads(s, []);
    assert log == SetupActions(s) + MainActions(s) + [];
  }

  /** A run that reached the tail after a successful setup. */
  lemma FinishedGuarantees(s: Script, log: seq<Action>, claimed: bool, attached: bool)
    requires SetupSucceeds(s)
    requires log == SetupActions(s) + MainActions(s) + TailActions(claimed, attached)
    ensures multiset(log)[ReleaseInterface] == (if claimed then 1 else 0)
    ensures multiset(log)[DisposeResources] == 1
    ensures multiset(log)[AttachKernelDriver] == (if attached then 1 else 0)
    ensures ReadIn in log ==> EntersReadLoop(s)
    ensures SetReport(Bytes(TagRead)) in log ==> Accepted(SetQuickAccessMode, s.quickAccessWrite)
  {
    FinishedLogCounts(s, claimed, attached);
    TailUndoesSetup(claimed, attached);
    WritesGateReads(s, TailActions(claimed, attached));
  }

  /**
   * The whole script with `data` bound to [] before the main block, so that
   * every exception caught at hid.py:117 reaches the cleanup tail.
   */
  method Run(s: Script) returns (outcome: RunOutcome, session: Session)
    ensures fresh(session)
    ensures session.attached == (s.deviceFound && s.probe == Active)
    ensures session.claimed == SetupSucceeds(s)
    ensures !SetupSucceeds(s) ==>
      outcome == Exited(SetupFailureOf(s).value) && session.log == SetupActions(s)
    ensures SetupSucceeds(s) && MainBlockResult(s).StillReading? ==>
      outcome == Unfinished && session.log == SetupActions(s) + MainActions(s)
    ensures SetupSucceeds(s) && !MainBlockResult(s).StillReading? ==>
      && outcome == Finished(MainBlockResult(s), DataOf(MainBlockResult(s)))
      && session.log == SetupActions(s) + MainActions(s) + TailActions(session.claimed, session.attached)
    // every path that reaches the end releases iff claimed, disposes once, reattaches iff detached
    ensures outcome.Finished? ==>
      && multiset(session.log)[ReleaseInterface] == (if session.claimed then 1 else 0)
      && multiset(session.log)[DisposeResources] == 1
      && multiset(session.log)[AttachKernelDriver] == (if session.attached then 1 else 0)
    // an exit during setup disposes of nothing and reattaches nothing
    ensures outcome.Exited? ==>
      && DisposeResources !in session.log && AttachKernelDriver !in session.log
      && (ReleaseInterface in session.log <==> outcome.reason == ConfigurationFailed)
    // a rejected write never reaches the read loop, and stops the second write
    ensures ReadIn in session.log ==> EntersReadLoop(s)
    ensures SetReport(Bytes(TagRead)) in session.log ==> Accepted(SetQuickAccessMode, s.quickAccessWrite)
  {
    session := new Session();
    var failure := session.Setup(s);
    assert session.log == SetupActions(s);
    if failure.Some? {
      outcome := Exited(failure.value);
    } else {
      var m := session.MainBlock(s);
      ghost var before := SetupActions(s) + MainActions(s);
      assert session.log == before;
      if m.StillReading? {
        outcome := Unfinished;
      } else {
        session.Cleanup();
        assert session.log == before + TailActions(session.claimed, session.attached);
        outcome := Finished(m, DataOf(m));
      }
    }
    RunGuarantees(s, outcome, session.log, session.claimed, session.attached);
  }

  /**
   * The whole script as written: `data` is first bound at hid.py:97, so when
   * the main block raises before the read loop, line 120 raises NameError
   * and the tail of lines 122-130 never runs.
   */
  method RunAsWritten(s: Script) returns (outcome: RunOutcome, session: Session)
    ensures fresh(session)
    ensures session.attached == (s.deviceFound && s.probe == Active)
    ensures session.claimed == SetupSucceeds(s)
    ensures !SetupSucceeds(s) ==>
      outcome == Exited(SetupFailureOf(s).value) && session.log == SetupActions(s)
    ensures SetupSucceeds(s) && MainBlockResult(s).StillReading? ==>
      outcome == Unfinished && session.log == SetupActions(s) + MainActions(s)
    ensures outcome.Crashed? <==> SetupSucceeds(s) && !EntersReadLoop(s)
    ensures outcome.Crashed? ==>
      && outcome.main == MainBlockResult(s)
      && session.log == SetupActions(s) + MainActions(s)
      && forall a :: Undoes(a) ==> a !in session.log
    ensures outcome.Finished? <==> SetupSucceeds(s) && EntersReadLoop(s) && !MainBlockResult(s).StillReading?
    ensures outcome.Finished? ==>
      && outcome == Finished(MainBlockResult(s), DataOf(MainBlockResult(s)))
      && session.log == SetupActions(s) + MainActions(s) + TailActions(session.claimed, session.attached)
  {
    session := new Session();
    var failure := session.Setup(s);
    if failure.Some? {
      return Exited(failure.value), session;
    }
    var m := session.MainBlock(s);
    if m.StillReading? {
      return Unfinished, session;
    }
    if !(m.Completed? || m.failure.ReadExhausted?) {
      NothingUndoneBeforeTail(s);
      return Crashed(m), session;
    }
    session.Cleanup();
    outcome := Finished(m, DataOf(m));
  }

  /**
   * Two inputs on which the script as written crashes at hid.py:120: setup
   * succeeds and the read loop is never entered, so by the contract of
   * RunAsWritten its outcome is Crashed and its log holds no release, no dispose
   * and no reattach, although the kernel driver was detached. The first input
   * lacks an OUT endpoint; in the second the quick access write reports 2 bytes
   * instead of 3.
   */
  lemma CleanupSkippedAsWritten()
    ensures var s := Script(true, Active, true, true, true, true, false, true, Transferred(3), Transferred(8), []);
      SetupSucceeds(s) && !EntersReadLoop(s)
    ensures var s := Script(true, Active, true, true, true, true, true, true, Transferred(2), Transferred(8), []);
      SetupSucceeds(s) && !EntersReadLoop(s)
      && MainBlockResult(s) == Failed(WriteRejected(SetQuickAccessMode, CountMismatch(2)))
  {
  }
}
