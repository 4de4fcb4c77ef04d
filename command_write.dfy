/**
 * The command write check of hid.py (lines 86-94).
 *
 * Two fixed commands are written with a HID class Set_Report control transfer
 * (request type 0x21, request 0x09, value 0, index 0; section 7.2.2 of the USB
 * Device Class Definition for HID 1.11), in order. The request fields are the
 * same for every write and are not modelled. A write
 * succeeds only when the device reports exactly the command's length as
 * transferred; a mismatch or a USB error aborts before anything is read, and
 * the second command is then never sent.
 */
module CommandWrite {
  import opened Common

  /** The two commands of hid.py:8-9, in the order they are written. */
  datatype Command = SetQuickAccessMode | TagRead

  /** The bytes of each command (hid.py:8-9). */
  function Bytes(c: Command): (b: seq<byte>)
    ensures |b| == (if c == SetQuickAccessMode then 3 else 8)
  {
    match c
    case SetQuickAccessMode => [0x5B, 0x03, 0x01]
    case TagRead => [0x37, 0x09, 0x02, 0x00, 0x00, 0x00, 0x00, 0x00]
  }

  /** What one `ctrl_transfer` call did. */
  datatype WriteOutcome =
    | Transferred(count: int)  // returned this byte count
    | UsbError                 // raised a USBError

  /** Why a write was rejected: a USBError (hid.py:89) or a failed length assertion (hid.py:92). */
  datatype WriteFault = Raised | CountMismatch(count: int)

  datatype WriteResult =
    | BothWritten
    | WriteFailed(command: Command, fault: WriteFault)

  /** The write of `c` passes its assertion: the reported count is the command's length. */
  predicate Accepted(c: Command, w: WriteOutcome)
  {
    w == Transferred(|Bytes(c)|)
  }

  /** Why the write of `c` was rejected, if it was. */
  function Fault(c: Command, w: WriteOutcome): (f: Option<WriteFault>)
    ensures f.None? <==> Accepted(c, w)
    ensures f == Some(Raised) <==> w.UsbError?
    ensures f.Some? && f.value.CountMismatch? ==> w == Transferred(f.value.count) && f.value.count != |Bytes(c)|
  {
    match w
    case UsbError => Some(Raised)
    case Transferred(n) => if n == |Bytes(c)| then None else Some(CountMismatch(n))
  }

  /** The two writes of hid.py:86-94, given what each `ctrl_transfer` reports. */
  function CheckWrites(quickAccess: WriteOutcome, tagRead: WriteOutcome): (r: WriteResult)
    ensures r == BothWritten <==> quickAccess == Transferred(3) && tagRead == Transferred(8)
    ensures !Accepted(SetQuickAccessMode, quickAccess) ==>
      r == WriteFailed(SetQuickAccessMode, Fault(SetQuickAccessMode, quickAccess).value)
    ensures Accepted(SetQuickAccessMode, quickAccess) && !Accepted(TagRead, tagRead) ==>
      r == WriteFailed(TagRead, Fault(TagRead, tagRead).value)
  {
    match Fault(SetQuickAccessMode, quickAccess)
    case Some(f) => WriteFailed(SetQuickAccessMode, f)
    case None =>
      match Fault(TagRead, tagRead)
      case Some(f) => WriteFailed(TagRead, f)
      case None => BothWritten
  }

  /** The commands handed to `ctrl_transfer`, in order. */
  function Sent(quickAccess: WriteOutcome): (cs: seq<Command>)
    ensures |cs| > 0 && cs[0] == SetQuickAccessMode
    ensures TagRead in cs <==> Accepted(SetQuickAccessMode, quickAccess)
  {
    if Accepted(SetQuickAccessMode, quickAccess) then [SetQuickAccessMode, TagRead]
    else [SetQuickAccessMode]
  }

  /** A reported count other than the command's length always rejects the write. */
  lemma MismatchRejects(c: Command, n: int, other: WriteOutcome)
    requires n != |Bytes(c)|
    ensures c == SetQuickAccessMode ==>
      CheckWrites(Transferred(n), other) == WriteFailed(SetQuickAccessMode, CountMismatch(n))
    ensures c == TagRead ==>
      CheckWrites(Transferred(3), Transferred(n)) == WriteFailed(TagRead, CountMismatch(n))
  {
  }
}
