/** The decision rules of the device-info bottom sheet
    (DeviceInfoBottomSheetController): the tap toggle between the expanded and
    collapsed sheet, the status dot and status text, the notes write guard and
    the ping button's round trip. Widgets are reduced to the values they show. */
module DeviceInfoSheet {
  import opened Wrappers

  /** The states of the sheet's `BottomSheetBehavior`. */
  datatype SheetState = Dragging | Settling | Expanded | Collapsed | Hidden | HalfExpanded

  /** The drawable chosen for the online-status dot. */
  datatype StatusDot = DotFlashing | DotOnlineTinker | DotOnlineNonTinker | DotOffline

  /** The sheet state after a tap on the handle or the expander: the `when` has
      a branch for the expanded and the collapsed state and no `else`. */
  function Toggled(state: SheetState): (next: SheetState)
    ensures (next == Expanded || next == Collapsed) <==> (state == Expanded || state == Collapsed)
  {
    match state
    case Expanded => Collapsed
    case Collapsed => Expanded
    case _ => state
  }

  /** A tap on the expanded sheet collapses it and a tap on the collapsed sheet
      expands it; every other state (dragging, settling, hidden, half expanded)
      is left as it is. */
  lemma TapMovesOnlySettledStates(state: SheetState)
    ensures Toggled(state) != state <==> state == Expanded || state == Collapsed
    ensures state == Expanded <==> Toggled(state) == Collapsed
    ensures state == Collapsed <==> Toggled(state) == Expanded
  {
  }

  /** Two taps return the sheet to the state it started in, whatever it was. */
  lemma TapTwiceRestores(state: SheetState)
    ensures Toggled(Toggled(state)) == state
  {
  }

  /** The status dot for a device: the flashing dot whenever the device is
      flashing; otherwise the tinker or non-tinker online dot when online, and
      the offline dot when offline. */
  function StatusColoredDot(isFlashing: bool, isOnline: bool, isRunningTinker: bool): (dot: StatusDot)
    ensures dot == DotFlashing <==> isFlashing
    ensures dot == DotOnlineTinker <==> !isFlashing && isOnline && isRunningTinker
    ensures dot == DotOnlineNonTinker <==> !isFlashing && isOnline && !isRunningTinker
    ensures dot == DotOffline <==> !isFlashing && !isOnline
  {
    if isFlashing then DotFlashing
    else if isOnline then
      if isRunningTinker then DotOnlineTinker else DotOnlineNonTinker
    else DotOffline
  }

  /** The status dot shows an online variant exactly when the device is online
      and not flashing. */
  lemma StatusDotOnlineIffOnline(isFlashing: bool, isOnline: bool, isRunningTinker: bool)
    ensures var dot := StatusColoredDot(isFlashing, isOnline, isRunningTinker);
      (dot == DotOnlineTinker || dot == DotOnlineNonTinker) <==> !isFlashing && isOnline
  {
  }

  /** The status label. */
  function StatusText(isOnline: bool): (text: string)
    ensures text == "Online" <==> isOnline
    ensures text == "Offline" <==> !isOnline
  {
    if isOnline then "Online" else "Offline"
  }

  /** The text the notes field shows after `setText(device.notes)`: a null
      text shows as empty. */
  function NotesShown(deviceNotes: Option<string>): string
  {
    if deviceNotes.Some? then deviceNotes.value else ""
  }

  /** The notes write that `updateNotesIfNeeded` schedules: none when the text in
      the notes field equals the device's notes, otherwise that text. A field's
      text is never null, so it never equals null notes. */
  function NotesToWrite(notesInUi: string, deviceNotes: Option<string>): (write: Option<string>)
    ensures write.None? <==> deviceNotes == Some(notesInUi)
    ensures write.Some? ==> write.value == notesInUi && deviceNotes != Some(write.value)
  {
    if deviceNotes.Some? && notesInUi == deviceNotes.value then None else Some(notesInUi)
  }

  /** A resume followed by a pause with no edit in between schedules no notes
      write exactly when the device's notes are not null; with null notes the
      empty text shown is written back on every pause. */
  lemma ResumeThenPauseWritesIffNotesNull(deviceNotes: Option<string>)
    ensures NotesToWrite(NotesShown(deviceNotes), deviceNotes).None? <==> deviceNotes.Some?
    ensures deviceNotes.None? ==> NotesToWrite(NotesShown(deviceNotes), deviceNotes) == Some("")
  {
  }

  /** The device the sheet describes, as far as the sheet reads it;
      `deviceTypeKnown` says whether `deviceType` is non-null. */
  class ParticleDevice {
    var deviceTypeKnown: bool
    var isFlashing: bool
    var isRunningTinker: bool
    var isConnected: bool
    var notes: Option<string>

    constructor (deviceTypeKnown: bool, isFlashing: bool, isRunningTinker: bool, isConnected: bool,
                 notes: Option<string>)
      ensures this.deviceTypeKnown == deviceTypeKnown
      ensures this.isFlashing == isFlashing && this.isRunningTinker == isRunningTinker
      ensures this.isConnected == isConnected && this.notes == notes
    {
      this.deviceTypeKnown := deviceTypeKnown;
      this.isFlashing := isFlashing;
      this.isRunningTinker := isRunningTinker;
      this.isConnected := isConnected;
      this.notes := notes;
    }
  }

  /** The sheet's behaviour object; only its state is modelled. */
  class BottomSheetBehavior {
    var state: SheetState

    constructor (state: SheetState)
      ensures this.state == state
    {
      this.state := state;
    }
  }

  /** The controller. Its fields stand for the widgets under `root` that the
      rules write: the notes field, the status label and dot, the ping button and
      its progress bar; `scheduledNoteWrites` holds the notes writes handed to
      the worker context, in order. */
  class DeviceInfoBottomSheetController {
    const behavior: BottomSheetBehavior
    const device: ParticleDevice
    var notesText: string
    var statusText: string
    var statusDot: StatusDot
    var statusDotAnimating: bool
    var pingEnabled: bool
    var pingProgressVisible: bool
    var scheduledNoteWrites: seq<string>

    constructor (behavior: BottomSheetBehavior, device: ParticleDevice)
      ensures this.behavior == behavior && this.device == device
      ensures notesText == "" && !statusDotAnimating && pingEnabled && !pingProgressVisible
      ensures scheduledNoteWrites == []
    {
      this.behavior := behavior;
      this.device := device;
      notesText := "";
      statusText := "";
      statusDot := DotOffline;
      statusDotAnimating := false;
      pingEnabled := true;
      pingProgressVisible := false;
      scheduledNoteWrites := [];
    }

    /** The click listener on the expanded handle and the collapsed expander. */
    method OnToggleTap()
      modifies behavior
      ensures behavior.state == Toggled(old(behavior.state))
    {
      match behavior.state
      case Expanded =>
        behavior.state := Collapsed;
      case Collapsed =>
        behavior.state := Expanded;
      case _ =>
    }

    /** Sets the label and the dot for `isOnline`; any running dot animation is
        cancelled, and the fade animation is started again only when online. */
    method SetUpStatusDotAndText(isOnline: bool)
      modifies this`statusText, this`statusDot, this`statusDotAnimating
      ensures statusText == StatusText(isOnline)
      ensures statusDot == StatusColoredDot(device.isFlashing, isOnline, device.isRunningTinker)
      ensures statusDotAnimating == isOnline
    {
      statusText := if isOnline then "Online" else "Offline";
      statusDot := StatusColoredDot(device.isFlashing, isOnline, device.isRunningTinker);
      statusDotAnimating := false;
      if isOnline {
        statusDotAnimating := true;
      }
    }

    /** The resume handler's effect on the modelled widgets: the notes field
        shows the device's notes, and the status follows its connection. With a
        null device type, `deviceType!!` throws before any of them is set, and
        `completed` is false. */
    method UpdateDeviceDetails() returns (completed: bool)
      modifies this`notesText, this`statusText, this`statusDot, this`statusDotAnimating
      ensures completed == device.deviceTypeKnown
      ensures !completed ==> unchanged(this)
      ensures completed ==> notesText == NotesShown(device.notes)
      ensures completed ==> statusText == StatusText(device.isConnected)
      ensures completed ==>
        statusDot == StatusColoredDot(device.isFlashing, device.isConnected, device.isRunningTinker)
      ensures completed ==> statusDotAnimating == device.isConnected
    {
      if !device.deviceTypeKnown {
        return false;
      }
      notesText := if device.notes.Some? then device.notes.value else "";
      SetUpStatusDotAndText(device.isConnected);
      completed := true;
    }

    /** The pause handler: hands a notes write to the worker context only when
        the notes field differs from the device's notes. */
    method UpdateNotesIfNeeded()
      modifies this`scheduledNoteWrites
      ensures NotesToWrite(notesText, device.notes).None? ==> scheduledNoteWrites == old(scheduledNoteWrites)
      ensures NotesToWrite(notesText, device.notes).Some? ==>
        scheduledNoteWrites == old(scheduledNoteWrites) + [NotesToWrite(notesText, device.notes).value]
    {
      var notesInUi := notesText;
      if device.notes == Some(notesInUi) {
        return;
      }
      scheduledNoteWrites := scheduledNoteWrites + [notesInUi];
    }

    /** The ping button's round trip. `pingResult` is what the worker returned:
        the device's answer, or `None` when `pingDevice` threw. Afterwards the
        button is enabled again, the progress bar hidden, and the status updated
        only when an answer came back. */
    method OnPingClicked(pingResult: Option<bool>)
      modifies this`pingEnabled, this`pingProgressVisible
      modifies this`statusText, this`statusDot, this`statusDotAnimating
      ensures pingEnabled && !pingProgressVisible
      ensures pingResult.None? ==>
        statusText == old(statusText) && statusDot == old(statusDot) && statusDotAnimating == old(statusDotAnimating)
      ensures pingResult.Some? ==>
        statusText == StatusText(pingResult.value) && statusDotAnimating == pingResult.value &&
        statusDot == StatusColoredDot(device.isFlashing, pingResult.value, device.isRunningTinker)
    {
      pingEnabled := false;
      pingProgressVisible := true;
      // the worker call to pingDevice() is suspended on here
      pingProgressVisible := false;
      pingEnabled := true;
      if pingResult.Some? {
        SetUpStatusDotAndText(pingResult.value);
      }
    }
  }
}
