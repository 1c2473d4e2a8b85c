/** The scenarios of tests/PinEmulationTest.php, played on fresh emulated
    pins (GPIO 12, as in the tests). Each method states what the model
    makes of the scenario; where that differs from what the test expects,
    the method's comment says so. */
module Scenarios {
  import opened Wrappers
  import opened Text
  import opened Gpio

  /** `testEnableDisable`: not enabled, enabled after `enable()`, not
      enabled after `disable()`. */
  method EnableDisable() returns (before: bool, during: bool, after: bool)
    ensures !before && during && !after
  {
    var pin := new Pin.Emulated(12);
    before := pin.IsEnabled();
    var r := pin.Enable();
    during := pin.IsEnabled();
    r := pin.Disable();
    after := pin.IsEnabled();
  }

  /** Enabling again after a disable: the pin ends exported with all three
      channel handles open. */
  method EnableDisableEnable() returns (exported: bool, channelsOpen: bool)
    ensures exported && channelsOpen
  {
    var pin := new Pin.Emulated(12);
    var r := pin.Enable();
    r := pin.Disable();
    r := pin.Enable();
    exported := pin.enabled;
    channelsOpen := forall c :: c in PinChannels ==> c in pin.handles;
  }

  /** `disable` closes only the three channel handles: after an enable and a
      disable the export and unexport handles are both still open, so "some
      handle is open" does not mean "the pin is enabled". */
  method AllocationHandlesStayOpen() returns (exportOpen: bool, unexportOpen: bool, enabled: bool)
    ensures exportOpen && unexportOpen && !enabled
  {
    var pin := new Pin.Emulated(12);
    var r := pin.Enable();
    r := pin.Disable();
    exportOpen := "export" in pin.handles;
    unexportOpen := "unexport" in pin.handles;
    enabled := pin.IsEnabled();
  }

  /** `testEnableDisable` with `isEnabled` as written: the emulation stores
      file names, not streams, so `is_resource` is false even right after
      `enable()` and the test's second assertion cannot hold. */
  method EnableDisableAsWritten() returns (during: bool)
    ensures !during
  {
    var pin := new Pin.Emulated(12);
    var r := pin.Enable();
    during := pin.IsEnabledAsWritten();
  }

  /** The start of `testPropertyChanges`: after `setDirection("in")` the
      cache and the channel both say "in" and the edge reads "none". */
  method InputSwitch() returns (cached: Option<string>, read: Result<string>, edge: Result<string>)
    ensures cached == Some(DirectionIn) && read == Ok(DirectionIn)
    ensures edge == Ok(EdgeNone)
  {
    var pin := new Pin.Emulated(12);
    var r := pin.Enable();
    TrimKeeps(EdgeNone);
    edge := pin.GetEdge();
    assert pin.emulated && pin.direction == None && pin.handleData["edge"] == EdgeNone;
    ghost var written;
    r, written := pin.SetDirection(DirectionIn);
    cached := pin.direction;
    read := pin.ReadDirection();
    assert pin.GetEdge() == edge;
  }

  /** The next step of `testPropertyChanges` and of
      `testDenyEdgeChangeInOutputMode`: on an input pin `setEdge` is refused
      for every edge name, because the edge gate asks for output, so the
      tests' assertions that the edge now reads as set do not hold. */
  method EdgeOnInput(e: string) returns (edgeSet: Outcome)
    ensures edgeSet == Fail(WrongMode(EdgeNeedsOutput))
  {
    var pin := new Pin.Emulated(12);
    var r := pin.Enable();
    ghost var written;
    r, written := pin.SetDirection(DirectionIn);
    edgeSet, written := pin.SetEdge(e);
  }

  /** Switching a fresh emulated pin (edge "none") to output succeeds and
      the channel then reads "out". */
  method OutputSwitch() returns (r: Outcome, read: Result<string>)
    ensures r == Pass && read == Ok(DirectionOut)
  {
    var pin := new Pin.Emulated(12);
    TrimKeeps(EdgeNone);
    ghost var written;
    r, written := pin.SetDirection(DirectionOut);
    read := pin.ReadDirection();
  }

  /** On an emulated output pin a value written reads back, and the edge can
      be set and read back. */
  method OutputValueAndEdge(v: bool, e: string) returns (value: Result<bool>, edge: Result<string>)
    requires IsEdge(e)
    ensures value == Ok(v)
    ensures edge == Ok(e)
  {
    var pin := new Pin.Emulated(12);
    TrimKeeps(EdgeNone);
    var r: Outcome;
    ghost var written;
    r, written := pin.SetDirection(DirectionOut);
    assert pin.emulated && pin.direction == Some(DirectionOut);
    r, written := pin.SetValue(Bool(v));
    value := pin.GetValue();
    assert pin.emulated && pin.direction == Some(DirectionOut);
    r, written := pin.SetEdge(e);
    edge := pin.GetEdge();
  }

  /** The same switch with `getEdge` as written: the edge reads as `null`,
      `setEdge("none")` is called on an input pin and refused, and the pin
      stays an input. */
  method OutputAsWritten() returns (r: Outcome, cached: Option<string>)
    ensures r.Fail? && cached == None
  {
    var pin := new Pin.Emulated(12);
    var e := pin.Enable();
    r := pin.SetDirectionAsWritten(DirectionOut);
    cached := pin.direction;
  }

  /** `testValueRequiresEnabled`: the emulation's `readFromHandle` does not
      look at the open handles, so on a disabled pin `getValue` reads the
      seeded "0" and returns false instead of failing as the test expects. */
  method ValueWhileDisabled() returns (enabled: bool, value: Result<bool>)
    ensures !enabled && value == Ok(false)
  {
    var pin := new Pin.Emulated(12);
    var r := pin.Disable();
    enabled := pin.IsEnabled();
    TrimKeeps("0");
    value := pin.GetValue();
  }

  /** A real pin that was never enabled has no open handles: reading its
      direction is refused as an invalid handle, and setting a value is
      refused by the mode gate before any I/O. */
  method RealPinNotEnabled(sysfs: Sysfs) returns (read: Result<string>, refused: Outcome)
    ensures read == Err(InvalidHandle("direction"))
    ensures refused == Fail(WrongMode(ValueNeedsOutput))
  {
    var pin := new Pin(17, sysfs);
    read := pin.ReadDirection();
    ghost var written;
    refused, written := pin.SetValue(Bool(true));
  }
}
