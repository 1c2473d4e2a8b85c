/** One GPIO line driven through the Linux sysfs GPIO interface
    (Documentation/gpio/sysfs.txt in the kernel tree): the class `Pin` of
    src/Pin.php together with its in-memory variant `PinEmulation` of
    src/PinEmulation.php.

    PHP selects the I/O hooks (openFile, closeFile, readFromHandle,
    writeToHandle, checkSysDir) by subclassing; here the constant field
    `emulated` says which of the two classes the object is, and each hook
    runs the body of that class. The state machine on top of the hooks
    (setDirection, setEdge, setValue, enable, disable) is shared, as in PHP. */
module Gpio {
  import opened Text
  import opened Wrappers

  const DirectionIn: string := "in"
  const DirectionOut: string := "out"
  const EdgeNone: string := "none"
  const EdgeRising: string := "rising"
  const EdgeFalling: string := "falling"
  const EdgeBoth: string := "both"

  /** The base directory of the sysfs GPIO interface. */
  const SysGpioBase: string := "/sys/class/gpio"

  /** The three per-pin channels, in the order `changeState` visits them. */
  const PinChannels: seq<string> := ["direction", "edge", "value"]

  predicate IsEdge(e: string) {
    e == EdgeNone || e == EdgeRising || e == EdgeFalling || e == EdgeBoth
  }

  /** The names under which a pin keeps handles: its three channels and the
      two shared allocation channels. */
  predicate IsHandleName(name: string) {
    name in PinChannels || name == "export" || name == "unexport"
  }

  /** The sysfs directory of pin `number`, `<base>/gpio<N>`. */
  function SysDir(number: nat): string {
    SysGpioBase + "/gpio" + Decimal(number)
  }

  /** The allocation channel `changeState` writes to. */
  function ExportChannel(enable: bool): string {
    if enable then "export" else "unexport"
  }

  /** The file a handle of the given name is opened on: the shared
      export/unexport files sit in the base directory, the channels in the
      pin's own directory. */
  function PathOf(number: nat, name: string): string {
    if name == "export" || name == "unexport" then SysGpioBase + "/" + name
    else SysDir(number) + "/" + name
  }

  /** The payload of an export/unexport write: the pin number and a newline. */
  function NumberLine(number: nat): string {
    Decimal(number) + "\n"
  }

  /** The payload `setValue` writes to the value channel. */
  function ValueLine(b: bool): string {
    (if b then "1" else "0") + "\n"
  }

  /** The argument a `\InvalidArgumentException` complains about. */
  datatype BadArgument = BadDirection | BadEdge | BadValue

  /** The mode gates that throw a `\RuntimeException`. */
  datatype Gate = EdgeNeedsOutput | ValueNeedsOutput

  /** The exceptions the core throws, one constructor per throw site kind. */
  datatype Error =
    | InvalidArgument(argument: BadArgument)
    | WrongMode(gate: Gate)
    | InvalidHandle(handle: string)
    | CannotOpen(path: string)
    | ReadFailed(handle: string)
    | WriteFailed(handle: string)
    | ShortWrite(handle: string, wanted: nat, written: nat)
    | StateChangeFailed(enable: bool)
    | CannotRead(handle: string)

  /** Completion of an operation that returns nothing but `$this`. */
  datatype Outcome = Pass | Fail(error: Error)

  /** Completion of an operation that returns a value. */
  datatype Result<T> = Ok(value: T) | Err(error: Error)

  /** A PHP argument of `setValue`: only booleans are accepted. */
  datatype Scalar = Bool(b: bool) | Int(i: int) | Str(s: string)

  /** What is stored in `$this->handles`: `Pin::openFile` stores a stream
      resource, `PinEmulation::openFile` stores the file name string. */
  datatype Handle = Resource(path: string) | Name(path: string)

  /** The part of the file system the real backend reaches: the contents of
      the files it can open and the directories that exist. What the kernel
      does in reply to a write is not modelled: after a write the store may
      be anything. */
  datatype Sysfs = Sysfs(files: map<string, string>, dirs: set<string>)

  /** A call of one of the state-changing I/O hooks, as the pin issued it. */
  datatype IoEvent = Open(handle: string, path: string) | Close(handle: string) | Write(handle: string, data: string)

  predicate IsPrefix(a: seq<IoEvent>, b: seq<IoEvent>) {
    |a| <= |b| && a == b[..|a|]
  }

  function Opens(number: nat, names: seq<string>): (r: seq<IoEvent>)
    ensures |r| == |names|
  {
    seq(|names|, i requires 0 <= i < |names| => Open(names[i], PathOf(number, names[i])))
  }

  function Closes(names: seq<string>): (r: seq<IoEvent>)
    ensures |r| == |names|
  {
    seq(|names|, i requires 0 <= i < |names| => Close(names[i]))
  }

  /** The hook calls of the export/unexport step of `changeState(enable)`
      when none fails: none when the pin directory is already as requested,
      otherwise opening the allocation handle and writing the pin number. */
  function AllocationCalls(number: nat, enable: bool, present: bool): seq<IoEvent> {
    if present == enable then []
    else [Open(ExportChannel(enable), PathOf(number, ExportChannel(enable))),
          Write(ExportChannel(enable), NumberLine(number))]
  }

  /** The hook calls of `changeState(enable)` when none of them fails, given
      whether the pin directory was present when it was checked: the channel
      handles are closed first (disable only), the export or unexport write
      happens only when the directory is not already as requested, and the
      channel handles are opened last (enable only). */
  function ChangeStateCalls(number: nat, enable: bool, present: bool): seq<IoEvent> {
    (if enable then [] else Closes(PinChannels))
    + AllocationCalls(number, enable, present)
    + (if enable then Opens(number, PinChannels) else [])
  }

  /** What `writeToHandle` makes of `fwrite`'s reply on an open real handle:
      a failed call (`None`) and a short count are errors, a full count is
      success. */
  function WriteReply(name: string, data: string, written: Option<nat>): Outcome {
    match written
    case None => Fail(WriteFailed(name))
    case Some(n) => if n < |data| then Fail(ShortWrite(name, |data|, n)) else Pass
  }

  class Pin {
    /** The GPIO number (the BCM number on a Raspberry Pi). */
    const number: nat
    /** True for a `PinEmulation`, false for a plain `Pin`. */
    const emulated: bool

    /** The cached direction: unset until the first successful `setDirection`. */
    var direction: Option<string>
    /** The open handles, by handle name. */
    var handles: map<string, Handle>

    /** Real backend: the file system it reads and writes. */
    var sysfs: Sysfs
    /** Emulation: the last data written to each channel. */
    var handleData: map<string, string>
    /** Emulation: whether the pin is exported. */
    var enabled: bool

    /** Every call of openFile, closeFile and writeToHandle, in order. */
    ghost var events: seq<IoEvent>

    /** The cached direction is unset or one of the two directions; every
        handle has one of the five names, is open on that name's file, and is
        of the kind its class stores; the emulation always holds data for the
        three pin channels. */
    ghost predicate Valid()
      reads this
    {
      && (direction == None || direction == Some(DirectionIn) || direction == Some(DirectionOut))
      && (forall k :: k in handles ==>
            IsHandleName(k) && handles[k].path == PathOf(number, k) && handles[k].Resource? == !emulated)
      && (emulated ==> forall c :: c in PinChannels ==> c in handleData)
    }

    /** `new Pin($number)` on a real system whose file system is `sysfs`. */
    constructor (number: nat, sysfs: Sysfs)
      ensures Valid()
      ensures this.number == number && !emulated && this.sysfs == sysfs
      ensures direction == None && handles == map[] && events == []
    {
      this.number := number;
      emulated := false;
      this.sysfs := sysfs;
      direction := None;
      handles := map[];
      handleData := map[];
      enabled := false;
      events := [];
    }

    /** `new PinEmulation($number)`: channels seeded to input, no edge, low. */
    constructor Emulated(number: nat)
      ensures Valid()
      ensures this.number == number && emulated && !enabled
      ensures handleData == map["direction" := DirectionIn, "edge" := EdgeNone, "value" := "0"]
      ensures direction == None && handles == map[] && events == []
    {
      this.number := number;
      emulated := true;
      sysfs := Sysfs(map[], {});
      direction := None;
      handles := map[];
      handleData := map["direction" := DirectionIn, "edge" := EdgeNone, "value" := "0"];
      enabled := false;
      events := [];
    }

    /** Whether the pin is enabled: its value handle is open. */
    predicate IsEnabled()
      reads this
    {
      "value" in handles
    }

    /** `isEnabled` as written: `is_resource($this->handles['value'])`. */
    predicate IsEnabledAsWritten()
      reads this
    {
      "value" in handles && handles["value"].Resource?
    }

    /** Whether the named handle passes the base class's check
        `isset($this->handles[$name]) && is_resource(...)`. */
    predicate IsOpenResource(name: string)
      reads this
    {
      name in handles && handles[name].Resource?
    }

    /** Whether a write is the emulation's export (or unexport) request for
        this pin: the channel name and exactly the pin number and a newline. */
    predicate IsExportWrite(name: string, data: string, enable: bool) {
      name == ExportChannel(enable) && data == NumberLine(number)
    }

    /** `checkSysDir`: the real backend tests for the pin's directory, the
        emulation reports its flag. */
    function CheckSysDir(): bool
      reads this
    {
      if emulated then enabled else SysDir(number) in sysfs.dirs
    }

    /** `openFile($name, $path)`. The real backend does nothing for a handle
        that is already open and fails when the file cannot be opened; the
        emulation stores the file name, replacing whatever was there. */
    method OpenFile(name: string, path: string) returns (r: Outcome)
      requires Valid() && IsHandleName(name) && path == PathOf(number, name)
      modifies this
      ensures Valid()
      ensures events == old(events) + [Open(name, path)]
      ensures direction == old(direction) && sysfs == old(sysfs)
      ensures handleData == old(handleData) && enabled == old(enabled)
      ensures emulated ==> r == Pass && handles == old(handles)[name := Name(path)]
      ensures !emulated && name in old(handles) ==> r == Pass && handles == old(handles)
      ensures !emulated && name !in old(handles) && path in sysfs.files ==>
                r == Pass && handles == old(handles)[name := Resource(path)]
      ensures !emulated && name !in old(handles) && path !in sysfs.files ==>
                r == Fail(CannotOpen(path)) && handles == old(handles)
    {
      events := events + [Open(name, path)];
      if emulated {
        handles := handles[name := Name(path)];
        return Pass;
      }
      if IsOpenResource(name) {
        return Pass;
      }
      if path !in sysfs.files {
        return Fail(CannotOpen(path));
      }
      handles := handles[name := Resource(path)];
      r := Pass;
    }

    /** `closeFile($name)`: the handle is gone afterwards, and closing a handle
        that is not open does nothing (both classes). */
    method CloseFile(name: string)
      requires Valid()
      modifies this
      ensures Valid()
      ensures handles == old(handles) - {name}
      ensures events == old(events) + [Close(name)]
      ensures direction == old(direction) && sysfs == old(sysfs)
      ensures handleData == old(handleData) && enabled == old(enabled)
    {
      events := events + [Close(name)];
      if !emulated && name !in handles {
        return;
      }
      handles := handles - {name};
    }

    /** `readFromHandle($name)`: the trimmed channel contents. The real
        backend refuses a handle that is not open and fails when the file
        cannot be read; the emulation reads its stored data whether or not
        the handle is open, and fails for a channel it holds no data for. */
    function ReadFromHandle(name: string): (r: Result<string>)
      reads this
      ensures !emulated && !IsOpenResource(name) ==> r == Err(InvalidHandle(name))
      ensures emulated ==> (r.Ok? <==> name in handleData)
      ensures emulated && name !in handleData ==> r == Err(CannotRead(name))
      ensures r.Ok? ==> Trim(r.value) == r.value
    {
      var raw :=
        if emulated then
          if name in handleData then Ok(handleData[name]) else Err(CannotRead(name))
        else if !IsOpenResource(name) then Err(InvalidHandle(name))
        else if handles[name].path !in sysfs.files then Err(ReadFailed(name))
        else Ok(sysfs.files[handles[name].path]);
      match raw
      case Ok(data) => TrimIdempotent(data); Ok(Trim(data))
      case Err(e) => Err(e)
    }

    /** `writeToHandle($name, $data)`. The real backend refuses a handle that
        is not open, and otherwise reports `fwrite`'s reply (`written`: the
        byte count, or `None` when the call failed): a failed write, a
        short write, or success exactly when every byte was written. The
        emulation never fails: an export or unexport request for this pin
        sets or clears its flag, and any other write is stored under the
        channel name. */
    method WriteToHandle(name: string, data: string) returns (r: Outcome, ghost written: Option<nat>)
      requires Valid()
      modifies this
      ensures Valid()
      ensures events == old(events) + [Write(name, data)]
      ensures handles == old(handles) && direction == old(direction)
      ensures emulated ==> r == Pass && sysfs == old(sysfs)
      ensures emulated && IsExportWrite(name, data, true) ==>
                enabled && handleData == old(handleData)
      ensures emulated && IsExportWrite(name, data, false) ==>
                !enabled && handleData == old(handleData)
      ensures emulated && !IsExportWrite(name, data, true) && !IsExportWrite(name, data, false) ==>
                enabled == old(enabled) && handleData == old(handleData)[name := data]
      ensures !emulated ==> enabled == old(enabled) && handleData == old(handleData)
      ensures !emulated && !old(IsOpenResource(name)) ==>
                r == Fail(InvalidHandle(name)) && sysfs == old(sysfs)
      ensures !emulated && old(IsOpenResource(name)) ==>
                && (written.Some? ==> written.value <= |data|)
                && (written.None? ==> r == Fail(WriteFailed(name)))
                && (written.Some? && written.value < |data| ==> r == Fail(ShortWrite(name, |data|, written.value)))
                && (written == Some(|data|) ==> r == Pass)
                && r == WriteReply(name, data, written)
    {
      events := events + [Write(name, data)];
      written := Some(|data|);
      if emulated {
        if IsExportWrite(name, data, true) {
          enabled := true;
        } else if IsExportWrite(name, data, false) {
          enabled := false;
        } else {
          handleData := handleData[name := data];
        }
        r := Pass;
        return;
      }
      if !IsOpenResource(name) {
        r := Fail(InvalidHandle(name));
        return;
      }
      // fwrite: the kernel takes some prefix of the bytes, or the call fails,
      // and it may change the file system in reply
      var count: Option<nat> :| count.None? || count.value <= |data|;
      written := count;
      var after: Sysfs :| true;
      sysfs := after;
      if count.None? {
        r := Fail(WriteFailed(name));
        return;
      }
      if count.value != |data| {
        r := Fail(ShortWrite(name, |data|, count.value));
        return;
      }
      r := Pass;
    }

    /** On the emulation, a channel holding a line whose text has non-blank
        ends reads back as that text. */
    lemma StoredLineReads(name: string, s: string)
      requires emulated && name in handleData && handleData[name] == s + "\n"
      requires s != [] ==> !IsBlank(s[0]) && !IsBlank(s[|s| - 1])
      ensures ReadFromHandle(name) == Ok(s)
    {
      TrimLine(s);
    }

    /** `readDirection`: the direction channel, not the cache. */
    function ReadDirection(): (r: Result<string>)
      reads this
      ensures !emulated && !IsOpenResource("direction") ==> r == Err(InvalidHandle("direction"))
      ensures emulated ==> (r.Ok? <==> "direction" in handleData)
      ensures r.Ok? ==> Trim(r.value) == r.value
    {
      ReadFromHandle("direction")
    }

    /** `getEdge`, returning the trimmed edge channel as its documentation
        says. */
    function GetEdge(): (r: Result<string>)
      reads this
      ensures !emulated && !IsOpenResource("edge") ==> r == Err(InvalidHandle("edge"))
      ensures r.Ok? ==> Trim(r.value) == r.value
    {
      ReadFromHandle("edge")
    }

    /** `getEdge` as written: it reads the channel and returns nothing
        (PHP `null`, here `None`). */
    function GetEdgeAsWritten(): (r: Result<Option<string>>)
      reads this
      ensures r.Ok? ==> r.value == None
      ensures r.Err? <==> GetEdge().Err?
    {
      match ReadFromHandle("edge")
      case Ok(_) => Ok(None)
      case Err(e) => Err(e)
    }

    /** `getValue`: false exactly when the trimmed value channel is "0". */
    function GetValue(): (r: Result<bool>)
      reads this
      ensures r.Ok? <==> ReadFromHandle("value").Ok?
      ensures r.Ok? ==> (r.value <==> ReadFromHandle("value").value != "0")
    {
      match ReadFromHandle("value")
      case Ok(s) => Ok(s != "0")
      case Err(e) => Err(e)
    }

    /** `setEdge($e)`: refused unless the cached direction is output (checked
        first), refused for anything but the four edge names, and otherwise
        the edge name and a newline are written to the edge channel. */
    method SetEdge(e: string) returns (r: Outcome, ghost written: Option<nat>)
      requires Valid()
      modifies this
      ensures Valid()
      ensures old(direction) != Some(DirectionOut) ==>
                r == Fail(WrongMode(EdgeNeedsOutput)) && unchanged(this)
      ensures old(direction) == Some(DirectionOut) && !IsEdge(e) ==>
                r == Fail(InvalidArgument(BadEdge)) && unchanged(this)
      ensures old(direction) == Some(DirectionOut) && IsEdge(e) ==>
                && events == old(events) + [Write("edge", e + "\n")]
                && handles == old(handles) && direction == old(direction)
                && enabled == old(enabled)
                && (emulated ==> r == Pass && handleData == old(handleData)["edge" := e + "\n"])
                && (emulated ==> GetEdge() == Ok(e))
                && (!emulated ==> handleData == old(handleData))
                && (!emulated && !old(IsOpenResource("edge")) ==> r == Fail(InvalidHandle("edge")) && sysfs == old(sysfs))
                && (!emulated && old(IsOpenResource("edge")) ==> r == WriteReply("edge", e + "\n", written))
    {
      written := None;
      if direction != Some(DirectionOut) {
        r := Fail(WrongMode(EdgeNeedsOutput));
        return;
      }
      if !IsEdge(e) {
        r := Fail(InvalidArgument(BadEdge));
        return;
      }
      r, written := WriteToHandle("edge", e + "\n");
      if emulated {
        StoredLineReads("edge", e);
      }
    }

    /** `setValue($v)`: refused unless the cached direction is output (checked
        first), refused for a non-boolean, and otherwise "1\n" or "0\n" is
        written to the value channel. On the emulation the value then reads
        back as written. */
    method SetValue(v: Scalar) returns (r: Outcome, ghost written: Option<nat>)
      requires Valid()
      modifies this
      ensures Valid()
      ensures old(direction) != Some(DirectionOut) ==>
                r == Fail(WrongMode(ValueNeedsOutput)) && unchanged(this)
      ensures old(direction) == Some(DirectionOut) && !v.Bool? ==>
                r == Fail(InvalidArgument(BadValue)) && unchanged(this)
      ensures old(direction) == Some(DirectionOut) && v.Bool? ==>
                && events == old(events) + [Write("value", ValueLine(v.b))]
                && handles == old(handles) && direction == old(direction)
                && enabled == old(enabled)
                && (emulated ==> r == Pass && handleData == old(handleData)["value" := ValueLine(v.b)])
                && (emulated ==> GetValue() == Ok(v.b))
                && (!emulated ==> handleData == old(handleData))
                && (!emulated && !old(IsOpenResource("value")) ==> r == Fail(InvalidHandle("value")) && sysfs == old(sysfs))
                && (!emulated && old(IsOpenResource("value")) ==> r == WriteReply("value", ValueLine(v.b), written))
    {
      written := None;
      if direction != Some(DirectionOut) {
        r := Fail(WrongMode(ValueNeedsOutput));
        return;
      }
      if !v.Bool? {
        r := Fail(InvalidArgument(BadValue));
        return;
      }
      r, written := WriteToHandle("value", ValueLine(v.b));
      ValueLineReadsBack(v.b);
    }

    /** PHP's `$d == $this->direction`: the cached direction, or the empty
        string while nothing is cached, since `null == ""` holds in PHP. */
    predicate IsCachedDirection(d: string)
      reads this
    {
      direction == Some(d) || (direction == None && d == "")
    }

    /** The end of `setDirection`: "d\n" is written to the direction channel
        and, if that succeeds, `d` is cached. */
    method WriteDirection(d: string) returns (r: Outcome, ghost written: Option<nat>)
      requires Valid() && (d == DirectionIn || d == DirectionOut)
      modifies this
      ensures Valid()
      ensures events == old(events) + [Write("direction", d + "\n")]
      ensures handles == old(handles) && enabled == old(enabled)
      ensures direction == (if r.Pass? then Some(d) else old(direction))
      ensures emulated ==> r == Pass && handleData == old(handleData)["direction" := d + "\n"]
      ensures emulated ==> ReadDirection() == Ok(d)
      ensures !emulated ==> handleData == old(handleData)
      ensures !emulated && !old(IsOpenResource("direction")) ==> r == Fail(InvalidHandle("direction")) && sysfs == old(sysfs)
      ensures !emulated && old(IsOpenResource("direction")) ==> r == WriteReply("direction", d + "\n", written)
    {
      r, written := WriteToHandle("direction", d + "\n");
      if r.Pass? {
        direction := Some(d);
      }
      if emulated {
        StoredLineReads("direction", d);
      }
    }

    /** `setDirection($d)`. Asking for the cached direction changes nothing.
        Anything but "in" or "out" is refused before any I/O. For "out" the
        edge channel is read, and when it is not "none" `setEdge("none")` is
        called first; since the cache is not "out" at that point, that call
        is refused and the direction change is aborted. Otherwise "d\n" is
        written to the direction channel and, if that succeeds, cached. */
    method SetDirection(d: string) returns (r: Outcome, ghost written: Option<nat>)
      requires Valid()
      modifies this
      ensures Valid()
      ensures old(IsCachedDirection(d)) ==> r == Pass && unchanged(this)
      ensures !old(IsCachedDirection(d)) && d != DirectionIn && d != DirectionOut ==>
                r == Fail(InvalidArgument(BadDirection)) && unchanged(this)
      ensures !old(IsCachedDirection(d)) && d == DirectionOut && old(GetEdge()).Err? ==>
                r == Fail(old(GetEdge()).error) && unchanged(this)
      ensures !old(IsCachedDirection(d)) && d == DirectionOut && old(GetEdge()).Ok?
              && old(GetEdge()).value != EdgeNone ==>
                r == Fail(WrongMode(EdgeNeedsOutput)) && unchanged(this)
      ensures !old(IsCachedDirection(d)) && (d == DirectionIn || (d == DirectionOut && old(GetEdge()) == Ok(EdgeNone))) ==>
                && events == old(events) + [Write("direction", d + "\n")]
                && handles == old(handles) && enabled == old(enabled)
                && direction == (if r.Pass? then Some(d) else old(direction))
                && (emulated ==> r == Pass && handleData == old(handleData)["direction" := d + "\n"])
                && (emulated ==> ReadDirection() == Ok(d))
                && (!emulated ==> handleData == old(handleData))
                && (!emulated && !old(IsOpenResource("direction")) ==> r == Fail(InvalidHandle("direction")) && sysfs == old(sysfs))
                && (!emulated && old(IsOpenResource("direction")) ==> r == WriteReply("direction", d + "\n", written))
    {
      written := None;
      if IsCachedDirection(d) {
        r := Pass;
        return;
      }
      if d == DirectionIn {
      } else if d == DirectionOut {
        var edge := GetEdge();
        if edge.Err? {
          r := Fail(edge.error);
          return;
        }
        if edge.value != EdgeNone {
          // the cache is not "out" here, so setEdge refuses
          r, written := SetEdge(EdgeNone);
          if r.Fail? {
            return;
          }
        }
      } else {
        r := Fail(InvalidArgument(BadDirection));
        return;
      }
      r, written := WriteDirection(d);
    }

    /** `setDirection($d)` with `getEdge` as written: since the edge reads as
        `null`, which is never "none", `setEdge("none")` is always called on
        the way to output, and it is always refused, so the pin can never be
        switched to output. */
    method SetDirectionAsWritten(d: string) returns (r: Outcome)
      requires Valid()
      modifies this
      ensures Valid()
      ensures d == DirectionOut && old(direction) != Some(DirectionOut) ==>
                r.Fail? && unchanged(this)
    {
      if IsCachedDirection(d) {
        return Pass;
      }
      if d == DirectionIn {
      } else if d == DirectionOut {
        var edge := GetEdgeAsWritten();
        if edge.Err? {
          return Fail(edge.error);
        }
        if edge.value != Some(EdgeNone) {
          ghost var written;
          r, written := SetEdge(EdgeNone);
          if r.Fail? {
            return;
          }
        }
      } else {
        return Fail(InvalidArgument(BadDirection));
      }
      ghost var written;
      r, written := WriteDirection(d);
    }
    /** The first loop of `changeState`: close the three channel handles. */
    method CloseChannels()
      requires Valid()
      modifies this
      ensures Valid()
      ensures handles == old(handles) - (set c | c in PinChannels)
      ensures events == old(events) + Closes(PinChannels)
      ensures direction == old(direction) && sysfs == old(sysfs)
      ensures handleData == old(handleData) && enabled == old(enabled)
    {
      for i := 0 to |PinChannels|
        invariant Valid()
        invariant handles == old(handles) - (set c | c in PinChannels[..i])
        invariant events == old(events) + Closes(PinChannels[..i])
        invariant direction == old(direction) && sysfs == old(sysfs)
        invariant handleData == old(handleData) && enabled == old(enabled)
      {
        assert PinChannels[..i + 1] == PinChannels[..i] + [PinChannels[i]];
        CloseFile(PinChannels[i]);
      }
      assert PinChannels[..|PinChannels|] == PinChannels;
    }

    /** The middle of `changeState`: when the pin directory is not as
        requested, open the export (or unexport) handle, write the pin number
        to it, and fail unless the directory is now as requested. `written`
        is `fwrite`'s reply to that write on the real backend. */
    method Allocate(enable: bool) returns (r: Outcome, ghost written: Option<nat>)
      requires Valid()
      modifies this
      ensures Valid()
      ensures IsPrefix(events, old(events) + AllocationCalls(number, enable, old(CheckSysDir())))
      ensures r.Pass? ==> events == old(events) + AllocationCalls(number, enable, old(CheckSysDir()))
      ensures r.Pass? ==> CheckSysDir() == enable
      ensures old(CheckSysDir()) == enable ==> r == Pass && unchanged(this)
      ensures r == Fail(StateChangeFailed(enable)) ==> CheckSysDir() != enable
      ensures |events| == |old(events)| + 1 ==> r == Fail(CannotOpen(PathOf(number, ExportChannel(enable))))
      ensures !emulated && old(CheckSysDir()) != enable && ExportChannel(enable) !in old(handles)
              && PathOf(number, ExportChannel(enable)) !in old(sysfs.files) ==>
                r == Fail(CannotOpen(PathOf(number, ExportChannel(enable)))) && |events| == |old(events)| + 1
      ensures old(CheckSysDir()) != enable
              && (emulated || ExportChannel(enable) in old(handles) || PathOf(number, ExportChannel(enable)) in old(sysfs.files)) ==>
                |events| == |old(events)| + 2
      ensures !emulated && |events| == |old(events)| + 2 ==>
                && (written.Some? ==> written.value <= |NumberLine(number)|)
                && (WriteReply(ExportChannel(enable), NumberLine(number), written).Fail? ==>
                      r == WriteReply(ExportChannel(enable), NumberLine(number), written))
                && (WriteReply(ExportChannel(enable), NumberLine(number), written).Pass? ==>
                      (r.Pass? <==> CheckSysDir() == enable) && (r.Fail? ==> r == Fail(StateChangeFailed(enable))))
      ensures direction == old(direction)
      ensures forall c :: c in PinChannels ==> (c in handles <==> c in old(handles))
      ensures forall k :: k in old(handles) ==> k in handles
      ensures r.Pass? && old(CheckSysDir()) != enable ==> ExportChannel(enable) in handles
      ensures emulated ==> r == Pass && handleData == old(handleData)
    {
      written := None;
      if CheckSysDir() == enable {
        r := Pass;
        return;
      }
      var channel := ExportChannel(enable);
      r := OpenFile(channel, PathOf(number, channel));
      if r.Fail? {
        return;
      }
      r, written := WriteToHandle(channel, NumberLine(number));
      if r.Fail? {
        return;
      }
      if CheckSysDir() != enable {
        r := Fail(StateChangeFailed(enable));
        return;
      }
    }

    /** The state of the last loop of `changeState` after `i` channels were
        opened, given the handles `h0` and the hook calls `e0` before the
        loop: those `i` opens were issued and their handles are open, the
        later channels are as they were, and no handle was lost. */
    ghost predicate OpenedUpTo(i: nat, h0: map<string, Handle>, e0: seq<IoEvent>)
      reads this
    {
      && i <= |PinChannels|
      && events == e0 + Opens(number, PinChannels[..i])
      && (forall j :: 0 <= j < i ==> PinChannels[j] in handles)
      && (forall j :: i <= j < |PinChannels| ==> (PinChannels[j] in handles <==> PinChannels[j] in h0))
      && (forall k :: k in h0 ==> k in handles)
    }

    /** One step of the last loop of `changeState`: open channel `i`. */
    method OpenNext(i: nat, ghost h0: map<string, Handle>, ghost e0: seq<IoEvent>) returns (r: Outcome)
      requires Valid() && i < |PinChannels| && OpenedUpTo(i, h0, e0)
      modifies this
      ensures Valid()
      ensures r.Pass? ==> OpenedUpTo(i + 1, h0, e0)
      ensures r.Fail? ==>
                && events == e0 + Opens(number, PinChannels[..i + 1])
                && r == Fail(CannotOpen(PathOf(number, PinChannels[i])))
                && (forall j :: i <= j < |PinChannels| ==> (PinChannels[j] in handles <==> PinChannels[j] in h0))
                && (forall k :: k in h0 ==> k in handles)
      ensures direction == old(direction) && sysfs == old(sysfs)
      ensures handleData == old(handleData) && enabled == old(enabled)
      ensures emulated ==> r == Pass
      ensures !emulated ==> (r.Fail? <==> PinChannels[i] !in old(handles) && PathOf(number, PinChannels[i]) !in sysfs.files)
    {
      ChannelsDistinct();
      assert Opens(number, PinChannels[..i + 1])
          == Opens(number, PinChannels[..i]) + [Open(PinChannels[i], PathOf(number, PinChannels[i]))];
      r := OpenFile(PinChannels[i], PathOf(number, PinChannels[i]));
    }

    /** The last loop of `changeState`: open the three channel handles,
        stopping at the first that cannot be opened; `at` is the index of
        that channel. */
    method OpenChannels() returns (r: Outcome, ghost at: nat)
      requires Valid()
      modifies this
      ensures Valid()
      ensures IsPrefix(events, old(events) + Opens(number, PinChannels))
      ensures r.Pass? ==> events == old(events) + Opens(number, PinChannels)
      ensures r.Pass? ==> forall c :: c in PinChannels ==> c in handles
      ensures r.Fail? ==>
                && at < |PinChannels|
                && events == old(events) + Opens(number, PinChannels[..at + 1])
                && r == Fail(CannotOpen(PathOf(number, PinChannels[at])))
                && forall j :: at <= j < |PinChannels| ==> (PinChannels[j] in handles <==> PinChannels[j] in old(handles))
      ensures r.Fail? ==> !emulated && PinChannels[at] !in old(handles) && PathOf(number, PinChannels[at]) !in sysfs.files
      ensures (forall c :: c in PinChannels ==> c in old(handles) || PathOf(number, c) in sysfs.files) ==> r == Pass
      ensures forall k :: k in old(handles) ==> k in handles
      ensures direction == old(direction) && sysfs == old(sysfs)
      ensures handleData == old(handleData) && enabled == old(enabled)
      ensures emulated ==> r == Pass
    {
      at := 0;
      assert PinChannels[..0] == [];
      for i := 0 to |PinChannels|
        invariant Valid() && OpenedUpTo(i, old(handles), old(events))
        invariant direction == old(direction) && sysfs == old(sysfs)
        invariant handleData == old(handleData) && enabled == old(enabled)
      {
        r := OpenNext(i, old(handles), old(events));
        if r.Fail? {
          at := i;
          OpensPrefix(old(events), number, i + 1);
          return;
        }
      }
      OpensPrefix(old(events), number, |PinChannels|);
      r := Pass;
    }

    /** `changeState($enable)`: closes the three channel handles (disable),
        writes the pin number to export or unexport when the pin directory is
        not already as requested and then re-checks it, and opens the three
        channel handles (enable). The hook calls are always a prefix of
        `ChangeStateCalls`, and all of it when the call succeeds; the cached
        direction is kept. */
    method ChangeState(enable: bool) returns (r: Outcome)
      requires Valid()
      modifies this
      ensures Valid()
      ensures IsPrefix(events, old(events) + ChangeStateCalls(number, enable, old(CheckSysDir())))
      ensures r.Pass? ==> events == old(events) + ChangeStateCalls(number, enable, old(CheckSysDir()))
      ensures direction == old(direction)
      ensures r.Pass? ==> CheckSysDir() == enable
      ensures r == Fail(StateChangeFailed(enable)) ==> CheckSysDir() != enable
      ensures !enable ==> forall c :: c in PinChannels ==> c !in handles
      ensures r.Pass? && enable ==> forall c :: c in PinChannels ==> c in handles
      ensures forall k :: k in old(handles) && (enable || k !in PinChannels) ==> k in handles
      ensures r.Pass? && old(CheckSysDir()) != enable ==> ExportChannel(enable) in handles
      ensures enable && r.Fail? ==>
                || IsPrefix(events, old(events) + AllocationCalls(number, true, old(CheckSysDir())))
                || exists i :: 0 <= i < |PinChannels|
                     && events == old(events) + AllocationCalls(number, true, old(CheckSysDir())) + Opens(number, PinChannels[..i + 1])
                     && r == Fail(CannotOpen(PathOf(number, PinChannels[i])))
                     && PinChannels[i] !in old(handles) && PathOf(number, PinChannels[i]) !in sysfs.files
      ensures !enable && !old(CheckSysDir()) ==> r == Pass
      ensures enable && !emulated && old(CheckSysDir())
              && (forall c :: c in PinChannels ==> c in old(handles) || PathOf(number, c) in old(sysfs.files)) ==>
                r == Pass
      ensures emulated ==> r == Pass && handleData == old(handleData)
    {
      ghost var present := CheckSysDir();
      if enable {
        ghost var written;
        r, written := Allocate(true);
        ghost var exported := events;
        if r.Fail? {
          EnableCalls(old(events), exported, exported, number, present);
          return;
        }
        ghost var at;
        r, at := OpenChannels();
        EnableCalls(old(events), exported, events, number, present);
        if r.Fail? {
          assert events == old(events) + AllocationCalls(number, true, present) + Opens(number, PinChannels[..at + 1]);
        }
      } else {
        CloseChannels();
        ghost var closed := events;
        ghost var written;
        r, written := Allocate(false);
        DisableCalls(old(events), closed, events, number, present);
      }
    }

    /** `enable()`. On the emulation it always succeeds and leaves the pin
        exported with its three channel handles open. */
    method Enable() returns (r: Outcome)
      requires Valid()
      modifies this
      ensures Valid()
      ensures IsPrefix(events, old(events) + ChangeStateCalls(number, true, old(CheckSysDir())))
      ensures r.Pass? ==> events == old(events) + ChangeStateCalls(number, true, old(CheckSysDir()))
      ensures direction == old(direction)
      ensures r.Pass? ==> CheckSysDir() && IsEnabled() && forall c :: c in PinChannels ==> c in handles
      ensures forall k :: k in old(handles) ==> k in handles
      ensures r.Pass? && !old(CheckSysDir()) ==> "export" in handles
      ensures !emulated && old(CheckSysDir())
              && (forall c :: c in PinChannels ==> c in old(handles) || PathOf(number, c) in old(sysfs.files)) ==>
                r == Pass
      ensures emulated ==> r == Pass && enabled && handleData == old(handleData)
    {
      r := ChangeState(true);
    }

    /** `disable()`. The three channel handles are closed whatever happens
        next; on the emulation it always succeeds and leaves the pin not
        enabled, storing no data. */
    method Disable() returns (r: Outcome)
      requires Valid()
      modifies this
      ensures Valid()
      ensures IsPrefix(events, old(events) + ChangeStateCalls(number, false, old(CheckSysDir())))
      ensures r.Pass? ==> events == old(events) + ChangeStateCalls(number, false, old(CheckSysDir()))
      ensures direction == old(direction)
      ensures !IsEnabled() && forall c :: c in PinChannels ==> c !in handles
      ensures r.Pass? ==> !CheckSysDir()
      ensures forall k :: k in old(handles) && k !in PinChannels ==> k in handles
      ensures r.Pass? && old(CheckSysDir()) ==> "unexport" in handles
      ensures !old(CheckSysDir()) ==> r == Pass
      ensures emulated ==> r == Pass && !enabled && handleData == old(handleData)
    {
      r := ChangeState(false);
    }
  }

  /** The three channel names are different. */
  lemma ChannelsDistinct()
    ensures forall i, j :: 0 <= i < j < |PinChannels| ==> PinChannels[i] != PinChannels[j]
  {
  }

  /** The opens of the first `i` channels start the opens of all three. */
  lemma OpensPrefix(start: seq<IoEvent>, number: nat, i: nat)
    requires i <= |PinChannels|
    ensures IsPrefix(start + Opens(number, PinChannels[..i]), start + Opens(number, PinChannels))
    ensures i == |PinChannels| ==> Opens(number, PinChannels[..i]) == Opens(number, PinChannels)
  {
    assert Opens(number, PinChannels[..i]) == Opens(number, PinChannels)[..i];
    assert (start + Opens(number, PinChannels))[..|start| + i] == start + Opens(number, PinChannels)[..i];
    if i == |PinChannels| {
      assert PinChannels[..i] == PinChannels;
    }
  }

  /** A prefix of a plan is a prefix of that plan followed by more. */
  lemma PrefixExtends(start: seq<IoEvent>, now: seq<IoEvent>, plan: seq<IoEvent>, more: seq<IoEvent>)
    requires IsPrefix(now, start + plan)
    ensures IsPrefix(now, start + plan + more)
  {
    assert (start + plan + more)[..|now|] == (start + plan)[..|now|];
  }

  /** `changeState(true)`: the allocation calls, then a prefix of the opens,
      are a prefix of the whole plan, and all of it once every open is done. */
  lemma EnableCalls(start: seq<IoEvent>, exported: seq<IoEvent>, now: seq<IoEvent>, number: nat, present: bool)
    requires IsPrefix(exported, start + AllocationCalls(number, true, present))
    requires now == exported
          || (exported == start + AllocationCalls(number, true, present)
              && IsPrefix(now, exported + Opens(number, PinChannels)))
    ensures IsPrefix(now, start + ChangeStateCalls(number, true, present))
    ensures now == exported + Opens(number, PinChannels) && exported == start + AllocationCalls(number, true, present) ==>
              now == start + ChangeStateCalls(number, true, present)
  {
    var plan := start + ChangeStateCalls(number, true, present);
    assert plan == start + AllocationCalls(number, true, present) + Opens(number, PinChannels);
    PrefixExtends(start, exported, AllocationCalls(number, true, present), Opens(number, PinChannels));
  }

  /** `changeState(false)`: the closes, then a prefix of the allocation
      calls, are a prefix of the whole plan, and all of it once the
      allocation step is done. */
  lemma DisableCalls(start: seq<IoEvent>, closed: seq<IoEvent>, now: seq<IoEvent>, number: nat, present: bool)
    requires closed == start + Closes(PinChannels)
    requires IsPrefix(now, closed + AllocationCalls(number, false, present))
    ensures IsPrefix(now, start + ChangeStateCalls(number, false, present))
    ensures now == closed + AllocationCalls(number, false, present) ==>
              now == start + ChangeStateCalls(number, false, present)
  {
    assert start + ChangeStateCalls(number, false, present)
        == start + Closes(PinChannels) + AllocationCalls(number, false, present);
  }

  /** The value line written for `b` reads back, trimmed, as "1" or "0", and
      `getValue` turns it back into `b`. */
  lemma ValueLineReadsBack(b: bool)
    ensures Trim(ValueLine(b)) == (if b then "1" else "0")
    ensures (Trim(ValueLine(b)) != "0") == b
  {
    TrimLine(if b then "1" else "0");
  }

  /** In `changeState(false)` every close comes before the unexport write. */
  lemma DisableClosesFirst(number: nat, present: bool, i: nat, j: nat)
    requires i < j < |ChangeStateCalls(number, false, present)|
    requires ChangeStateCalls(number, false, present)[j].Close?
    ensures ChangeStateCalls(number, false, present)[i].Close?
  {
  }

  /** In `changeState(true)` every open of a channel handle comes after the
      export write. */
  lemma EnableOpensLast(number: nat, present: bool, i: nat, j: nat)
    requires i < j < |ChangeStateCalls(number, true, present)|
    requires ChangeStateCalls(number, true, present)[i].Write?
    ensures ChangeStateCalls(number, true, present)[j].Open?
    ensures ChangeStateCalls(number, true, present)[j].handle in PinChannels
  {
  }
}
