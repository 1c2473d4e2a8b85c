# iqb/gpio: a verified model of the GPIO pin and HD44780 display driver

This project models three classes of the PHP library `iqb/gpio`:

- **`Pin`** (src/Pin.php) drives one Linux GPIO line through the kernel's sysfs interface, which is described in `Documentation/gpio/sysfs.txt` in the kernel tree. The pin works through named channels: `export` and `unexport` are shared, while `direction`, `edge` and `value` belong to the pin. The class keeps a cached direction. It gates and encodes every write:
  - direction "in"/"out";
  - the four edge names;
  - boolean values written as "1\n"/"0\n";
  - the pin number written to export/unexport.
- **`PinEmulation`** (src/PinEmulation.php) replaces the five I/O hooks with an in-memory store. The hooks are `openFile`, `closeFile`, `readFromHandle`, `writeToHandle` and `checkSysDir`.
- **`LCD`** (src/LCD.php) drives an HD44780 character display in 4-bit mode over six pins.

Module layout:

- `Text` (text.dfy): PHP's default `trim` and the decimal rendering of the pin number. Every read is trimmed, and export writes carry the number.
- `Gpio` (pin.dfy): one class `Gpio.Pin` for both PHP classes. PHP picks the hook bodies by subclassing. Here the constant field `emulated` says which class the object is, and each hook runs that class's body. The state machine above the hooks is shared, as it is in PHP. Each class keeps the same PHP state as fields:
  - both classes: the cached `direction` and the `handles` map;
  - the emulation: `handleData` and `enabled`;
  - the real backend: a `Sysfs` value holding the files and directories it can reach.

  A ghost `events` log records every open, close and write hook call in order. Every PHP exception becomes an `Error` value, returned as `Fail(...)`/`Err(...)`.
- `Lcd` (lcd.dfy): the driver only calls `enable`, `setDirection` and `setValue` on its pins. So the class `Lcd.Display` keeps the sequence of those calls (`trace`). Its contracts say exactly what each method appends. A decoder (`Decode`) reads back the bytes from runs of the exact 13-call frame that `writeByte` emits: RS, then D4..D7 in order, an enable pulse, D4..D7 again and a second pulse. It gives no result for any other call order, even one a controller latching on E's falling edge would still read. The lemmas show that the decoder recovers exactly the bytes and registers the driver sent.
- `Scenarios` (scenarios.dfy): the scenarios of tests/PinEmulationTest.php, played on fresh emulated pins. Each states what the model makes of them, including where the code and the test disagree.
- `Wrappers` (wrappers.dfy): an `Option` type.

## Model

| member | source | states |
|---|---|---|
| Text.IsBlank | src/Pin.php:340 | the characters PHP `trim` strips by default: space, tab, "\n", "\r", NUL and vertical tab |
| Text.TrimStart | src/PinEmulation.php:52 | the result is a suffix of the input, everything dropped is a trim blank, and the result does not start with one |
| Text.TrimEnd | src/PinEmulation.php:52 | the result is a prefix of the input, everything dropped is a trim blank, and the result does not end with one |
| Text.Trim | src/Pin.php:340 | PHP `trim`: the result has no blank at either end and is no longer than the input |
| Text.TrimKeeps | src/PinEmulation.php:52 | a string with non-blank ends is its own trim |
| Text.TrimIdempotent | src/Pin.php:340 | trimming twice is trimming once |
| Text.TrimDropsNewline | src/Pin.php:340 | trimming ignores the "\n" every channel write appends |
| Text.TrimLine | src/Pin.php:340 | a line whose text has non-blank ends reads back as that text |
| Text.Digit | src/Pin.php:259 | a digit value renders as a character '0'..'9' |
| Text.DigitValue | src/Pin.php:259 | a digit character is read back as the value it renders |
| Text.Decimal | src/Pin.php:259 | the rendering of `$this->number` is a non-empty run of digits with no leading zero |
| Text.ParseDecimalOfDecimal | src/Pin.php:259 | reading the rendering back gives the number |
| Text.DecimalInjective | src/PinEmulation.php:60-66 | different pin numbers render differently, so an export payload names one pin |
| Text.DecimalLineTrims | src/Pin.php:259 | the export payload "N\n" trims to the rendering of N |
| Gpio.SysDir | src/Pin.php:89 | the pin's sysfs directory `<base>/gpio<N>` |
| Gpio.IsEdge | src/Pin.php:183 | the four edge names `setEdge` accepts |
| Gpio.ExportChannel | src/Pin.php:258-259 | the handle `changeState` allocates through: "export" to enable, "unexport" to disable |
| Gpio.NumberLine | src/Pin.php:259 | the allocation payload: the pin number and a newline, as the emulation also tests for it (src/PinEmulation.php:60, 64) |
| Gpio.ValueLine | src/Pin.php:217 | the value payload: "1\n" for true, "0\n" for false |
| Gpio.WriteReply | src/Pin.php:355-361 | what `writeToHandle` makes of `fwrite`'s reply on an open handle: false gives WriteFailed, a short count gives ShortWrite with both counts, a full count gives success |
| Gpio.PathOf | src/Pin.php:258 | the file a handle is opened on: export/unexport in the base directory (src/Pin.php:258), channels in the pin directory (src/Pin.php:270) |
| Gpio.AllocationCalls | src/Pin.php:257-265 | the export step's hook calls: none when `checkSysDir` already matches, otherwise the open and the pin-number write |
| Gpio.ChangeStateCalls | src/Pin.php:247-275 | the whole plan of `changeState`: closes (disable only), the export step, opens (enable only) |
| Gpio.Pin.IsEnabled | src/Pin.php:97-100 | (corrected) the value handle is open |
| Gpio.Pin.IsEnabledAsWritten | src/Pin.php:97-100 | (as written) the value handle is open and is a stream resource |
| Gpio.Pin.IsOpenResource | src/Pin.php:294 | the `isset && is_resource` test of a handle, shared by `openFile` (src/Pin.php:294), `readFromHandle` (src/Pin.php:329) and `writeToHandle` (src/Pin.php:351) |
| Gpio.Pin.CheckSysDir | src/Pin.php:369-373 | real backend: the pin directory exists; emulation: its `enabled` flag (src/PinEmulation.php:73-76) |
| Gpio.Pin.IsCachedDirection | src/Pin.php:136 | PHP's `$newDirection == $this->direction`, where an unset cache equals only "" |
| Gpio.Pin.IsExportWrite | src/PinEmulation.php:60-64 | the emulation's export/unexport test: the channel name and exactly "N\n" for this pin |
| Gpio.Pin.constructor | src/Pin.php:86-90 | a real pin starts with nothing cached, no handles and no hook calls |
| Gpio.Pin.Emulated | src/PinEmulation.php:29-36 | an emulated pin starts not enabled, with its channels seeded to "in", "none" and "0" |
| Gpio.Pin.OpenFile | src/Pin.php:291-303 | real backend: an open handle is kept and a missing file fails with CannotOpen; emulation: the file name is stored (src/PinEmulation.php:39-42) |
| Gpio.Pin.CloseFile | src/Pin.php:310-318 | the handle is gone afterwards in both classes, and nothing else changes (src/PinEmulation.php:44-47) |
| Gpio.Pin.ReadFromHandle | src/Pin.php:327-341 | real backend: a handle that is not an open resource is refused; emulation: a read succeeds exactly for a channel holding data (src/PinEmulation.php:49-56); every result is trimmed |
| Gpio.Pin.WriteToHandle | src/Pin.php:349-363 | real backend: writing to an unopened handle is refused; otherwise, given `fwrite`'s reply `written` (never more than the data), the result is `WriteReply` of it: a failed call gives WriteFailed, fewer bytes than the data give ShortWrite with both counts, and all bytes give success; emulation: an export/unexport of this pin's number sets/clears `enabled`, anything else is stored under the channel, and it never fails (src/PinEmulation.php:58-71) |
| Gpio.Pin.StoredLineReads | src/PinEmulation.php:49-56 | an emulated channel holding "s\n" reads back as s |
| Gpio.Pin.ReadDirection | src/Pin.php:122-125 | reads the direction channel, not the cache: InvalidHandle on an unopened real pin, and the trimmed stored text on the emulation |
| Gpio.Pin.GetEdge | src/Pin.php:160-169 | (corrected) returns the trimmed edge channel, as its doc comment says |
| Gpio.Pin.GetEdgeAsWritten | src/Pin.php:166-169 | (as written) succeeds or fails with the read, but returns no value |
| Gpio.Pin.GetValue | src/Pin.php:196-199 | false exactly when the trimmed value channel is "0"; read errors pass through |
| Gpio.Pin.SetEdge | src/Pin.php:177-189 | refused unless the cached direction is "out" (checked first), refused for a non-edge name, otherwise exactly "e\n" is written to the edge channel; on the real backend the result is InvalidHandle("edge") when that handle is not open and otherwise the write's `WriteReply`; on the emulation it passes and reads back as e |
| Gpio.Pin.SetValue | src/Pin.php:207-219 | refused unless the cached direction is "out", refused for a non-boolean, otherwise exactly "1\n"/"0\n" is written; on the real backend the result is InvalidHandle("value") when the value handle is not open (for example after a disable) and otherwise the write's `WriteReply`; on the emulation it passes and reads back as the value |
| Gpio.Pin.WriteDirection | src/Pin.php:154-156 | writes "d\n" to the direction channel and caches d exactly when the write succeeded; on the real backend the result is InvalidHandle("direction") when that handle is not open and otherwise the write's `WriteReply` |
| Gpio.Pin.SetDirection | src/Pin.php:133-158 | asking for the cached direction (PHP `null == ""` included) changes nothing; other strings are refused before any I/O; for "out", an edge read error or an edge other than "none" aborts with nothing changed; otherwise exactly "d\n" is written and d is cached exactly when the write succeeded, which on the real backend is the direction handle's open test and then the write's `WriteReply`; on the emulation the channel reads back d |
| Gpio.Pin.SetDirectionAsWritten | src/Pin.php:133-158 | with `getEdge` as written, switching to "out" from any other direction always fails and changes nothing |
| Gpio.Pin.CloseChannels | src/Pin.php:250-254 | removes exactly the three channel handles, logging three closes in order |
| Gpio.Pin.Allocate | src/Pin.php:257-265 | passes with no I/O and nothing changed when `checkSysDir` already matches; otherwise it opens the export (unexport) file, failing with CannotOpen and no write exactly when that handle is not open and its file is missing, then writes the pin number; on the real backend a failed write's `WriteReply` is the result, and after a successful write it passes exactly when the re-check matches and otherwise fails with StateChangeFailed |
| Gpio.Pin.OpenNext | src/Pin.php:270 | one loop step: opens channel i; on the real backend it fails exactly when that handle is not open and its file is missing, with CannotOpen of its path, leaving the later channels as they were |
| Gpio.Pin.OpenChannels | src/Pin.php:268-273 | opens direction, edge and value in order; on failure at channel `at` (real backend only) that channel was not open and its file is missing, the opens issued are exactly those up to and including `at`, the error is CannotOpen of its path, and channels from `at` on are as they were; when every channel is open or has its file it passes, with all three open; no handle is lost |
| Gpio.Pin.ChangeState | src/Pin.php:247-275 | the hook calls are a prefix of `ChangeStateCalls` (all of it on success); closes come first on disable and opens come last on enable; an enable that fails either stops within the export step, opening no channel, or stops at the first channel that is not open and has no file; a disable of an unexported pin passes, and so does an enable of an exported real pin whose channels are all open or present; the cached direction is kept |
| Gpio.Pin.Enable | src/Pin.php:226-229 | on success the pin directory exists and all three channels are open; a real pin that is already exported and whose three channel files exist (or handles are open) passes; on the emulation it always succeeds and sets `enabled` |
| Gpio.Pin.Disable | src/Pin.php:236-239 | whatever happens, the three channel handles are closed and the pin is not enabled; a pin that is not exported passes; on success the directory is gone; the export/unexport handles stay open |
| Gpio.EnableCalls | src/Pin.php:256-273 | the allocation calls followed by a prefix of the opens form a prefix of the enable plan |
| Gpio.DisableCalls | src/Pin.php:250-266 | the closes followed by a prefix of the allocation calls form a prefix of the disable plan |
| Gpio.ValueLineReadsBack | src/Pin.php:198 | the line written for b reads back, trimmed, as "1"/"0", and `getValue` gives b again |
| Gpio.DisableClosesFirst | src/Pin.php:250-258 | in `changeState(false)` every close comes before the unexport write |
| Gpio.EnableOpensLast | src/Pin.php:256-273 | in `changeState(true)` only channel opens follow the export write |
| Lcd.PulseCalls | src/LCD.php:142-149 | `toggleEnable`'s two writes: E high, then E low |
| Lcd.Has | src/LCD.php:125-135 | the test `($byte & bit) == bit` behind each data-line level |
| Lcd.HighNibble | src/LCD.php:125-128 | bits 4..7 of the byte on D4..D7 |
| Lcd.LowNibble | src/LCD.php:132-135 | bits 0..3 of the byte on D4..D7 |
| Lcd.ByteCalls | src/LCD.php:119-137 | `writeByte`'s 13 calls: RS low for a command, high nibble, pulse, low nibble, pulse |
| Lcd.DecodeByte | src/LCD.php:119-137 | the reference decoder of one frame of that shape: RS gives the register, the two nibbles the byte |
| Lcd.Decode | src/LCD.php:104-111 | the reference decoder of a run of frames |
| Lcd.Transfers | src/LCD.php:108-110 | the pin calls of a run of `writeByte` calls, one frame after another |
| Lcd.PinSetup | src/LCD.php:78 | `$pin->enable()->setDirection('out')` on one pin |
| Lcd.SetupCalls | src/LCD.php:78-83 | the six pin setups of `initialize`, in wiring order |
| Lcd.Commands | src/LCD.php:76-93 | a run of command bytes becomes command transfers, one for one |
| Lcd.NibbleValue | src/LCD.php:119-137 | four data-line levels form a value below 16 |
| Lcd.EntryModeByte | src/LCD.php:178-185 | 0x04..0x07, with bit 1 exactly for increment and bit 0 exactly for shift |
| Lcd.DisplayControlByte | src/LCD.php:196-204 | 0x08..0x0F, with bits 2, 1 and 0 exactly for display, cursor and blink |
| Lcd.FunctionSetByte | src/LCD.php:217-225 | 0x20..0x3C, with bits 4, 3 and 2 exactly for 8-bit, two lines and large font, and bits 0/1 clear |
| Lcd.LowBits | src/LCD.php:234-255 | `$address & (2^k - 1)` is the remainder modulo 2^k, negative addresses included |
| Lcd.CgramAddressByte | src/LCD.php:234-240 | 0x40..0x7F, and its low six bits are the address modulo 64 |
| Lcd.DdramAddressByte | src/LCD.php:249-255 | at least 0x80, and its low seven bits are the address modulo 128 |
| Lcd.Padded | src/LCD.php:106 | `str_pad($s, 16)`: the string itself, then spaces up to 16 bytes; a longer string is left as it is |
| Lcd.StringTransfers | src/LCD.php:104-111 | one DDRAM-address command for `($line-1)*40`, then 16 data bytes: the string's bytes, then spaces |
| Lcd.NibbleCallsValue | src/LCD.php:119-137 | four data-line writes form a nibble whose bits are their levels |
| Lcd.DecodeFrame | src/LCD.php:119-149 | a 4-bit frame is 13 `setValue` calls that leave E low and latch (high << 4) \| low into the register RS selects |
| Lcd.ByteCallsDecode | src/LCD.php:119-137 | every `writeByte` is decoded by the display as exactly the byte and register written |
| Lcd.NibblesRebuildByte | src/LCD.php:119-137 | the high nibble shifted up, joined with the low nibble, is the byte |
| Lcd.BitsRebuildByte | src/LCD.php:119-137 | the eight `($byte & bit) == bit` tests, put back in place, give the byte |
| Lcd.TransfersDecode | src/LCD.php:104-111 | any run of `writeByte` calls decodes to exactly the bytes sent, 13 calls each |
| Lcd.TransfersLeaveEnableLow | src/LCD.php:142-149 | after any non-empty run of bytes the enable line is low |
| Lcd.LastLevelOfAppend | src/LCD.php:142-149 | a later write to a pin decides its last level |
| Lcd.TransfersAppend | src/LCD.php:108-110 | sending one more byte appends its 13 calls |
| Lcd.SendOne | src/LCD.php:108-110 | the calls after a prefix grow by one `writeByte` as the bytes grow by one |
| Lcd.SendStep | src/LCD.php:84-89 | one more byte of a planned run extends the calls to the next prefix of that run |
| Lcd.InitCommandsSent | src/LCD.php:84-89 | the six byte writes of `initialize` are the six initialisation commands |
| Lcd.AppendFrame | src/LCD.php:119-137 | a frame issued piece by piece is the frame |
| Lcd.SetupSplit | src/LCD.php:78-83 | the setup calls are the six per-pin setups in wiring order |
| Lcd.SetupOrder | src/LCD.php:78-83 | each of the six pins, in order, is enabled and then set to "out" |
| Lcd.DefaultCommandBytes | src/LCD.php:178-225 | with default arguments `entryMode()` sends 0x06, `displayOnOffControl()` 0x0F and `functionSet()` 0x3C |
| Lcd.LineStartAddresses | src/LCD.php:108 | `writeString` sends line 1 to DDRAM address 0x00 (command 0x80) and line 2 to 0x28 (command 0xA8) |
| Lcd.InitCommandBytes | src/LCD.php:87-89 | `entryMode(true,false)`, `displayOnOffControl(true,false,false)` and `functionSet(false,true,false)` send 0x06, 0x0C and 0x28 |
| Lcd.Display.constructor | src/LCD.php:63-72 | a new driver has issued no pin calls |
| Lcd.Display.SetPin | src/LCD.php:122 | one `setValue` on one pin is appended |
| Lcd.Display.ToggleEnable | src/LCD.php:142-149 | E high, then E low, is appended |
| Lcd.Display.WriteByte | src/LCD.php:119-137 | `$isCommand` defaults to false; exactly the 13-call 4-bit frame of the byte is appended: RS low for a command, the high nibble, a pulse, the low nibble, a pulse |
| Lcd.Display.ClearDisplay | src/LCD.php:157-161 | appends the frame of command 0x01 |
| Lcd.Display.ReturnHome | src/LCD.php:168-172 | appends the frame of command 0x02 |
| Lcd.Display.EntryMode | src/LCD.php:178-185 | appends the frame of the entry-mode command for its flags (defaults: increment, no shift) |
| Lcd.Display.DisplayOnOffControl | src/LCD.php:196-204 | appends the frame of the display-control command for its flags (all default to true) |
| Lcd.Display.FunctionSet | src/LCD.php:217-225 | appends the frame of the function-set command for its flags (all default to true) |
| Lcd.Display.SetCGROMAddress | src/LCD.php:234-240 | appends the frame of 0x40 with the address's low six bits |
| Lcd.Display.SetDDRAMAddress | src/LCD.php:249-255 | appends the frame of 0x80 with the address's low seven bits |
| Lcd.Display.WriteString | src/LCD.php:104-111 | `$line` defaults to 1; appends exactly the frames of the line address and the 16 padded bytes |
| Lcd.Display.SetUpPin | src/LCD.php:78-83 | appends `enable` and then `setDirection('out')` on one pin |
| Lcd.Display.Initialize | src/LCD.php:76-93 | appends the six pin setups, then the frames of 0x33, 0x32, 0x06, 0x0C, 0x28 and 0x01 |
| Scenarios.EnableDisable | tests/PinEmulationTest.php:17-26 | not enabled, enabled after `enable()`, not enabled after `disable()` |
| Scenarios.EnableDisableEnable | src/Pin.php:247-275 | enabling again after a disable leaves the pin exported with all three channels open |
| Scenarios.AllocationHandlesStayOpen | src/Pin.php:250-258 | after enable and disable, the export and unexport handles are both still open while the pin is not enabled |
| Scenarios.EnableDisableAsWritten | tests/PinEmulationTest.php:21-23 | with `is_resource`, the emulated pin never reads as enabled, even right after `enable()` |
| Scenarios.InputSwitch | tests/PinEmulationTest.php:30-36 | after `setDirection("in")` both the cache and the channel say "in", and the edge reads "none" |
| Scenarios.EdgeOnInput | tests/PinEmulationTest.php:57-69 | on an input pin `setEdge` is refused by the mode gate for every edge name |
| Scenarios.OutputSwitch | src/Pin.php:143-156 | a fresh emulated pin (edge "none") switches to output and its channel reads "out" |
| Scenarios.OutputValueAndEdge | src/Pin.php:177-219 | on an output emulated pin a value written reads back, and an edge set reads back |
| Scenarios.OutputAsWritten | src/Pin.php:143-147 | with `getEdge` as written, `setDirection("out")` on an enabled emulated pin fails and the pin stays uncached |
| Scenarios.ValueWhileDisabled | tests/PinEmulationTest.php:86-97 | on a disabled emulated pin `getValue` returns false instead of failing |
| Scenarios.RealPinNotEnabled | src/Pin.php:327-333 | on a real pin that was never enabled, reading the direction is refused as an invalid handle, and `setValue` is refused by the mode gate first |

## Left out

- src/Emulator.php and tests/EmulatorTest.php are not part of this model.
- `usleep` in `toggleEnable` and `initialize` (src/LCD.php:92, 144-148) is left out. It is timing only and the model has no clock.
- `getValueHandle` (src/Pin.php:109-115) is left out. It only hands the raw value stream to `select()`, and edge-event delivery is not modelled.
- `__destruct` (src/Pin.php:277-283) is left out. Object finalisation and `@fclose` of the remaining streams have no counterpart in the model. Its `disable()` is `Gpio.Pin.Disable`.
- The real backend's effects are modelled only in part:
  - `fopen` succeeds exactly when the path is among the files the `Sysfs` value holds;
  - `fwrite` writes any number of bytes up to the length of the data, or fails;
  - after a write the file system may be anything, so the kernel's reaction (creating or removing `gpioN`, changing channel contents) is not modelled;
  - `fread`'s 1024-byte limit is not modelled.
- The pin number is a `nat`. PHP accepts any integer (src/Pin.php:86-90), but a negative number names no GPIO line.
- `$sys_gpio_base` (src/Pin.php:62-68) is the constant `Gpio.SysGpioBase`. The PHP property can be overridden to point at mock sysfs files; in the model the `Sysfs` value plays that part.
- The `fflush` after a complete write (src/Pin.php:362) is left out. Its result is ignored, and the model has no buffering.
- The HD44780's DDRAM address map is not modelled. `writeString($s, 2)` sends the address `(2 - 1) * 40` = 0x28 (src/LCD.php:108), as `Lcd.LineStartAddresses` states. On a two-line HD44780 the second line starts at 0x40, but without a model of the controller nothing here can show which line 0x28 lands on. The model keeps the code's address.
- The model has no PHP-style exceptions, only returned errors. The undefined `Exception` class thrown at src/PinEmulation.php:54 is modelled as the `CannotRead` error that was evidently meant.
- PHP loose comparisons are modelled only where they matter to the state machine:
  - `setDirection` sees `null == ""` (`Gpio.Pin.IsCachedDirection`).
  - Numeric-string equality is not modelled. For example, `getValue` sees "00" != "0" in the model, while PHP's `!=` calls them equal. The emulation's export check (src/PinEmulation.php:60-64) compares only payloads that `changeState` itself builds.
- Gpio.Pin.SetValue: takes a `Scalar` of boolean, integer or string. Other PHP types (floats, arrays, objects) are not modelled; for every non-boolean the gate refuses the same way.
- `setEdge` refuses unless the pin is an output (src/Pin.php:179). This gate is modelled as written. tests/PinEmulationTest.php:53-80 expects the opposite: edges settable on inputs and refused on outputs. `Scenarios.EdgeOnInput` states what the code does. So `setDirection("out")` with an edge other than "none" always fails, because its `setEdge("none")` is refused.
- The emulation's `readFromHandle` does not check that a handle is open. It is modelled as written, and `Scenarios.ValueWhileDisabled` shows the effect.
- `disable` leaves the export/unexport handles open (src/Pin.php:250-258). This is modelled as written, and `Scenarios.AllocationHandlesStayOpen` shows it.
- `getDirection`, which the tests call, is not defined in src/Pin.php. The scenarios read the cached `direction` field instead.
- The driver's pins are modelled in the LCD trace by the calls it makes on them, not by `Pin` objects:
  - an exception a pin would throw (for example a `setValue` refused by the mode gate) is not propagated;
  - the pins' own state is not tracked.
- src/LCD.php declares namespace `saw\gpio` while `Pin` lives in `iqb\gpio`. That is a PHP name-resolution matter with no counterpart in the model.
- LCD bytes are `bv8`. `writeString` takes the string as bytes (the result of `ord`), and `writeByte` is only ever called with values 0..255.

## Findings

| source | as written | input that shows it | evidently intended | confidence | as-written member | corrected member |
|---|---|---|---|---|---|---|
| src/Pin.php:166-169 | `getEdge` reads the edge channel but has no `return`, so it yields `null`; `setDirection('out')` then always calls `setEdge('none')` while the pin is not yet an output, which throws | `setDirection("out")` on an enabled `PinEmulation(12)` whose edge is "none" | return the trimmed edge channel, as the doc comment (src/Pin.php:160-165) says, so an output switch with edge "none" succeeds | not executed | Gpio.Pin.SetDirectionAsWritten | Gpio.Pin.SetDirection |
| src/Pin.php:97-100 | `isEnabled` tests `is_resource($this->handles['value'])`, but `PinEmulation::openFile` stores the file name string, so an emulated pin never reads as enabled | `enable()` then `isEnabled()` on `PinEmulation(12)` | the value handle is open: `isset($this->handles['value'])` | not executed | Scenarios.EnableDisableAsWritten | Scenarios.EnableDisable |
