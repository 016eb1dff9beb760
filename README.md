# gpio_led: a model of a Linux GPIO character-device driver

The driver `GPIO/gpio_led_1/gpio_led_1.c` exposes GPIO 23 as the device file
`gpio_led_device`. Opening the file claims the pin and configures it as an
output at level 0, then exports it to sysfs. Reading returns the level as one
byte. Writing decodes the first byte: `'1'` drives the pin high, and anything
else drives it low. Closing unexports and frees the pin. Loading the module
registers four things in order: a device number, a cdev, a device class and a
device node. A failed step unwinds through goto labels, and unloading tears
all four down in reverse order.

The model has four modules:

- `Gpio` (gpio.dfy): the GPIO controller's state for one pin, as class `Pin`.
  Its fields are `requested`, `isOutput`, `level` and `exported`, plus the
  constant `valid`. The kernel primitives `gpio_is_valid`, `gpio_request`,
  `gpio_direction_output`, `gpio_export`, `gpio_unexport`, `gpio_free`,
  `gpio_get_value` and `gpio_set_value` are its methods. Three outcomes are
  decided by the controller and become parameters: whether a request on a
  free pin is granted, whether the direction change is accepted, and whether
  the sysfs export succeeds.
- `Registration` (registration.dfy): the four registrations and a log of
  registration calls. `Replay` runs a log against a stack. A successful
  acquisition pushes, and a teardown call must pop the most recent
  registration still held. The lemmas prove that nested acquisition with
  reverse-order teardown is balanced. They also prove which of the driver's
  own call sequences are not balanced.
- `GpioLed` (gpio_led.dfy): the driver. Class `Driver` holds the
  registrations the kernel keeps for the module (`held`, standing for the
  globals `dev`, `gpio_led_cdev` and `gpio_dev_class`) and a ghost log
  `calls`. Its methods are the file operations and module init/exit, each as
  the source writes it. `rec_buf` is a 10-byte array that `CopyFromUser`
  fills in place. The command decode is the pure function `Decode`. Where the
  code departs from its evident intent, a second method models the corrected
  code (see Findings).
- `GpioLedScenarios` (scenarios.dfy): short client sequences of opens,
  reads, writes and closes. Their results follow from the contracts alone.

User memory is modelled as the part of the caller's buffer that can be
accessed. For `copy_from_user` that is the readable prefix (`user: seq<byte>`).
For `copy_to_user` it is how many bytes can be written (`room`). A copy fails
when that part is shorter than the count. `copy_from_user` zero-fills the
bytes it could not copy, as the kernel does.

The model keeps three behaviours of the code that a user of the device
file might not expect:

- Open reports both an invalid pin and a denied request as `-1`. A caller
  cannot tell the two failures apart.
- Open ignores the results of `gpio_direction_output` and `gpio_export`.
  A failure of either therefore neither fails the open nor frees the pin:
  the pin may stay an input, or stay out of sysfs.
- Read returns 0, not 1. Write accepts a zero-length buffer and treats it
  like an unknown command.

## Model

| member | source | states |
|---|---|---|
| `Gpio.Pin.IsValid` | GPIO/gpio_led_1/gpio_led_1.c:40 | gpio_is_valid answers the platform's fixed validity of the pin |
| `Gpio.Pin.Request` | GPIO/gpio_led_1/gpio_led_1.c:45 | gpio_request succeeds (0) exactly when the pin is valid, not already requested and granted; success claims the pin, and failure (negative) changes nothing |
| `Gpio.Pin.DirectionOutput` | GPIO/gpio_led_1/gpio_led_1.c:50 | gpio_direction_output returns 0 exactly when the controller accepts the change, and then makes the pin an output at the given level; a refused change (negative) leaves the pin unchanged; ownership and export are unchanged either way |
| `Gpio.Pin.Export` | GPIO/gpio_led_1/gpio_led_1.c:51 | gpio_export succeeds only on a requested pin whose sysfs export goes through, and then marks it exported |
| `Gpio.Pin.Unexport` | GPIO/gpio_led_1/gpio_led_1.c:58 | gpio_unexport leaves the pin not exported, with everything else unchanged |
| `Gpio.Pin.Free` | GPIO/gpio_led_1/gpio_led_1.c:59 | gpio_free leaves the pin neither requested, whoever owned it, nor exported, with direction and level unchanged |
| `Gpio.Pin.GetValue` | GPIO/gpio_led_1/gpio_led_1.c:69 | gpio_get_value returns the current level and changes nothing |
| `Gpio.Pin.SetValue` | GPIO/gpio_led_1/gpio_led_1.c:93 | gpio_set_value drives the pin high for a non-zero value and low for 0; ownership, direction and export are unchanged |
| `Registration.LeadingSuccesses` | GPIO/gpio_led_1/gpio_led_1.c:106-127 | the number of init steps that succeed: every step before it succeeded, and the step at that index failed |
| `Registration.Unwinding` | GPIO/gpio_led_1/gpio_led_1.c:132-139 | teardown gives the registrations back last-acquired first, one call per registration |
| `Registration.NestedIsBalanced` | GPIO/gpio_led_1/gpio_led_1.c:104-151 | acquiring registrations in order and then tearing them down in reverse order returns the stack of held registrations to where it started |
| `Registration.LoadUnloadBalanced` | GPIO/gpio_led_1/gpio_led_1.c:144-151 | a successful init followed by exit gives back every registration in reverse order and leaves nothing held |
| `Registration.InitFailureAsWrittenUnbalanced` | GPIO/gpio_led_1/gpio_led_1.c:104-142 | for every failing step, the code as written starts its teardown at the failed step's own label, so its first teardown call gives back a registration that was never made (on the first step, unregister_chrdev_region of a never-allocated region) |
| `Registration.InitFailureBalanced` | GPIO/gpio_led_1/gpio_led_1.c:104-142 | with each failure jumping to the previous step's label, exactly the registrations made are given back, last first, and none is left |
| `Registration.DeviceNodeDestroyedTwice` | GPIO/gpio_led_1/gpio_led_1.c:42 | load, an open on an invalid pin, then unload destroys the device node twice; the call sequence is not a balanced unwinding |
| `GpioLed.Decode` | GPIO/gpio_led_1/gpio_led_1.c:92-99 | the first byte is SetHigh exactly when it is '1' and SetLow exactly when it is '0'; every other byte is Unknown and carries that byte |
| `GpioLed.OnlyOneDrivesHigh` | GPIO/gpio_led_1/gpio_led_1.c:92-99 | a write's command drives the pin high if and only if its byte is '1'; '0' and unknown bytes both drive it low |
| `GpioLed.CopyFromUser` | GPIO/gpio_led_1/gpio_led_1.c:86 | copy_from_user stores the readable bytes and zeros for the rest of len into the destination, leaves bytes past len alone, and returns how many it could not copy |
| `GpioLed.CopyToUser` | GPIO/gpio_led_1/gpio_led_1.c:72 | copy_to_user delivers as many leading bytes as the caller's buffer can take and returns how many it could not |
| `GpioLed.Stored` | GPIO/gpio_led_1/gpio_led_1.c:84-86 | the len bytes copy_from_user stores: the caller's byte where it could be read, 0 where not |
| `GpioLed.Driver.constructor` | GPIO/gpio_led_1/gpio_led_1.c:14-16 | before loading, the module holds no registrations and has made no calls |
| `GpioLed.Driver.Register` | GPIO/gpio_led_1/gpio_led_1.c:106-127 | a registration call adds its registration when it succeeds and nothing otherwise, and is logged either way |
| `GpioLed.Driver.Unregister` | GPIO/gpio_led_1/gpio_led_1.c:132-139 | a teardown call removes its registration (if held) and is logged even when nothing was held |
| `GpioLed.Driver.Open` | GPIO/gpio_led_1/gpio_led_1.c:38-54 | as written: invalid pin returns -1 with the pin untouched and the device node destroyed; denied or busy request returns -1 and leaves the pin neither requested nor exported; otherwise returns 0 with the pin requested, an output at level 0 if the direction change went through (else direction and level kept), and exported if the export went through |
| `GpioLed.Driver.OpenSafe` | GPIO/gpio_led_1/gpio_led_1.c:38-54 | open corrected: returns 0 exactly when the pin is valid, free and granted, leaving it requested, an output at level 0 if the direction change went through, and exported if the export did; on -1 the pin is unchanged and the registrations are not touched |
| `GpioLed.Driver.Release` | GPIO/gpio_led_1/gpio_led_1.c:56-62 | release always returns 0 and leaves the pin neither exported nor requested, with its level and direction kept |
| `GpioLed.Driver.Read` | GPIO/gpio_led_1/gpio_led_1.c:64-79 | as written: delivers exactly one byte equal to the level when the caller's buffer can take it, none otherwise, changes nothing, and returns 0 in both cases |
| `GpioLed.Driver.ReadCounted` | GPIO/gpio_led_1/gpio_led_1.c:64-79 | read corrected: the same byte, reporting 1 when it was delivered and -EFAULT when not |
| `GpioLed.Driver.Write` | GPIO/gpio_led_1/gpio_led_1.c:81-102 | as written, for every len: returns len; for a len over 10 the copy stores its bytes 10 to len-1 past the end of rec_buf, unless copy_from_user checks its destination's size, in which case nothing is copied; the pin ends high if and only if the copy happened, len > 0 and the first readable byte is '1', so later bytes, empty input and unreadable input never drive it high; ownership, direction and export unchanged |
| `GpioLed.Driver.WriteBounded` | GPIO/gpio_led_1/gpio_led_1.c:81-102 | write corrected to copy at most 10 bytes: returns len for every len, and the pin ends high if and only if len > 0 and the first readable byte is '1' |
| `GpioLed.Driver.UnwindFrom` | GPIO/gpio_led_1/gpio_led_1.c:132-139 | entering the teardown labels at the count-th registration and falling through gives back registrations count down to 1, in that order, and removes exactly those |
| `GpioLed.Driver.Init` | GPIO/gpio_led_1/gpio_led_1.c:104-142 | as written: with all four steps succeeding, returns 0 holding all four, acquired region, cdev, class, node; when step n+1 fails, returns -1 holding nothing, having torn down steps n+1 down to 1 in that order |
| `GpioLed.Driver.InitBalanced` | GPIO/gpio_led_1/gpio_led_1.c:104-142 | init corrected: on failure of step n+1 it tears down exactly steps n down to 1 |
| `GpioLed.Driver.Exit` | GPIO/gpio_led_1/gpio_led_1.c:144-151 | exit tears down node, class, cdev and region in that order and leaves nothing held |
| `GpioLedScenarios.OpenThenReadTwice` | GPIO/gpio_led_1/gpio_led_1.c:50-78 | a free valid pin opens with 0 and then reads 0, and two reads with no write between them give the same byte |
| `GpioLedScenarios.WriteRoundTrips` | GPIO/gpio_led_1/gpio_led_1.c:67-99 | writing "1" then "0" reads 0, and "0" then "1" reads 1 |
| `GpioLedScenarios.SessionScenario` | GPIO/gpio_led_1/gpio_led_1.c:38-101 | open, write "1", read 1, write "x" consuming 1 byte, read 0, empty write, close, and a new open succeeds |
| `GpioLedScenarios.LongWrite` | GPIO/gpio_led_1/gpio_led_1.c:81-102 | an 11-byte write starting with '1': as written, the 11th byte lands past rec_buf and the pin goes high; with a size-checking copy_from_user nothing is copied and the pin goes low; the bounded write drives it high and stores nothing past rec_buf |
| `GpioLedScenarios.ReleaseThenReopen` | GPIO/gpio_led_1/gpio_led_1.c:38-62 | after a release, the open as written succeeds again |
| `GpioLedScenarios.SecondOpenStealsPin` | GPIO/gpio_led_1/gpio_led_1.c:45-49 | as written, a second open fails but un-requests the pin the first session owns, and a third open then succeeds |
| `GpioLedScenarios.SecondOpenIsRefused` | GPIO/gpio_led_1/gpio_led_1.c:45-49 | corrected, second and third opens fail and the first session keeps the pin |
| `GpioLedScenarios.InvalidPinOpen` | GPIO/gpio_led_1/gpio_led_1.c:40-44 | on an invalid pin, the open as written fails and removes the loaded module's device node; the corrected one fails and keeps it |
| `GpioLedScenarios.ReadReportsNothing` | GPIO/gpio_led_1/gpio_led_1.c:71-78 | the read as written hands over one byte yet returns 0; the corrected read returns 1 |
| `GpioLedScenarios.LoadUnload` | GPIO/gpio_led_1/gpio_led_1.c:104-151 | a successful init holds all four registrations and exit leaves none |

## Left out

- Kernel logging (`pr_info`, `pr_err`): it has no effect on state.
- `cdev_init` (line 112): it only fills in the static cdev, so it is not a registration. `MAJOR`/`MINOR` and the value of `dev` are not modelled, only whether the region is held.
- Module macros and metadata, and the `fops` table: these are plumbing. The `inode`, `file`, `filp` and `off` parameters are never read by the handlers.
- The caller's `len` in read is not a parameter: the source overwrites it with 1 (line 71), so a read always stores one byte.
- Registration internals (`alloc_chrdev_region`, `cdev_add`, `class_create`, `device_create` and their teardown calls): only success or failure and the held flag are kept. A teardown call on something not held changes nothing in the model.
- GPIO subsystem internals and electrical behaviour: the `gpio_*` calls are abstract operations on the pin state. `gpio_set_value` sets the level whatever the direction. Error codes other than the sign are illustrative.
- User-memory faults: the caller's buffer is only a readable prefix or a writable room count.
- Concurrency: calls are sequential. Exclusivity rests on the `requested` check in `gpio_request`.
- `Gpio.Pin.Request`: the specific negative codes (-EINVAL, -EBUSY) are not taken from the source, which only tests for a negative result.
- `GpioLed.Driver.Open`: the pin is an output at level 0 only when the direction change succeeds (`dirOk`), and exported only when the export succeeds (`exportOk`). The source ignores both results (lines 50-51), so a successful open need not leave the pin an output or exported.
- `GpioLed.Driver.Write`: for a `len` over 10 the model reports the bytes the copy stores past `rec_buf`, but not what they overwrite in the stack frame (the return address, other locals) or what the kernel does next. Which of the two outcomes happens depends on the kernel's build: an unchecked copy overruns the frame, and a size-checking `copy_from_user` warns and copies nothing, which is the `sizeChecked` parameter.
- `Gpio.Pin.GetValue`: assumed to succeed and return the level. The source stores its int result in a `uint8_t` (line 69), so a negative error code from the controller would reach the caller as a byte other than 0 or 1; that path is not modelled.

## Findings

| source | as written | input that shows it | evidently intended | confidence | as-written member | corrected member |
|---|---|---|---|---|---|---|
| GPIO/gpio_led_1/gpio_led_1.c:45-49 | a failed `gpio_request` is followed by `gpio_free` | open the device twice without closing: the second open fails with the pin already requested, then frees it, and a third open succeeds while the first session is open | a failed request leaves the pin and its owner alone, so a second open cannot break exclusivity | high, not executed | `GpioLedScenarios.SecondOpenStealsPin` | `GpioLedScenarios.SecondOpenIsRefused` |
| GPIO/gpio_led_1/gpio_led_1.c:40-44 | an invalid pin makes open call `device_destroy` on the loaded module's node | load the module on a platform where GPIO 23 is invalid, then open the device | a failed open touches no registration; the node stays until exit | high, not executed | `Registration.DeviceNodeDestroyedTwice` | `GpioLed.Driver.OpenSafe` |
| GPIO/gpio_led_1/gpio_led_1.c:71-78 | read copies the level byte and returns 0 | any read of the device while the caller's buffer can take one byte | return the number of bytes delivered (1), or an error when the copy fails | medium, not executed | `GpioLedScenarios.ReadReportsNothing` | `GpioLed.Driver.ReadCounted` |
| GPIO/gpio_led_1/gpio_led_1.c:84-86 | `len` goes to `copy_from_user` unchecked against the 10-byte `rec_buf` | a write of 11 readable bytes: the 11th is stored past the end of `rec_buf` (or, with a size-checking `copy_from_user`, nothing is copied and a '1' command is lost) | copy at most `sizeof(rec_buf)` bytes; only the first is decoded anyway | high, not executed | `GpioLedScenarios.LongWrite` | `GpioLed.Driver.WriteBounded` |
| GPIO/gpio_led_1/gpio_led_1.c:104-142 | each failure jumps to the label of the step that failed, so the teardown starts with that step | `alloc_chrdev_region` fails: `unregister_chrdev_region` runs on a region never allocated | jump to the label of the last step that succeeded, tearing down only what was registered | high, not executed | `Registration.InitFailureAsWrittenUnbalanced` | `Registration.InitFailureBalanced` |
