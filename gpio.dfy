/** The GPIO controller as the driver sees it, reduced to the state of one pin:
    whether the pin number is valid, whether it is requested (owned), its
    direction, its logical level and whether it is exported to sysfs.
    The kernel primitives gpio_is_valid, gpio_request, gpio_direction_output,
    gpio_export, gpio_unexport, gpio_free, gpio_get_value and gpio_set_value
    are methods on this state; outcomes the controller decides on its own
    (whether a request on a free pin is granted, whether the sysfs export
    succeeds) are parameters. */
module Gpio {

  /** An unsigned 8-bit value, the C type uint8_t / char of the driver's buffers. */
  newtype byte = x: int | 0 <= x < 256

  /** A logical pin level as gpio_get_value reports it. */
  type Level = x: int | 0 <= x <= 1

  const EINVAL: int := 22
  const EBUSY: int := 16
  const EPERM: int := 1

  /** The level a value passed to gpio_set_value or gpio_direction_output selects:
      any non-zero value drives the pin high. */
  function LevelOf(value: int): (l: Level)
    ensures l == 1 <==> value != 0
  {
    if value != 0 then 1 else 0
  }

  class Pin {
    /** The pin number. */
    const id: int
    /** What gpio_is_valid(id) answers; fixed by the platform. */
    const valid: bool

    var requested: bool
    var isOutput: bool
    var level: Level
    var exported: bool

    /** A pin nobody owns, configured as input, low, not exported. */
    constructor (id: int, valid: bool)
      ensures this.id == id && this.valid == valid
      ensures !requested && !isOutput && level == 0 && !exported
    {
      this.id := id;
      this.valid := valid;
      requested := false;
      isOutput := false;
      level := 0;
      exported := false;
    }

    /** gpio_is_valid */
    method IsValid() returns (b: bool)
      ensures b == valid
    {
      b := valid;
    }

    /** gpio_request: claims exclusive ownership. It fails for an invalid pin,
        for a pin that is already requested, and when the controller refuses
        (granted == false); a failed request changes nothing. */
    method Request(granted: bool) returns (rc: int)
      modifies this
      ensures rc <= 0
      ensures rc == 0 <==> valid && !old(requested) && granted
      ensures rc == 0 ==> requested
      ensures rc < 0 ==> unchanged(this)
      ensures isOutput == old(isOutput) && level == old(level) && exported == old(exported)
    {
      if !valid {
        rc := -EINVAL;
      } else if requested || !granted {
        rc := -EBUSY;
      } else {
        requested := true;
        rc := 0;
      }
    }

    /** gpio_direction_output: makes the pin an output driving `value`; `ok`
        says whether the controller accepts the change. A refused change
        returns a negative code and leaves the pin as it was. */
    method DirectionOutput(value: int, ok: bool) returns (rc: int)
      modifies this
      ensures rc <= 0
      ensures rc == 0 <==> ok
      ensures rc == 0 ==> isOutput && level == LevelOf(value)
      ensures rc < 0 ==> unchanged(this)
      ensures requested == old(requested) && exported == old(exported)
    {
      if ok {
        isOutput := true;
        level := LevelOf(value);
        rc := 0;
      } else {
        rc := -EPERM;
      }
    }

    /** gpio_export: makes a requested pin visible in sysfs; `ok` says whether
        the sysfs side succeeds. */
    method Export(ok: bool) returns (rc: int)
      modifies this
      ensures rc <= 0
      ensures rc == 0 <==> requested && ok
      ensures exported == (old(exported) || rc == 0)
      ensures requested == old(requested) && isOutput == old(isOutput) && level == old(level)
    {
      if requested && ok {
        exported := true;
        rc := 0;
      } else {
        rc := -EPERM;
      }
    }

    /** gpio_unexport */
    method Unexport()
      modifies this
      ensures !exported
      ensures requested == old(requested) && isOutput == old(isOutput) && level == old(level)
    {
      exported := false;
    }

    /** gpio_free: gives up ownership, whoever held it. Freeing a pin also
        takes it out of sysfs, as gpiolib unexports a descriptor it frees. */
    method Free()
      modifies this
      ensures !requested && !exported
      ensures isOutput == old(isOutput) && level == old(level)
    {
      requested := false;
      exported := false;
    }

    /** gpio_get_value */
    method GetValue() returns (v: Level)
      ensures v == level
    {
      v := level;
    }

    /** gpio_set_value */
    method SetValue(value: int)
      modifies this
      ensures level == LevelOf(value)
      ensures requested == old(requested) && isOutput == old(isOutput) && exported == old(exported)
    {
      level := LevelOf(value);
    }
  }
}
