/** The gpio_led character-device driver: it exposes GPIO 23 as a device file.
    Opening the file claims the pin and makes it an output at level 0, reading
    reports the level as one byte, writing "1" drives it high and anything else
    drives it low, and closing gives the pin back. Loading the module registers
    a device number, a cdev, a device class and a device node, in that order.

    The driver's globals (`dev`, `gpio_led_cdev`, `gpio_dev_class` and the node
    created in that class) are the `held` registrations of class Driver; every
    registration call is also recorded in the ghost log `calls`, which the
    lemmas of module Registration read as a stack discipline.

    Each operation is modelled as the source writes it. Where the source
    deviates from what it evidently intends, a second method (OpenSafe,
    ReadCounted, WriteBounded, InitBalanced) models the corrected code. */
module GpioLed {
  import opened Gpio
  import opened Registration

  /** GPIO_pin */
  const GpioPin: int := 23
  /** The size of the write handler's rec_buf. */
  const RecBufSize: nat := 10
  /** ASCII '1' and '0', the two commands a write understands. */
  const Ascii1: byte := 0x31
  const Ascii0: byte := 0x30
  const EFAULT: int := 14

  /** What the first byte of a write asks for. */
  datatype Command = SetHigh | SetLow | Unknown(raw: byte)

  /** Decodes the first received byte: '1' and '0' are commands, every other
      byte is unknown. */
  function Decode(b: byte): (c: Command)
    ensures c == SetHigh <==> b == Ascii1
    ensures c == SetLow <==> b == Ascii0
    ensures c.Unknown? <==> b != Ascii1 && b != Ascii0
    ensures c.Unknown? ==> c.raw == b
  {
    if b == Ascii1 then SetHigh
    else if b == Ascii0 then SetLow
    else Unknown(b)
  }

  /** The level a write leaves the pin at: high only for '1', and low for '0'
      and for every unknown byte alike (the fail-safe default). */
  function CommandLevel(c: Command): Level
  {
    match c
    case SetHigh => 1
    case SetLow => 0
    case Unknown(_) => 0
  }

  /** Only the byte '1' drives the pin high. */
  lemma OnlyOneDrivesHigh(b: byte)
    ensures CommandLevel(Decode(b)) == 1 <==> b == Ascii1
  {
  }

  function Min(a: nat, b: nat): nat
  {
    if a <= b then a else b
  }

  /** copy_from_user(dst, src, len), where `src` is the part of the caller's
      buffer that can be read. It copies the first min(len, |src|) bytes,
      zero-fills the rest of the `len` bytes it could not copy, and returns how
      many bytes it could not copy. Destination bytes from `len` on are kept. */
  method CopyFromUser(dst: array<byte>, src: seq<byte>, len: nat) returns (notCopied: nat)
    requires len <= dst.Length
    modifies dst
    ensures notCopied == len - Min(len, |src|)
    ensures dst[..len] == Stored(src, len)
    ensures dst[len..] == old(dst[len..])
  {
    var copied := Min(len, |src|);
    var i := 0;
    while i < copied
      invariant 0 <= i <= copied
      invariant forall k :: 0 <= k < i ==> dst[k] == src[k]
      invariant forall k :: i <= k < dst.Length ==> dst[k] == old(dst[k])
    {
      dst[i] := src[i];
      i := i + 1;
    }
    while i < len
      invariant copied <= i <= len
      invariant forall k :: 0 <= k < copied ==> dst[k] == src[k]
      invariant forall k :: copied <= k < i ==> dst[k] == 0
      invariant forall k :: i <= k < dst.Length ==> dst[k] == old(dst[k])
    {
      dst[i] := 0;
      i := i + 1;
    }
    notCopied := len - copied;
    assert dst[..len] == Stored(src, len);
  }

  /** copy_to_user(buf, src, |src|), where `room` is how many bytes of the
      caller's buffer can be written: the bytes delivered, and how many were not. */
  function CopyToUser(src: seq<byte>, room: nat): (r: (seq<byte>, nat))
    ensures r.0 == src[..Min(|src|, room)]
    ensures r.1 == |src| - |r.0|
  {
    var n := Min(|src|, room);
    (src[..n], |src| - n)
  }

  /** The bytes copy_from_user(dst, src, len) stores at dst[0..len): the ones
      it could read from `src`, then zeros for the ones it could not. */
  function Stored(src: seq<byte>, len: nat): (s: seq<byte>)
    ensures |s| == len
    ensures forall i :: 0 <= i < len ==> s[i] == if i < |src| then src[i] else 0
  {
    if len == 0 then []
    else Stored(src, len - 1) + [if len - 1 < |src| then src[len - 1] else 0]
  }

  class Driver {
    /** The controller's view of GPIO_pin. */
    const pin: Pin
    /** The registrations the kernel holds for the module. */
    var held: set<Resource>
    /** Every registration and teardown call made, in order. */
    ghost var calls: seq<Call>

    /** The module before it is loaded: `dev` is 0 and nothing is registered. */
    constructor (pin: Pin)
      requires pin.id == GpioPin
      ensures this.pin == pin && held == {} && calls == []
    {
      this.pin := pin;
      held := {};
      calls := [];
    }

    /** alloc_chrdev_region, cdev_add, class_create or device_create, which
        succeeds when `success` holds. */
    method Register(r: Resource, success: bool)
      modifies this
      ensures held == if success then old(held) + {r} else old(held)
      ensures calls == old(calls) + [if success then Acquire(r) else Refused(r)]
    {
      if success {
        held := held + {r};
        calls := calls + [Acquire(r)];
      } else {
        calls := calls + [Refused(r)];
      }
    }

    /** unregister_chrdev_region, cdev_del, class_destroy or device_destroy.
        Called on something not registered, it leaves the registrations alone
        but still counts as a teardown call. */
    method Unregister(r: Resource)
      modifies this
      ensures held == old(held) - {r}
      ensures calls == old(calls) + [Teardown(r)]
    {
      held := held - {r};
      calls := calls + [Teardown(r)];
    }

    /** gpio_led_open, as written. An invalid pin fails with -1 and, on the
        way, destroys the device node; a denied request fails with -1 and
        frees the pin even when somebody else owns it; otherwise the pin is
        claimed, made an output at level 0 and exported. The results of the
        direction change and of the export are ignored, so the open succeeds
        whether or not either happened (`dirOk`, `exportOk`). */
    method Open(granted: bool, dirOk: bool, exportOk: bool) returns (rc: int)
      modifies this, pin
      ensures !pin.valid ==> rc == -1 && unchanged(pin)
      ensures !pin.valid ==> held == old(held) - {DevNode} && calls == old(calls) + [Teardown(DevNode)]
      ensures pin.valid ==> held == old(held) && calls == old(calls)
      ensures pin.valid && (old(pin.requested) || !granted) ==>
        (rc == -1 && !pin.requested && !pin.exported &&
         pin.isOutput == old(pin.isOutput) && pin.level == old(pin.level))
      ensures pin.valid && !old(pin.requested) && granted ==>
        (rc == 0 && pin.requested &&
         (if dirOk then pin.isOutput && pin.level == 0
          else pin.isOutput == old(pin.isOutput) && pin.level == old(pin.level)) &&
         pin.exported == (old(pin.exported) || exportOk))
    {
      var isValid := pin.IsValid();
      if !isValid {
        Unregister(DevNode);
        return -1;
      }
      var r := pin.Request(granted);
      if r < 0 {
        pin.Free();
        return -1;
      }
      var dirRc := pin.DirectionOutput(0, dirOk);
      var exportRc := pin.Export(exportOk);
      return 0;
    }

    /** gpio_led_open without its two stray teardown calls: a failed open
        leaves the registrations and the pin exactly as it found them, so a
        second open cannot take the pin away from the session that owns it. */
    method OpenSafe(granted: bool, dirOk: bool, exportOk: bool) returns (rc: int)
      modifies pin
      ensures rc == 0 <==> pin.valid && !old(pin.requested) && granted
      ensures rc != 0 ==> rc == -1 && unchanged(pin)
      ensures rc == 0 ==>
        (pin.requested &&
         (if dirOk then pin.isOutput && pin.level == 0
          else pin.isOutput == old(pin.isOutput) && pin.level == old(pin.level)) &&
         pin.exported == (old(pin.exported) || exportOk))
    {
      var isValid := pin.IsValid();
      if !isValid {
        return -1;
      }
      var r := pin.Request(granted);
      if r < 0 {
        return -1;
      }
      var dirRc := pin.DirectionOutput(0, dirOk);
      var exportRc := pin.Export(exportOk);
      return 0;
    }

    /** gpio_led_release: unexports and frees the pin, and always succeeds. */
    method Release() returns (rc: int)
      modifies pin
      ensures rc == 0
      ensures !pin.requested && !pin.exported
      ensures pin.isOutput == old(pin.isOutput) && pin.level == old(pin.level)
    {
      pin.Unexport();
      pin.Free();
      return 0;
    }

    /** gpio_led_read, as written: `room` is how many bytes of the caller's
        buffer can be written. One byte holding the level (0 or 1) is copied
        whatever length the caller asked for, nothing changes, and the result
        is 0 whether or not the byte got through. */
    method Read(room: nat) returns (rc: int, delivered: seq<byte>)
      ensures delivered == if room >= 1 then [pin.level as byte] else []
      ensures rc == 0
    {
      var state := pin.GetValue();
      var result := CopyToUser([state as byte], room);
      delivered := result.0;
      return 0, delivered;
    }

    /** gpio_led_read returning what it delivered: 1 when the level byte got
        through, -EFAULT when the caller's buffer could not take it. */
    method ReadCounted(room: nat) returns (rc: int, delivered: seq<byte>)
      ensures delivered == if room >= 1 then [pin.level as byte] else []
      ensures rc == if room >= 1 then 1 else -EFAULT
      ensures rc > 0 ==> rc == |delivered|
    {
      var state := pin.GetValue();
      var result := CopyToUser([state as byte], room);
      delivered := result.0;
      if result.1 > 0 {
        return -EFAULT, delivered;
      }
      return |delivered|, delivered;
    }

    /** gpio_led_write, as written: `user` is the readable part of the
        caller's buffer and `len` the count passed in, which is never checked
        against the 10-byte rec_buf. The copy goes into `frame`, whose first
        RecBufSize cells are the zeroed rec_buf and whose further cells are the
        stack bytes after it; `overrun` is what the copy writes there. Where
        copy_from_user checks its destination's size (`sizeChecked`), a copy
        longer than rec_buf is refused and nothing is stored. Only rec_buf[0] is
        decoded, and the result is always `len`: the pin ends high exactly when
        the copy happened and the first byte received is '1'; an empty write or
        one whose bytes cannot be read leaves rec_buf[0] == 0 and so drives the
        pin low. */
    method Write(user: seq<byte>, len: nat, sizeChecked: bool) returns (rc: int, overrun: seq<byte>)
      modifies pin
      ensures rc == len
      ensures pin.level == 1 <==>
        (len <= RecBufSize || !sizeChecked) && 0 < len && 0 < |user| && user[0] == Ascii1
      ensures overrun == if RecBufSize < len && !sizeChecked then Stored(user, len)[RecBufSize..] else []
      ensures RecBufSize < len && !sizeChecked ==> |overrun| == len - RecBufSize
      ensures pin.requested == old(pin.requested) && pin.isOutput == old(pin.isOutput)
      ensures pin.exported == old(pin.exported)
    {
      var frame := new byte[if len <= RecBufSize then RecBufSize else len](_ => 0);
      if len <= RecBufSize || !sizeChecked {
        var notCopied := CopyFromUser(frame, user, len);
        if 0 < len {
          assert frame[0] == frame[..len][0];
        }
      }
      pin.SetValue(CommandLevel(Decode(frame[0])));
      if RecBufSize < len && !sizeChecked {
        assert frame[RecBufSize..len] == frame[..len][RecBufSize..];
        overrun := frame[RecBufSize..len];
      } else {
        overrun := [];
      }
      return len, overrun;
    }

    /** gpio_led_write copying at most sizeof(rec_buf) bytes: any length is
        accepted, nothing is stored past rec_buf, and the pin ends as in Write
        when the copy is not refused. */
    method WriteBounded(user: seq<byte>, len: nat) returns (rc: int)
      modifies pin
      ensures rc == len
      ensures pin.level == 1 <==> 0 < len && 0 < |user| && user[0] == Ascii1
      ensures pin.requested == old(pin.requested) && pin.isOutput == old(pin.isOutput)
      ensures pin.exported == old(pin.exported)
    {
      var recBuf := new byte[RecBufSize](_ => 0);
      var notCopied := CopyFromUser(recBuf, user, Min(len, RecBufSize));
      if 0 < len {
        assert recBuf[0] == recBuf[..Min(len, RecBufSize)][0];
      }
      pin.SetValue(CommandLevel(Decode(recBuf[0])));
      return len;
    }

    /** The teardown labels at the end of gpio_led_driver_init, entered at the
        label of the count-th registration (4 r_device, 3 r_class, 2 r_del,
        1 r_unreg) and falling through every label below it; 0 runs none. */
    method UnwindFrom(count: nat)
      requires count <= |Order|
      modifies this
      ensures forall r :: r in held <==> r in old(held) && r !in Order[..count]
      ensures calls == old(calls) + Unwinding(Order[..count])
    {
      if count >= 4 { Unregister(DevNode); }
      if count >= 3 { Unregister(DevClass); }
      if count >= 2 { Unregister(CharDev); }
      if count >= 1 { Unregister(Region); }
      assert count == 0 ==> Order[..count] == [];
      assert count == 1 ==> Order[..count] == [Region];
      assert count == 2 ==> Order[..count] == [Region, CharDev];
      assert count == 3 ==> Order[..count] == [Region, CharDev, DevClass];
      assert count == 4 ==> Order[..count] == [Region, CharDev, DevClass, DevNode];
    }

    /** gpio_led_driver_init, as written: region, cdev, class and device node
        are registered in that order (cdev_init only fills in a struct). On
        success it returns 0 holding all four. When step n+1 fails it jumps to
        that step's own label and falls through the labels below it, so it
        tears down the step that failed and then the n before it, ending with
        unregister_chrdev_region, and returns -1 holding nothing. */
    method Init(regionOk: bool, cdevOk: bool, classOk: bool, deviceOk: bool) returns (rc: int)
      requires held == {}
      modifies this
      ensures var n := LeadingSuccesses([regionOk, cdevOk, classOk, deviceOk]);
        if n == |Order| then
          rc == 0 && held == AllResources && calls == old(calls) + Acquisitions(Order)
        else
          rc == -1 && held == {} &&
          calls == old(calls) + Acquisitions(Order[..n]) + [Refused(Order[n])] + Unwinding(Order[..n + 1])
    {
      ghost var ok := [regionOk, cdevOk, classOk, deviceOk];
      assert ok[0] == regionOk && ok[1] == cdevOk && ok[2] == classOk && ok[3] == deviceOk;
      // The goto target: 1 r_unreg, 2 r_del, 3 r_class, 4 r_device.
      var target := 0;
      Register(Region, regionOk);
      if !regionOk {
        target := 1;
      } else {
        Register(CharDev, cdevOk);
        if !cdevOk {
          target := 2;
        } else {
          Register(DevClass, classOk);
          if !classOk {
            target := 3;
          } else {
            Register(DevNode, deviceOk);
            if !deviceOk {
              target := 4;
            } else {
              return 0;
            }
          }
        }
      }
      UnwindFrom(target);
      return -1;
    }

    /** gpio_led_driver_init with each failure jumping to the label of the
        last step that succeeded: it tears down exactly the n registrations
        it made, last first. */
    method InitBalanced(regionOk: bool, cdevOk: bool, classOk: bool, deviceOk: bool) returns (rc: int)
      requires held == {}
      modifies this
      ensures var n := LeadingSuccesses([regionOk, cdevOk, classOk, deviceOk]);
        if n == |Order| then
          rc == 0 && held == AllResources && calls == old(calls) + Acquisitions(Order)
        else
          rc == -1 && held == {} &&
          calls == old(calls) + Acquisitions(Order[..n]) + [Refused(Order[n])] + Unwinding(Order[..n])
    {
      ghost var ok := [regionOk, cdevOk, classOk, deviceOk];
      assert ok[0] == regionOk && ok[1] == cdevOk && ok[2] == classOk && ok[3] == deviceOk;
      // The number of registrations to give back.
      var target := 0;
      Register(Region, regionOk);
      if regionOk {
        Register(CharDev, cdevOk);
        if !cdevOk {
          target := 1;
        } else {
          Register(DevClass, classOk);
          if !classOk {
            target := 2;
          } else {
            Register(DevNode, deviceOk);
            if !deviceOk {
              target := 3;
            } else {
              return 0;
            }
          }
        }
      }
      UnwindFrom(target);
      return -1;
    }

    /** gpio_led_driver_exit: destroys the device node and the class, deletes
        the cdev and gives back the device number, in that order. */
    method Exit()
      modifies this
      ensures held == {}
      ensures calls == old(calls) + Unwinding(Order)
    {
      forall r | r in held ensures r in AllResources {
        EveryResourceListed(r);
      }
      Unregister(DevNode);
      Unregister(DevClass);
      Unregister(CharDev);
      Unregister(Region);
    }
  }
}
