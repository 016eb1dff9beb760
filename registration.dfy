/** The character-device registrations the driver makes when the module is
    loaded, and the discipline for giving them back: every teardown call must
    give back the most recently acquired registration still held, so that a
    sequence of calls is read as pushes and pops on a stack. */
module Registration {

  datatype Option<T> = None | Some(value: T)

  /** The four registrations: a device number (alloc_chrdev_region), the cdev
      (cdev_add), the device class (class_create) and the device node
      (device_create). */
  datatype Resource = Region | CharDev | DevClass | DevNode

  /** One call into the registration API: an acquisition that succeeded, one
      the kernel refused, or a teardown call. */
  datatype Call = Acquire(r: Resource) | Refused(r: Resource) | Teardown(r: Resource)

  /** The order in which module init acquires the registrations. */
  const Order: seq<Resource> := [Region, CharDev, DevClass, DevNode]

  const AllResources: set<Resource> := {Region, CharDev, DevClass, DevNode}

  /** The four registrations are all there is. */
  lemma EveryResourceListed(r: Resource)
    ensures r in AllResources
  {
    match r
    case Region =>
    case CharDev =>
    case DevClass =>
    case DevNode =>
  }

  /** The successful acquisitions of `rs`, in order. */
  function Acquisitions(rs: seq<Resource>): (cs: seq<Call>)
    ensures |cs| == |rs|
    ensures forall i :: 0 <= i < |rs| ==> cs[i] == Acquire(rs[i])
  {
    if rs == [] then [] else [Acquire(rs[0])] + Acquisitions(rs[1..])
  }

  /** The teardown calls that give back `rs`, last acquired first. */
  function Unwinding(rs: seq<Resource>): (cs: seq<Call>)
    ensures |cs| == |rs|
    ensures forall i :: 0 <= i < |rs| ==> cs[i] == Teardown(rs[|rs| - 1 - i])
  {
    if rs == [] then [] else [Teardown(rs[|rs| - 1])] + Unwinding(rs[..|rs| - 1])
  }

  /** Runs `calls` against the stack of registrations held: an acquisition
      pushes, a refused acquisition leaves the stack alone, and a teardown call
      pops when it names the top of the stack. None means some teardown call
      gave back something that was not the latest registration held (or was
      not held at all). */
  function Replay(stack: seq<Resource>, calls: seq<Call>): Option<seq<Resource>>
    decreases |calls|
  {
    if calls == [] then Some(stack)
    else match calls[0]
      case Acquire(r) => Replay(stack + [r], calls[1..])
      case Refused(_) => Replay(stack, calls[1..])
      case Teardown(r) =>
        if stack != [] && stack[|stack| - 1] == r then Replay(stack[..|stack| - 1], calls[1..])
        else None
  }

  /** Continues a replay that has not failed yet. */
  function Continue(o: Option<seq<Resource>>, calls: seq<Call>): Option<seq<Resource>>
  {
    match o
    case None => None
    case Some(stack) => Replay(stack, calls)
  }

  /** Count of leading `true`s: the number of init steps that succeed before
      the first failure. */
  function LeadingSuccesses(ok: seq<bool>): (n: nat)
    ensures n <= |ok|
    ensures forall i :: 0 <= i < n ==> ok[i]
    ensures n < |ok| ==> !ok[n]
  {
    if ok == [] || !ok[0] then 0 else 1 + LeadingSuccesses(ok[1..])
  }

  /** Replaying two call sequences one after the other is replaying their
      concatenation. */
  lemma {:induction false} ReplayAppend(stack: seq<Resource>, a: seq<Call>, b: seq<Call>)
    ensures Replay(stack, a + b) == Continue(Replay(stack, a), b)
    decreases |a|
  {
    if a == [] {
      assert a + b == b;
    } else {
      assert (a + b)[0] == a[0];
      assert (a + b)[1..] == a[1..] + b;
      match a[0]
      case Acquire(r) => ReplayAppend(stack + [r], a[1..], b);
      case Refused(_) => ReplayAppend(stack, a[1..], b);
      case Teardown(r) =>
        if stack != [] && stack[|stack| - 1] == r {
          ReplayAppend(stack[..|stack| - 1], a[1..], b);
        }
    }
  }

  /** Acquiring `rs` pushes them in order. */
  lemma {:induction false} AcquisitionsPush(stack: seq<Resource>, rs: seq<Resource>)
    ensures Replay(stack, Acquisitions(rs)) == Some(stack + rs)
    decreases |rs|
  {
    if rs == [] {
      assert stack + rs == stack;
    } else {
      assert Acquisitions(rs)[1..] == Acquisitions(rs[1..]);
      AcquisitionsPush(stack + [rs[0]], rs[1..]);
      assert stack + [rs[0]] + rs[1..] == stack + rs;
    }
  }

  /** Unwinding `rs` from a stack whose top is `rs` pops exactly them. */
  lemma {:induction false} UnwindingPops(stack: seq<Resource>, rs: seq<Resource>)
    ensures Replay(stack + rs, Unwinding(rs)) == Some(stack)
    decreases |rs|
  {
    if rs == [] {
      assert stack + rs == stack;
    } else {
      var init := rs[..|rs| - 1];
      assert Unwinding(rs)[1..] == Unwinding(init);
      assert (stack + rs)[..|stack + rs| - 1] == stack + init;
      UnwindingPops(stack, init);
    }
  }

  /** Acquiring `rs` and then unwinding them gives back exactly the stack one
      started from: nested acquisition with reverse-order teardown is balanced. */
  lemma NestedIsBalanced(stack: seq<Resource>, rs: seq<Resource>)
    ensures Replay(stack, Acquisitions(rs) + Unwinding(rs)) == Some(stack)
  {
    ReplayAppend(stack, Acquisitions(rs), Unwinding(rs));
    AcquisitionsPush(stack, rs);
    UnwindingPops(stack, rs);
  }

  /** A module that loads completely and is then unloaded gives back every
      registration, in reverse order, and leaves nothing held. */
  lemma LoadUnloadBalanced()
    ensures Replay([], Acquisitions(Order) + Unwinding(Order)) == Some([])
  {
    NestedIsBalanced([], Order);
  }

  /** Init as written: after `n` successful steps the step n+1 is refused and
      the teardown starts at that step's own label, so the first teardown
      call gives back a registration that was never made. */
  lemma InitFailureAsWrittenUnbalanced(n: nat)
    requires n < |Order|
    ensures Replay([], Acquisitions(Order[..n]) + [Refused(Order[n])] + Unwinding(Order[..n + 1])) == None
  {
    var done := Acquisitions(Order[..n]) + [Refused(Order[n])];
    ReplayAppend([], done, Unwinding(Order[..n + 1]));
    ReplayAppend([], Acquisitions(Order[..n]), [Refused(Order[n])]);
    AcquisitionsPush([], Order[..n]);
    assert [] + Order[..n] == Order[..n];
    assert Replay(Order[..n], [Refused(Order[n])]) == Some(Order[..n]);
    var u := Unwinding(Order[..n + 1]);
    assert u != [] && u[0] == Teardown(Order[n]);
    assert n > 0 ==> Order[..n][n - 1] != Order[n];
    assert Replay(Order[..n], u) == None;
  }

  /** Init with the teardown labels shifted by one: after `n` successful steps
      and a refused step n+1, exactly the `n` registrations made are given back,
      last first, and nothing is left held. */
  lemma InitFailureBalanced(n: nat)
    requires n < |Order|
    ensures Replay([], Acquisitions(Order[..n]) + [Refused(Order[n])] + Unwinding(Order[..n])) == Some([])
  {
    var done := Acquisitions(Order[..n]) + [Refused(Order[n])];
    ReplayAppend([], done, Unwinding(Order[..n]));
    ReplayAppend([], Acquisitions(Order[..n]), [Refused(Order[n])]);
    AcquisitionsPush([], Order[..n]);
    assert Replay(Order[..n], [Refused(Order[n])]) == Some(Order[..n]);
    UnwindingPops([], Order[..n]);
    assert [] + Order[..n] == Order[..n];
  }

  /** Opening the device on an invalid pin destroys the device node while the
      module stays loaded; the unload that follows destroys it again, which is
      not a balanced unwinding. */
  lemma DeviceNodeDestroyedTwice()
    ensures Replay([], Acquisitions(Order) + [Teardown(DevNode)] + Unwinding(Order)) == None
  {
    var prefix := Acquisitions(Order) + [Teardown(DevNode)];
    ReplayAppend([], prefix, Unwinding(Order));
    ReplayAppend([], Acquisitions(Order), [Teardown(DevNode)]);
    AcquisitionsPush([], Order);
    assert [] + Order == Order;
    assert [Teardown(DevNode)][1..] == [];
    assert Replay(Order, [Teardown(DevNode)]) == Replay(Order[..3], []);
    var u := Unwinding(Order);
    assert u != [] && u[0] == Teardown(DevNode);
    assert Replay(Order[..3], u) == None;
  }
}
