/**
 * A first-in first-out queue of devices bound to one workflow stage. Adding
 * a device stamps it with the queue's stage.
 */
module Queues {
  import opened Strings
  import opened Devices

  class DeviceQueue {
    /** The linked list behind the queue, head first. */
    var items: seq<Device>
    /** The stage this queue holds; fixed when the queue is created. */
    const workflowState: DeviceState

    constructor (workflowState: DeviceState)
      ensures items == [] && this.workflowState == workflowState
    {
      items := [];
      this.workflowState := workflowState;
    }

    /** Moves `device` into this queue's stage and appends it at the tail. */
    method AddDevice(device: Device)
      modifies this`items, device`currentState
      ensures device.currentState == workflowState
      ensures items == old(items) + [device]
      ensures Size() == old(Size()) + 1
    {
      device.SetCurrentState(workflowState);
      items := items + [device];
    }

    /** Takes the head off the queue; on an empty queue returns nothing and changes nothing. */
    method RemoveDevice() returns (head: Option<Device>)
      modifies this`items
      ensures old(items) == [] ==> head == None && items == []
      ensures old(items) != [] ==> head == Some(old(items)[0]) && items == old(items)[1..]
      ensures old(items) != [] ==> Size() == old(Size()) - 1
    {
      if items == [] {
        head := None;
      } else {
        head := Some(items[0]);
        items := items[1..];
      }
    }

    /** The head without removing it, or nothing on an empty queue. */
    function ViewNext(): (head: Option<Device>)
      reads this
      ensures head.None? <==> IsEmpty()
      ensures head.Some? ==> head.value == items[0]
    {
      if items == [] then None else Some(items[0])
    }

    function IsEmpty(): (b: bool)
      reads this
      ensures b <==> Size() == 0
    {
      items == []
    }

    /** `size()`: how many devices wait, zero exactly when none does. */
    function Size(): (n: nat)
      reads this
      ensures n == 0 <==> items == []
    {
      |items|
    }
  }

  /**
   * The queue is first-in first-out: of two devices added one after the
   * other to an empty queue of stage `s`, the first added is the first removed,
   * and both now carry stage `s`.
   */
  method FirstInFirstOut(s: DeviceState, a: Device, b: Device) returns (first: Option<Device>, second: Option<Device>)
    modifies a, b
    ensures first == Some(a) && second == Some(b)
    ensures a.currentState == s && b.currentState == s
  {
    var q := new DeviceQueue(s);
    q.AddDevice(a);
    q.AddDevice(b);
    first := q.RemoveDevice();
    second := q.RemoveDevice();
  }
}
