/**
 * The cyclic device rotation shared by both RotateButton revisions and the
 * Scanner component's `toggleDevice`: find the current device, take the
 * next one, wrap after the last, and fall back to the first when the
 * current id is not in the list.
 */
module Rotation {
  import opened Wrappers
  import opened Media

  /** `devices.findIndex(d => d.deviceId === id)` */
  function FindIndex(devices: seq<Device>, id: string): (i: int)
    ensures -1 <= i < |devices|
    ensures i == -1 <==> forall k :: 0 <= k < |devices| ==> devices[k].deviceId != id
    ensures i >= 0 ==> devices[i].deviceId == id && forall k :: 0 <= k < i ==> devices[k].deviceId != id
    decreases |devices|
  {
    if devices == [] then -1
    else if devices[0].deviceId == id then 0
    else
      var j := FindIndex(devices[1..], id);
      if j == -1 then -1 else j + 1
  }

  /** `index + 1 >= length ? 0 : index + 1` */
  function NextIndex(index: int, length: nat): (n: int)
    requires length > 0 && -1 <= index < length
    ensures 0 <= n < length
    ensures index == length - 1 ==> n == 0
    ensures n == (index + 1) % length
  {
    if index + 1 >= length then 0 else index + 1
  }

  /** The id of the device a rotation selects: `devices[nextIndex].deviceId`. */
  function NextDeviceId(devices: seq<Device>, current: string): (id: string)
    requires |devices| > 0
    ensures exists k :: 0 <= k < |devices| && devices[k].deviceId == id
  {
    var next := NextIndex(FindIndex(devices, current), |devices|);
    devices[next].deviceId
  }

  /** Rotating from the device at `i` selects the device at `(i + 1) mod n`; an unknown id selects the first device. */
  lemma NextDeviceIdSelects(devices: seq<Device>, current: string, i: int)
    requires |devices| > 0
    requires FindIndex(devices, current) == i
    ensures i >= 0 ==> NextDeviceId(devices, current) == devices[(i + 1) % |devices|].deviceId
    ensures i == -1 ==> NextDeviceId(devices, current) == devices[0].deviceId
  {
  }

  /** Three devices, the current one at index 1: the next is index 2; from index 2 it wraps to 0. */
  lemma ThreeDeviceRotation(a: Device, b: Device, c: Device)
    requires a.deviceId != b.deviceId && b.deviceId != c.deviceId && a.deviceId != c.deviceId
    ensures NextDeviceId([a, b, c], b.deviceId) == c.deviceId
    ensures NextDeviceId([a, b, c], c.deviceId) == a.deviceId
  {
    assert FindIndex([a, b, c], b.deviceId) == 1 by {
      assert FindIndex([b, c], b.deviceId) == 0;
    }
    assert FindIndex([a, b, c], c.deviceId) == 2 by {
      assert [a, b, c][1..] == [b, c];
      assert [b, c][1..] == [c];
      assert FindIndex([c], c.deviceId) == 0;
    }
  }

  /** The index reached after `k` rotations from a found index `i`. */
  function Rotations(i: nat, k: nat, length: nat): (n: nat)
    requires i < length
    ensures n < length
    decreases k
  {
    if k == 0 then i else NextIndex(Rotations(i, k - 1, length), length)
  }

  /** `k` rotations move `k` places cyclically, so `length` rotations come back and every device is visited. */
  lemma {:induction false} RotationsAreCyclic(i: nat, k: nat, length: nat)
    requires i < length
    ensures Rotations(i, k, length) == (i + k) % length
    decreases k
  {
    if k > 0 {
      RotationsAreCyclic(i, k - 1, length);
      var p := (i + k - 1) % length;
      assert Rotations(i, k, length) == (p + 1) % length;
      ModSucc(i + k - 1, length);
    }
  }

  /** `((x mod n) + 1) mod n == (x + 1) mod n` */
  lemma ModSucc(x: nat, n: nat)
    requires n > 0
    ensures ((x % n) + 1) % n == (x + 1) % n
  {
    var q, r := x / n, x % n;
    assert x == q * n + r;
    if r + 1 < n {
      ModUnique(x + 1, n, q, r + 1);
    } else {
      ModUnique(x + 1, n, q + 1, 0);
    }
  }

  /** Euclidean remainders are unique. */
  lemma ModUnique(a: int, n: int, q: int, r: int)
    requires n > 0 && 0 <= r < n && a == q * n + r
    ensures a % n == r
  {
    var q0, r0 := a / n, a % n;
    assert a == q0 * n + r0;
    assert (q - q0) * n == r0 - r;
    if q - q0 >= 1 {
      assert false;
    } else if q - q0 <= -1 {
      assert false;
    }
  }
}
