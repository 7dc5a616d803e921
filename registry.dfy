/**
 * The device registry: the render endpoints enumerated at start-up and the
 * filter that decides which of them may still be given to a destination
 * (GetAvailableTargets in AudioDuplicator/MainWindow.xaml.cs).
 */
module Registry {
  import opened Wrappers

  /** An enumerated endpoint. The source compares endpoints by object
      identity, so an identifier is all the model keeps of one. */
  datatype Device = Device(id: nat)

  /** `xs` is `ys` with some elements deleted, the rest kept in order. */
  ghost predicate IsSubsequence<T>(xs: seq<T>, ys: seq<T>)
    decreases |ys|
  {
    if xs == [] then true
    else if ys == [] then false
    else (xs[0] == ys[0] && IsSubsequence(xs[1..], ys[1..])) || IsSubsequence(xs, ys[1..])
  }

  /** The devices, in enumeration order, that are neither the selected
      source nor in `used` (the devices the destinations have selected). */
  function Available(devices: seq<Device>, source: Option<Device>, used: seq<Device>): (r: seq<Device>)
    ensures IsSubsequence(r, devices)
    ensures forall d :: d in r <==> d in devices && Some(d) != source && d !in used
  {
    if devices == [] then []
    else
      var rest := Available(devices[1..], source, used);
      if Some(devices[0]) != source && devices[0] !in used then [devices[0]] + rest else rest
  }

  /** Every device that is neither the source nor used keeps as many
      occurrences as the enumeration has, every other device has none; so
      the result is determined even if the enumeration repeated a device. */
  lemma {:induction false} AvailableCounts(devices: seq<Device>, source: Option<Device>, used: seq<Device>)
    ensures forall d :: multiset(Available(devices, source, used))[d] ==
              if Some(d) != source && d !in used then multiset(devices)[d] else 0
  {
    if devices != [] {
      AvailableCounts(devices[1..], source, used);
      assert devices == [devices[0]] + devices[1..];
    }
  }

  /** Nothing is offered once every device is the source or in use. */
  lemma {:induction false} NoneAvailable(devices: seq<Device>, source: Option<Device>, used: seq<Device>)
    ensures Available(devices, source, used) == [] <==>
            forall d :: d in devices ==> Some(d) == source || d in used
  {
    if Available(devices, source, used) != [] {
      var d := Available(devices, source, used)[0];
      assert d in Available(devices, source, used);
    }
  }
}
