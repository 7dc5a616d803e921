/**
 * One destination channel: the state a TargetControl of
 * AudioDuplicator/MainWindow.xaml.cs keeps about its device, its volume and
 * its audio path, as a value, and the per-destination steps of the handlers.
 * The WPF widgets of a TargetControl are not modelled, except the combo box,
 * whose selection and item list are `device` and `options`.
 */
module Channel {
  import opened Wrappers
  import opened Registry
  import Volume

  newtype byte = x: int | 0 <= x < 256

  datatype Slot = Slot(
    device: Option<Device>,     // DeviceComboBox.SelectedItem
    options: seq<Device>,       // DeviceComboBox.ItemsSource
    volume: int,                // Volume
    buffer: Option<seq<byte>>,  // Buffer: the bytes handed to the BufferedWaveProvider
    gain: Option<int>,          // VolumeProvider, by the volume it applies
    output: bool)               // Output is a live WasapiOut

  /** The volume stays inside the range ChangeVolume clamps to. */
  predicate VolumeOk(s: Slot)
  {
    0 <= s.volume <= Volume.MAX_VOLUME
  }

  /** Buffer, volume provider and output exist together, and the provider
      applies the destination's current volume. */
  predicate HandlesOk(s: Slot)
  {
    (s.buffer.Some? <==> s.output) && (s.gain.Some? <==> s.output) &&
    (s.gain.Some? ==> s.gain.value == s.volume)
  }

  predicate SlotOk(s: Slot)
  {
    VolumeOk(s) && HandlesOk(s)
  }

  /** The selected device as a list of zero or one elements. */
  function Current(s: Slot): (r: seq<Device>)
    ensures forall d :: d in r <==> s.device == Some(d)
  {
    if s.device.Some? then [s.device.value] else []
  }

  /** The combo box of a destination refilled: the available devices,
      followed by its own selection so that it stays selectable. */
  function Offer(s: Slot, available: seq<Device>): (r: Slot)
    ensures r.device == s.device && r.volume == s.volume
    ensures r.buffer == s.buffer && r.gain == s.gain && r.output == s.output
  {
    s.(options := available + Current(s))
  }

  /** A refilled combo box lists the available devices in their order, then
      the selection and nothing more; it offers exactly those. */
  lemma Offered(s: Slot, available: seq<Device>)
    ensures Offer(s, available).options[..|available|] == available
    ensures Offer(s, available).options[|available|..] == Current(s)
    ensures forall d :: d in Offer(s, available).options <==> d in available || s.device == Some(d)
  {
    var r := Offer(s, available);
    assert r.options == available + Current(s);
  }

  /** A destination as AddTargetButton_Click creates it: the first of the
      offered devices selected, volume 1, no audio path yet. */
  function NewSlot(available: seq<Device>): (r: Slot)
    requires |available| > 0
    ensures r.device == Some(available[0]) && r.options == available
    ensures r.volume == Volume.INITIAL_VOLUME && SlotOk(r)
    ensures !r.output && r.buffer.None? && r.gain.None?
  {
    Slot(Some(available[0]), available, Volume.INITIAL_VOLUME, None, None, false)
  }

  /** AddTargetAudio: a destination with a selected device gets an empty
      buffer, a volume provider set to its volume and a playing output; one
      without a selected device is left as it was. */
  function Opened(s: Slot): (r: Slot)
    ensures s.device.None? ==> r == s
    ensures s.device.Some? ==> r.output && r.buffer == Some([]) && r.gain == Some(s.volume)
    ensures r.device == s.device && r.options == s.options && r.volume == s.volume
    ensures VolumeOk(s) ==> VolumeOk(r)
    ensures s.device.Some? ==> HandlesOk(r)
  {
    if s.device.None? then s
    else s.(buffer := Some([]), gain := Some(s.volume), output := true)
  }

  /** The per-destination part of StopButton_Click: output, buffer and
      volume provider dropped; settings kept. */
  function Released(s: Slot): (r: Slot)
    ensures !r.output && r.buffer.None? && r.gain.None?
    ensures r.device == s.device && r.options == s.options && r.volume == s.volume
    ensures VolumeOk(s) ==> SlotOk(r)
  {
    s.(buffer := None, gain := None, output := false)
  }

  /** Releasing an already released destination changes nothing. */
  lemma ReleasedTwice(s: Slot)
    ensures Released(Released(s)) == Released(s)
  {
  }

  /** Captured audio handed to a destination: the bytes are queued behind what the buffer
      already holds; a destination without a buffer is untouched. */
  function Deliver(s: Slot, data: seq<byte>): (r: Slot)
    ensures s.buffer.None? ==> r == s
    ensures s.buffer.Some? ==> r.buffer == Some(s.buffer.value + data)
    ensures r.device == s.device && r.options == s.options && r.volume == s.volume
    ensures r.gain == s.gain && r.output == s.output
    ensures SlotOk(s) ==> SlotOk(r)
  {
    if s.buffer.Some? then s.(buffer := Some(s.buffer.value + data)) else s
  }

  /** ChangeVolume on one destination: the stored volume is nudged and a live
      volume provider is set to the new value. */
  function Nudge(s: Slot, up: bool): (r: Slot)
    ensures r.volume == Volume.Stepped(s.volume, up) && VolumeOk(r)
    ensures r.gain == if s.gain.Some? then Some(r.volume) else None
    ensures r.device == s.device && r.options == s.options
    ensures r.buffer == s.buffer && r.output == s.output
    ensures HandlesOk(s) ==> HandlesOk(r)
  {
    var v := Volume.Stepped(s.volume, up);
    s.(volume := v, gain := if s.gain.Some? then Some(v) else None)
  }

  /** Bytes delivered one batch after another arrive in the order they were
      captured. */
  lemma DeliverInOrder(s: Slot, a: seq<byte>, b: seq<byte>)
    ensures Deliver(Deliver(s, a), b) == Deliver(s, a + b)
  {
    if s.buffer.Some? {
      assert s.buffer.value + a + b == s.buffer.value + (a + b);
    }
  }
}
