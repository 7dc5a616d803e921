/**
 * The duplication engine of AudioDuplicator/MainWindow.xaml.cs as a value:
 * what the window's fields hold (device list, source selection, destination
 * list, capture handle, recording flag), one function per handler that
 * changes them, the invariant the handlers keep, and the lemmas that state
 * the rules of the window: capacity, exclusive device assignment, the
 * stop/start reconfiguration cycle, idempotent stop and ordered fan-out.
 * The hold-to-repeat state lives in the imperative layer (window.dfy).
 */
module Engine {
  import opened Wrappers
  import opened Registry
  import opened Channel
  import Volume

  /** maxTargets */
  const MAX_TARGETS := 5

  datatype Config = Config(
    devices: seq<Device>,    // devices, as enumerated by LoadDevices
    source: Option<Device>,  // SourceComboBox.SelectedItem
    slots: seq<Slot>,        // targets
    capturing: bool,         // capture is a live WasapiLoopbackCapture
    recording: bool)         // isRecording

  /** The devices the destinations have selected, in list order. */
  function Used(slots: seq<Slot>): (r: seq<Device>)
    ensures forall d :: d in r <==> exists k :: 0 <= k < |slots| && slots[k].device == Some(d)
  {
    if slots == [] then []
    else
      var rest := Used(slots[1..]);
      assert forall d :: d in rest ==> exists k :: 1 <= k < |slots| && slots[k].device == Some(d);
      Current(slots[0]) + rest
  }

  /** GetAvailableTargets on the window's current state. */
  function AvailableIn(c: Config): (r: seq<Device>)
    ensures IsSubsequence(r, c.devices)
    ensures forall d :: d in r <==> d in c.devices && c.source != Some(d) && d !in Used(c.slots)
  {
    Available(c.devices, c.source, Used(c.slots))
  }

  /** LoadDevices: the enumerated devices, the first of them selected as the
      source (none if the enumeration came back empty or failed), no
      destinations, nothing running. */
  function Initial(devices: seq<Device>): (r: Config)
    ensures r.devices == devices && r.slots == [] && !r.recording && !r.capturing
    ensures |devices| > 0 ==> r.source == Some(devices[0])
    ensures devices == [] ==> r.source.None?
    ensures Inv(r)
  {
    Config(devices, if |devices| > 0 then Some(devices[0]) else None, [], false, false)
  }

  // ---------------------------------------------------------------------
  // The invariant

  /** No two destinations have selected the same device. */
  ghost predicate DistinctDevices(slots: seq<Slot>)
  {
    forall i, j :: 0 <= i < |slots| && 0 <= j < |slots| && i != j && slots[i].device.Some? ==>
      slots[i].device != slots[j].device
  }

  /** Every device destination `k` offers is an enumerated device and is either
      its own selection or free: not the source, not selected elsewhere. */
  ghost predicate OptionsOk(c: Config, k: int)
    requires 0 <= k < |c.slots|
  {
    forall d :: d in c.slots[k].options ==>
      d in c.devices &&
      (c.slots[k].device == Some(d) ||
       (c.source != Some(d) && forall j :: 0 <= j < |c.slots| && j != k ==> c.slots[j].device != Some(d)))
  }

  /** At most five destinations, each with a volume in range. */
  ghost predicate Bounded(c: Config)
  {
    |c.slots| <= MAX_TARGETS &&
    (forall k :: 0 <= k < |c.slots| ==> VolumeOk(c.slots[k]))
  }

  /** What holds of the destination list whatever the audio path is doing. */
  ghost predicate Placed(c: Config)
  {
    Bounded(c) &&
    DistinctDevices(c.slots) &&
    (forall k :: 0 <= k < |c.slots| && c.slots[k].device.Some? ==> c.slots[k].device.value in c.devices)
  }

  ghost predicate Settled(c: Config)
  {
    Placed(c) && forall k :: 0 <= k < |c.slots| ==> OptionsOk(c, k)
  }

  /** The audio path: capturing exactly while recording, recording only with
      a source and a destination, and a live output on exactly the
      destinations with a selected device while recording. */
  ghost predicate Running(c: Config)
  {
    c.capturing == c.recording &&
    (c.recording ==> c.source.Some? && |c.slots| > 0) &&
    (forall k :: 0 <= k < |c.slots| ==> HandlesOk(c.slots[k])) &&
    (forall k :: 0 <= k < |c.slots| ==> (c.slots[k].output <==> c.recording && c.slots[k].device.Some?))
  }

  ghost predicate Inv(c: Config)
  {
    Settled(c) && Running(c)
  }

  /** What the program as written keeps whatever its option lists offer. A
      stale list can let two destinations share a device, so exclusive
      devices and settled lists are not part of it. */
  ghost predicate Sound(c: Config)
  {
    Bounded(c) && Running(c)
  }

  /** Two destination lists that agree on everything but the audio path. */
  ghost predicate SameSettings(a: seq<Slot>, b: seq<Slot>)
  {
    |a| == |b| &&
    forall k :: 0 <= k < |a| ==>
      a[k].device == b[k].device && a[k].options == b[k].options && a[k].volume == b[k].volume
  }

  // ---------------------------------------------------------------------
  // The handlers

  /** The loop the two SelectionChanged handlers share: every destination is
      offered the available devices followed by its own selection. */
  function Refresh(c: Config): (r: Config)
    ensures r.devices == c.devices && r.source == c.source
    ensures r.capturing == c.capturing && r.recording == c.recording
    ensures |r.slots| == |c.slots|
    ensures forall k :: 0 <= k < |c.slots| ==> r.slots[k] == Offer(c.slots[k], AvailableIn(c))
  {
    var avail := AvailableIn(c);
    c.(slots := seq(|c.slots|, k requires 0 <= k < |c.slots| => Offer(c.slots[k], avail)))
  }

  /** StopButton_Click: the capture is released, every destination loses its
      output, buffer and volume provider, and recording ends. */
  function Stop(c: Config): (r: Config)
    ensures !r.capturing && !r.recording
    ensures r.devices == c.devices && r.source == c.source && SameSettings(c.slots, r.slots)
    ensures forall k :: 0 <= k < |r.slots| ==> !r.slots[k].output && r.slots[k].buffer.None? && r.slots[k].gain.None?
  {
    c.(capturing := false, recording := false,
       slots := seq(|c.slots|, k requires 0 <= k < |c.slots| => Released(c.slots[k])))
  }

  /** StartButton_Click: refused, changing nothing, without a source or
      without destinations; otherwise a capture is opened, every destination
      with a selected device gets a fresh audio path (the others are
      skipped) and recording begins. */
  function Start(c: Config): (r: Config)
    ensures c.source.None? || c.slots == [] ==> r == c
    ensures c.source.Some? && c.slots != [] ==>
              r.recording && r.capturing && |r.slots| == |c.slots| &&
              forall k :: 0 <= k < |c.slots| ==> r.slots[k] == Opened(c.slots[k])
    ensures r.devices == c.devices && r.source == c.source && SameSettings(c.slots, r.slots)
  {
    if c.source.None? || |c.slots| == 0 then c
    else
      c.(capturing := true, recording := true,
         slots := seq(|c.slots|, k requires 0 <= k < |c.slots| => Opened(c.slots[k])))
  }

  /** The reconfiguration every structural handler ends with: stop then start
      while recording, nothing otherwise. Recording survives exactly when
      start's conditions still hold. */
  function Restart(c: Config): (r: Config)
    ensures !c.recording ==> r == c
    ensures r.recording <==> c.recording && c.source.Some? && c.slots != []
    ensures r.devices == c.devices && r.source == c.source && SameSettings(c.slots, r.slots)
  {
    if c.recording then Start(Stop(c)) else c
  }

  /** targets.Add of a new destination on the first available device: the
      list grows by one entry at its end, everything else is kept. */
  function Append(c: Config): (r: Config)
    requires AvailableIn(c) != []
    ensures |r.slots| == |c.slots| + 1 && r.slots[..|c.slots|] == c.slots
    ensures r.slots[|c.slots|] == NewSlot(AvailableIn(c))
    ensures r.devices == c.devices && r.source == c.source
    ensures r.capturing == c.capturing && r.recording == c.recording
  {
    c.(slots := c.slots + [NewSlot(AvailableIn(c))])
  }

  /** AddTargetButton_Click as the source has it: refused at capacity or when
      no device is available; otherwise the new destination is appended and
      the pipeline restarted, while the other destinations keep the option
      lists they had. */
  function AddTargetAsWritten(c: Config): (r: Config)
    ensures |c.slots| >= MAX_TARGETS || AvailableIn(c) == [] ==> r == c
    ensures |c.slots| < MAX_TARGETS && AvailableIn(c) != [] ==>
              |r.slots| == |c.slots| + 1 &&
              r.slots[|c.slots|].device == Some(AvailableIn(c)[0]) &&
              r.slots[|c.slots|].options == AvailableIn(c) &&
              r.slots[|c.slots|].volume == Volume.INITIAL_VOLUME &&
              forall k :: 0 <= k < |c.slots| ==>
                r.slots[k].options == c.slots[k].options &&
                r.slots[k].device == c.slots[k].device && r.slots[k].volume == c.slots[k].volume
    ensures |c.slots| < MAX_TARGETS && AvailableIn(c) != [] ==> (r.recording <==> c.recording && c.source.Some?)
    ensures r.source == c.source && r.devices == c.devices
  {
    if |c.slots| >= MAX_TARGETS || AvailableIn(c) == [] then c
    else Restart(Append(c))
  }

  /** AddTargetButton_Click with the option lists refreshed after the new
      destination is appended, as the selection handlers do. */
  function AddTarget(c: Config): (r: Config)
    ensures |c.slots| >= MAX_TARGETS || AvailableIn(c) == [] ==> r == c
    ensures |c.slots| < MAX_TARGETS && AvailableIn(c) != [] ==>
              |r.slots| == |c.slots| + 1 &&
              r.slots[|c.slots|].device == Some(AvailableIn(c)[0]) &&
              r.slots[|c.slots|].volume == Volume.INITIAL_VOLUME &&
              forall k :: 0 <= k < |c.slots| ==>
                r.slots[k].device == c.slots[k].device && r.slots[k].volume == c.slots[k].volume
    ensures |c.slots| < MAX_TARGETS && AvailableIn(c) != [] ==> (r.recording <==> c.recording && c.source.Some?)
    ensures r.source == c.source && r.devices == c.devices
  {
    if |c.slots| >= MAX_TARGETS || AvailableIn(c) == [] then c
    else Restart(Refresh(Append(c)))
  }

  /** The remove handler: exactly entry `k` leaves the list, then the
      pipeline is reconfigured. */
  function RemoveTarget(c: Config, k: int): (r: Config)
    requires 0 <= k < |c.slots|
    ensures SameSettings(c.slots[..k] + c.slots[k + 1..], r.slots)
    ensures r.recording <==> c.recording && c.source.Some? && |c.slots| > 1
    ensures r.devices == c.devices && r.source == c.source
  {
    Restart(c.(slots := c.slots[..k] + c.slots[k + 1..]))
  }

  /** SourceComboBox_SelectionChanged: the new source is in place, the option
      lists are refreshed, the pipeline is reconfigured. */
  function SelectSource(c: Config, d: Option<Device>): (r: Config)
    ensures r.source == d && r.devices == c.devices && |r.slots| == |c.slots|
    ensures forall k :: 0 <= k < |c.slots| ==>
              r.slots[k].device == c.slots[k].device && r.slots[k].volume == c.slots[k].volume
    ensures r.recording <==> c.recording && d.Some? && c.slots != []
  {
    Restart(Refresh(c.(source := d)))
  }

  /** TargetComboBox_SelectionChanged after destination `k` selected `d`. */
  function SelectTarget(c: Config, k: int, d: Option<Device>): (r: Config)
    requires 0 <= k < |c.slots|
    ensures r.source == c.source && r.devices == c.devices && |r.slots| == |c.slots|
    ensures r.slots[k].device == d
    ensures forall j :: 0 <= j < |c.slots| && j != k ==> r.slots[j].device == c.slots[j].device
    ensures forall j :: 0 <= j < |c.slots| ==> r.slots[j].volume == c.slots[j].volume
    ensures r.recording <==> c.recording && c.source.Some?
  {
    Restart(Refresh(c.(slots := c.slots[k := c.slots[k].(device := d)])))
  }

  /** ChangeVolume on destination `k`: its volume is nudged, nothing else in
      the window changes. */
  function ChangeVolumeAt(c: Config, k: int, up: bool): (r: Config)
    requires 0 <= k < |c.slots|
    ensures |r.slots| == |c.slots| && r.slots[k].volume == Volume.Stepped(c.slots[k].volume, up)
    ensures forall j :: 0 <= j < |c.slots| && j != k ==> r.slots[j] == c.slots[j]
    ensures r == c.(slots := r.slots)
  {
    c.(slots := c.slots[k := Nudge(c.slots[k], up)])
  }

  /** The DataAvailable handler: the same captured bytes are queued on every
      destination that has a buffer, behind what it already holds; the
      destinations without one and everything else are untouched. */
  function DataArrived(c: Config, data: seq<byte>): (r: Config)
    ensures r.devices == c.devices && r.source == c.source
    ensures r.capturing == c.capturing && r.recording == c.recording
    ensures SameSettings(c.slots, r.slots)
    ensures forall k :: 0 <= k < |c.slots| && c.slots[k].buffer.None? ==> r.slots[k] == c.slots[k]
    ensures forall k :: 0 <= k < |c.slots| && c.slots[k].buffer.Some? ==>
              r.slots[k].buffer == Some(c.slots[k].buffer.value + data) &&
              r.slots[k].gain == c.slots[k].gain && r.slots[k].output == c.slots[k].output
  {
    c.(slots := seq(|c.slots|, k requires 0 <= k < |c.slots| => Deliver(c.slots[k], data)))
  }

  // ---------------------------------------------------------------------
  // The invariant is kept

  /** Only devices, source and settings matter to Settled. */
  lemma SettledBySettings(c: Config, r: Config)
    requires Settled(c)
    requires r.devices == c.devices && r.source == c.source && SameSettings(c.slots, r.slots)
    ensures Settled(r)
  {
    forall k | 0 <= k < |r.slots|
      ensures OptionsOk(r, k)
    {
      assert OptionsOk(c, k);
    }
  }

  /** Refreshing the option lists makes every one of them offer only free
      devices and the destination's own selection. */
  lemma RefreshSettled(c: Config)
    requires Placed(c)
    ensures Settled(Refresh(c))
    ensures forall k, d :: 0 <= k < |c.slots| && d in Refresh(c).slots[k].options ==>
              d in AvailableIn(c) || c.slots[k].device == Some(d)
  {
    var r := Refresh(c);
    forall k | 0 <= k < |r.slots|
      ensures OptionsOk(r, k)
    {
      forall d | d in r.slots[k].options
        ensures d in r.devices
        ensures r.slots[k].device == Some(d) ||
                (r.source != Some(d) && forall j :: 0 <= j < |r.slots| && j != k ==> r.slots[j].device != Some(d))
      {
        if d in AvailableIn(c) {
          forall j | 0 <= j < |r.slots| && j != k
            ensures r.slots[j].device != Some(d)
          {
            assert r.slots[j].device == c.slots[j].device;
          }
        } else {
          assert d in Current(c.slots[k]);
        }
      }
    }
  }

  lemma StopInv(c: Config)
    requires Settled(c)
    ensures Inv(Stop(c))
  {
    SettledBySettings(c, Stop(c));
  }

  lemma StartInv(c: Config)
    requires Inv(c)
    ensures Inv(Start(c))
  {
    SettledBySettings(c, Start(c));
  }

  /** A reconfiguration leaves a settled window consistent, whatever state the
      audio path was in while recording. */
  lemma RestartInv(c: Config)
    requires Settled(c)
    requires !c.recording ==> Running(c)
    ensures Inv(Restart(c))
  {
    if c.recording {
      StopInv(c);
      StartInv(Stop(c));
    }
  }

  /** A reconfiguration of a placed list keeps it placed and leaves the audio
      path consistent, whatever state it was in while recording. */
  lemma RestartRunning(c: Config)
    requires Placed(c)
    requires !c.recording ==> Running(c)
    ensures Placed(Restart(c)) && Running(Restart(c))
  {
    var r := Restart(c);
    assert forall k :: 0 <= k < |r.slots| ==>
      r.slots[k].device == c.slots[k].device && r.slots[k].volume == c.slots[k].volume;
  }

  /** Stop leaves a bounded list sound: nothing runs any more. */
  lemma StopSound(c: Config)
    requires Bounded(c)
    ensures Sound(Stop(c))
  {
    var r := Stop(c);
    assert forall k :: 0 <= k < |r.slots| ==> r.slots[k].volume == c.slots[k].volume;
  }

  /** Start keeps a sound window sound: the destinations it skips had no
      output already. */
  lemma StartSound(c: Config)
    requires Sound(c)
    ensures Sound(Start(c))
  {
  }

  /** A reconfiguration leaves a bounded list sound, whatever state the audio
      path was in while recording. */
  lemma RestartSound(c: Config)
    requires Bounded(c)
    requires !c.recording ==> Running(c)
    ensures Sound(Restart(c))
  {
    if c.recording {
      StopSound(c);
      StartSound(Stop(c));
    }
  }

  /** The new destination takes a free device, so the list stays placed. */
  lemma AppendPlaced(c: Config)
    requires Placed(c) && |c.slots| < MAX_TARGETS && AvailableIn(c) != []
    ensures Placed(Append(c))
  {
    var a := Append(c);
    var n := NewSlot(AvailableIn(c));
    assert n.device.value !in Used(c.slots);
    forall i, j | 0 <= i < |a.slots| && 0 <= j < |a.slots| && i != j && a.slots[i].device.Some?
      ensures a.slots[i].device != a.slots[j].device
    {
      if i == |c.slots| {
        assert a.slots[j] == c.slots[j];
      } else if j == |c.slots| {
        assert a.slots[i] == c.slots[i];
      }
    }
    assert forall k :: 0 <= k < |c.slots| ==> a.slots[k] == c.slots[k];
  }

  /** Appending a destination keeps a sound window bounded, and idle the
      new destination is as consistent as the others. */
  lemma AppendSound(c: Config)
    requires Sound(c) && |c.slots| < MAX_TARGETS && AvailableIn(c) != []
    ensures Bounded(Append(c)) && (!c.recording ==> Running(Append(c)))
  {
    var a := Append(c);
    forall k | 0 <= k < |a.slots|
      ensures VolumeOk(a.slots[k])
      ensures !c.recording ==> HandlesOk(a.slots[k]) && !a.slots[k].output
    {
      if k < |c.slots| { assert a.slots[k] == c.slots[k]; }
    }
  }

  /** The add handler as written keeps the window sound, and a placed list
      stays placed; only the option lists of the existing destinations go
      stale (see StaleOptionsAllowDuplicate). So any number of clicks keeps
      the list placed. */
  lemma AddTargetAsWrittenKeeps(c: Config)
    requires Sound(c)
    ensures Sound(AddTargetAsWritten(c))
    ensures Placed(c) ==> Placed(AddTargetAsWritten(c))
  {
    if |c.slots| < MAX_TARGETS && AvailableIn(c) != [] {
      var a := Append(c);
      AppendSound(c);
      RestartSound(a);
      if Placed(c) {
        AppendPlaced(c);
        RestartRunning(a);
      }
    }
  }

  /** Refreshing the option lists touches nothing Sound speaks of. */
  lemma RefreshSound(c: Config)
    requires Bounded(c) && (!c.recording ==> Running(c))
    ensures Bounded(Refresh(c)) && (!c.recording ==> Running(Refresh(c)))
  {
    var f := Refresh(c);
    assert forall k :: 0 <= k < |f.slots| ==> f.slots[k] == Offer(c.slots[k], AvailableIn(c));
  }

  /** The corrected add keeps a sound window sound. */
  lemma AddTargetSound(c: Config)
    requires Sound(c)
    ensures Sound(AddTarget(c))
  {
    if |c.slots| < MAX_TARGETS && AvailableIn(c) != [] {
      var a := Append(c);
      AppendSound(c);
      RefreshSound(a);
      RestartSound(Refresh(a));
    }
  }

  lemma AddTargetInv(c: Config)
    requires Inv(c)
    ensures Inv(AddTarget(c))
  {
    if |c.slots| < MAX_TARGETS && AvailableIn(c) != [] {
      var a := Append(c);
      AppendPlaced(c);
      RefreshSettled(a);
      assert Running(Refresh(a)) || c.recording by {
        if !c.recording {
          forall k | 0 <= k < |a.slots|
            ensures HandlesOk(Refresh(a).slots[k]) && !Refresh(a).slots[k].output
          {
            if k < |c.slots| { assert a.slots[k] == c.slots[k]; }
          }
        }
      }
      RestartInv(Refresh(a));
    }
  }

  /** Entry `i` of the list without entry `k` is entry `i` or `i + 1` of
      the full list. */
  lemma RemovedIndex(slots: seq<Slot>, k: int, i: int)
    requires 0 <= k < |slots| && 0 <= i < |slots| - 1
    ensures (slots[..k] + slots[k + 1..])[i] == slots[if i < k then i else i + 1]
  {
  }

  lemma RemovedSettled(c: Config, k: int)
    requires Settled(c) && 0 <= k < |c.slots|
    ensures Settled(c.(slots := c.slots[..k] + c.slots[k + 1..]))
  {
    var s := c.slots[..k] + c.slots[k + 1..];
    var a := c.(slots := s);
    forall i, j | 0 <= i < |s| && 0 <= j < |s| && i != j && s[i].device.Some?
      ensures s[i].device != s[j].device
    {
      RemovedIndex(c.slots, k, i);
      RemovedIndex(c.slots, k, j);
    }
    forall i | 0 <= i < |s|
      ensures VolumeOk(s[i]) && (s[i].device.Some? ==> s[i].device.value in c.devices)
    {
      RemovedIndex(c.slots, k, i);
    }
    forall i | 0 <= i < |s|
      ensures OptionsOk(a, i)
    {
      var i' := if i < k then i else i + 1;
      RemovedIndex(c.slots, k, i);
      assert OptionsOk(c, i');
      forall d | d in s[i].options && s[i].device != Some(d)
        ensures forall j :: 0 <= j < |s| && j != i ==> s[j].device != Some(d)
      {
        forall j | 0 <= j < |s| && j != i
          ensures s[j].device != Some(d)
        {
          RemovedIndex(c.slots, k, j);
        }
      }
    }
  }

  lemma RemoveTargetInv(c: Config, k: int)
    requires Inv(c) && 0 <= k < |c.slots|
    ensures Inv(RemoveTarget(c, k))
  {
    var a := c.(slots := c.slots[..k] + c.slots[k + 1..]);
    RemovedSettled(c, k);
    if !c.recording {
      forall i | 0 <= i < |a.slots|
        ensures HandlesOk(a.slots[i]) && !a.slots[i].output
      {
        RemovedIndex(c.slots, k, i);
      }
    }
    RestartInv(a);
  }

  /** Removing a destination keeps a sound window sound. */
  lemma RemoveTargetSound(c: Config, k: int)
    requires Sound(c) && 0 <= k < |c.slots|
    ensures Sound(RemoveTarget(c, k))
  {
    var a := c.(slots := c.slots[..k] + c.slots[k + 1..]);
    forall i | 0 <= i < |a.slots|
      ensures VolumeOk(a.slots[i])
      ensures !c.recording ==> HandlesOk(a.slots[i]) && !a.slots[i].output
    {
      RemovedIndex(c.slots, k, i);
    }
    RestartSound(a);
  }

  lemma SelectSourceInv(c: Config, d: Option<Device>)
    requires Inv(c)
    ensures Inv(SelectSource(c, d))
  {
    var a := c.(source := d);
    RefreshSettled(a);
    RestartInv(Refresh(a));
  }

  /** Changing the source keeps a sound window sound. */
  lemma SelectSourceSound(c: Config, d: Option<Device>)
    requires Sound(c)
    ensures Sound(SelectSource(c, d))
  {
    var a := c.(source := d);
    RefreshSound(a);
    RestartSound(Refresh(a));
  }

  /** Selecting one of the offered devices keeps the assignment exclusive. */
  lemma ChosenPlaced(c: Config, k: int, d: Option<Device>)
    requires Settled(c) && 0 <= k < |c.slots|
    requires d.None? || d.value in c.slots[k].options
    ensures Placed(c.(slots := c.slots[k := c.slots[k].(device := d)]))
  {
    var a := c.(slots := c.slots[k := c.slots[k].(device := d)]);
    assert OptionsOk(c, k);
    forall i, j | 0 <= i < |a.slots| && 0 <= j < |a.slots| && i != j && a.slots[i].device.Some?
      ensures a.slots[i].device != a.slots[j].device
    {
    }
  }

  lemma SelectTargetInv(c: Config, k: int, d: Option<Device>)
    requires Inv(c) && 0 <= k < |c.slots|
    requires d.None? || d.value in c.slots[k].options
    ensures Inv(SelectTarget(c, k, d))
  {
    var a := c.(slots := c.slots[k := c.slots[k].(device := d)]);
    ChosenPlaced(c, k, d);
    RefreshSettled(a);
    RestartInv(Refresh(a));
  }

  /** Selecting any device, offered or stale, keeps a sound window sound. */
  lemma SelectTargetSound(c: Config, k: int, d: Option<Device>)
    requires Sound(c) && 0 <= k < |c.slots|
    ensures Sound(SelectTarget(c, k, d))
  {
    var a := c.(slots := c.slots[k := c.slots[k].(device := d)]);
    forall j | 0 <= j < |a.slots|
      ensures VolumeOk(a.slots[j])
      ensures !c.recording ==> HandlesOk(a.slots[j]) && !a.slots[j].output
    {
      if j != k { assert a.slots[j] == c.slots[j]; }
    }
    RefreshSound(a);
    RestartSound(Refresh(a));
  }

  lemma ChangeVolumeInv(c: Config, k: int, up: bool)
    requires Inv(c) && 0 <= k < |c.slots|
    ensures Inv(ChangeVolumeAt(c, k, up))
  {
    var r := ChangeVolumeAt(c, k, up);
    forall i | 0 <= i < |r.slots|
      ensures OptionsOk(r, i)
    {
      assert OptionsOk(c, i);
    }
  }

  /** A nudge keeps a sound window sound. */
  lemma ChangeVolumeSound(c: Config, k: int, up: bool)
    requires Sound(c) && 0 <= k < |c.slots|
    ensures Sound(ChangeVolumeAt(c, k, up))
  {
  }

  /** Fan-out keeps a sound window sound. */
  lemma DataArrivedSound(c: Config, data: seq<byte>)
    requires Sound(c)
    ensures Sound(DataArrived(c, data))
  {
  }

  lemma DataArrivedInv(c: Config, data: seq<byte>)
    requires Inv(c)
    ensures Inv(DataArrived(c, data))
  {
    SettledBySettings(c, DataArrived(c, data));
  }

  // ---------------------------------------------------------------------
  // Properties of the handlers

  /** The new destination is refused a device in use and the source. */
  lemma AddTargetPicksFree(c: Config)
    requires |c.slots| < MAX_TARGETS && AvailableIn(c) != []
    ensures var d := AddTarget(c).slots[|c.slots|].device.value;
            d in c.devices && c.source != Some(d) &&
            forall k :: 0 <= k < |c.slots| ==> c.slots[k].device != Some(d)
  {
    var d := AvailableIn(c)[0];
    assert d in AvailableIn(c);
    assert d !in Used(c.slots);
  }

  /** A second stop changes nothing. */
  lemma StopTwice(c: Config)
    ensures Stop(Stop(c)) == Stop(c)
  {
    assert Stop(Stop(c)).slots == Stop(c).slots by {
      forall k | 0 <= k < |c.slots|
        ensures Stop(Stop(c)).slots[k] == Stop(c).slots[k]
      {
        ReleasedTwice(c.slots[k]);
      }
    }
  }

  /** Removing the last destination while recording stops the pipeline for
      good: start refuses an empty list. */
  lemma RemoveLastStops(c: Config)
    requires Inv(c) && c.recording && |c.slots| == 1
    ensures var r := RemoveTarget(c, 0); !r.recording && !r.capturing && r.slots == []
  {
  }

  /** Two batches delivered one after the other leave every buffer as one
      batch of both would: the arrival order is kept. */
  lemma DataInOrder(c: Config, a: seq<byte>, b: seq<byte>)
    ensures DataArrived(DataArrived(c, a), b) == DataArrived(c, a + b)
  {
    var l, r := DataArrived(DataArrived(c, a), b), DataArrived(c, a + b);
    assert l.slots == r.slots by {
      forall k | 0 <= k < |c.slots|
        ensures l.slots[k] == r.slots[k]
      {
        assert DataArrived(c, a).slots[k] == Deliver(c.slots[k], a);
        DeliverInOrder(c.slots[k], a, b);
      }
    }
  }

  /** After an accepted start from idle, a captured batch reaches exactly the
      destinations with a selected device, each of which then holds exactly
      that batch. */
  lemma StartThenData(c: Config, data: seq<byte>)
    requires Inv(c) && !c.recording && c.source.Some? && c.slots != []
    ensures var r := DataArrived(Start(c), data);
            r.recording &&
            forall k :: 0 <= k < |c.slots| ==>
              (if c.slots[k].device.Some? then r.slots[k].buffer == Some(data) else r.slots[k].buffer.None?)
  {
    var r := DataArrived(Start(c), data);
    forall k | 0 <= k < |c.slots|
      ensures if c.slots[k].device.Some? then r.slots[k].buffer == Some(data) else r.slots[k].buffer.None?
    {
      assert Start(c).slots[k] == Opened(c.slots[k]);
      assert r.slots[k] == Deliver(Opened(c.slots[k]), data);
      assert c.slots[k].buffer.Some? <==> c.slots[k].output;
      assert [] + data == data;
    }
  }

  // ---------------------------------------------------------------------
  // What the source allows

  /** With devices 0, 1, 2 and source 0, two clicks of the add button as the
      source has it give destination 0 (device 1) a list that still offers
      device 2, which destination 1 took; selecting it makes the two
      destinations share a device. */
  lemma StaleOptionsAllowDuplicate()
    ensures var c := AddTargetAsWritten(AddTargetAsWritten(Initial([Device(0), Device(1), Device(2)])));
            |c.slots| == 2 && Device(2) in c.slots[0].options && c.slots[1].device == Some(Device(2)) &&
            !DistinctDevices(SelectTarget(c, 0, Some(Device(2))).slots)
  {
    var c0 := Initial([Device(0), Device(1), Device(2)]);
    assert AvailableIn(c0) == [Device(1), Device(2)];
    var c1 := AddTargetAsWritten(c0);
    assert c1.slots == [NewSlot([Device(1), Device(2)])];
    assert Used(c1.slots) == [Device(1)];
    assert AvailableIn(c1) == [Device(2)];
    var c2 := AddTargetAsWritten(c1);
    assert c2.slots == c1.slots + [NewSlot([Device(2)])];
    var r := SelectTarget(c2, 0, Some(Device(2)));
    assert r.slots[0].device == r.slots[1].device == Some(Device(2));
  }

  /** Selecting as the source a device a destination already plays to is
      allowed: the invariant survives, yet that destination then receives its
      own loopback. */
  lemma SourceMayEqualTarget()
    ensures var c := AddTarget(Initial([Device(0), Device(1)]));
            var r := SelectSource(c, Some(Device(1)));
            Inv(r) && |r.slots| == 1 && r.slots[0].device == r.source
  {
    var c0 := Initial([Device(0), Device(1)]);
    assert AvailableIn(c0) == [Device(1)];
    AddTargetInv(c0);
    var c := AddTarget(c0);
    SelectSourceInv(c, Some(Device(1)));
  }
}
