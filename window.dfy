/**
 * The window of AudioDuplicator/MainWindow.xaml.cs as objects: a Target per
 * TargetControl and a Duplicator for the MainWindow fields the handlers
 * update. Every handler is a method whose postcondition ties the window's
 * new value (View) to the engine function of its old value, so that the
 * lemmas of the Engine module apply to it; the hold-to-repeat state
 * (activeTarget, increase, repeatTimer) is specified here directly.
 * WPF widgets, NAudio objects and MessageBox calls are not modelled: a
 * capture, an output or a timer is a flag saying whether it exists.
 */
module Window {
  import opened Wrappers
  import opened Registry
  import opened Channel
  import Volume
  import Engine

  /** TargetControl, without its buttons and label. */
  class Target {
    var device: Option<Device>     // DeviceComboBox.SelectedItem
    var options: seq<Device>       // DeviceComboBox.ItemsSource
    var volume: int                // Volume
    var buffer: Option<seq<byte>>  // Buffer
    var gain: Option<int>          // VolumeProvider, by its Volume
    var output: bool               // Output != null

    function View(): Slot
      reads this
    {
      Slot(device, options, volume, buffer, gain, output)
    }

    /** The row AddTargetButton_Click builds: the offered devices in the combo
        box, the first one selected, volume 1. */
    constructor (available: seq<Device>)
      requires |available| > 0
      ensures View() == NewSlot(available)
    {
      device := Some(available[0]);
      options := available;
      volume := Volume.INITIAL_VOLUME;
      buffer := None;
      gain := None;
      output := false;
    }
  }

  /** The first position of `t` in `ts`, -1 if there is none: the entry
      List.Remove deletes. */
  function IndexOf(ts: seq<Target>, t: Target): (k: int)
    ensures -1 <= k < |ts|
    ensures k >= 0 ==> ts[k] == t && forall j :: 0 <= j < k ==> ts[j] != t
    ensures k == -1 <==> t !in ts
  {
    if ts == [] then -1
    else if ts[0] == t then 0
    else
      var k := IndexOf(ts[1..], t);
      if k == -1 then -1 else k + 1
  }

  /** MainWindow. */
  class Duplicator {
    const devices: seq<Device>     // devices
    var source: Option<Device>     // SourceComboBox.SelectedItem
    var targets: seq<Target>       // targets
    var capturing: bool            // capture != null
    var isRecording: bool          // isRecording
    var activeTarget: Target?      // activeTarget
    var increase: bool             // increase
    var repeating: bool            // repeatTimer != null

    function Slots(): (r: seq<Slot>)
      reads this`targets, targets
      ensures |r| == |targets| && forall k :: 0 <= k < |targets| ==> r[k] == targets[k].View()
    {
      var ts := targets;
      seq(|ts|, k reads ts requires 0 <= k < |ts| => ts[k].View())
    }

    function View(): Engine.Config
      reads this`source, this`targets, this`capturing, this`isRecording, targets
    {
      Engine.Config(devices, source, Slots(), capturing, isRecording)
    }

    /** The list holds every TargetControl once. */
    ghost predicate Unaliased()
      reads this`targets
    {
      forall i, j :: 0 <= i < j < |targets| ==> targets[i] != targets[j]
    }

    /** A hold is in progress exactly while a repeat timer runs. */
    ghost predicate HoldOk()
      reads this`activeTarget, this`repeating, activeTarget
    {
      (activeTarget != null <==> repeating) &&
      (activeTarget != null ==> SlotOk(activeTarget.View()))
    }

    ghost predicate Valid()
      reads this, targets, activeTarget
    {
      Unaliased() && Engine.Inv(View()) && HoldOk()
    }

    /** What every handler keeps, the add as written included: Valid without
        the parts of the engine's invariant that stale option lists break. */
    ghost predicate Sound()
      reads this, targets, activeTarget
    {
      Unaliased() && Engine.Sound(View()) && HoldOk()
    }

    /** The constructor with LoadDevices: `enumerated` is what the endpoint
        enumeration returned (empty if it failed). */
    constructor (enumerated: seq<Device>)
      ensures Valid() && View() == Engine.Initial(enumerated)
      ensures activeTarget == null && !repeating
    {
      devices := enumerated;
      source := if |enumerated| > 0 then Some(enumerated[0]) else None;
      targets := [];
      capturing := false;
      isRecording := false;
      activeTarget := null;
      increase := false;
      repeating := false;
    }

    /** A destination of the list is consistent, as the invariant says of
        every destination. */
    lemma ListedOk(t: Target)
      requires Engine.Sound(View()) && t in targets
      ensures SlotOk(t.View())
    {
      var k :| 0 <= k < |targets| && targets[k] == t;
      assert Slots()[k] == t.View();
    }

    /** One destination's combo box refilled with the available devices and
        its own selection. */
    method OfferTo(t: Target, available: seq<Device>)
      modifies t
      ensures t.View() == Offer(old(t.View()), available)
    {
      t.options := available + if t.device.Some? then [t.device.value] else [];
    }

    /** The option-list loop of both SelectionChanged handlers, on the list
        of available devices. */
    method OfferAll(available: seq<Device>)
      requires Unaliased()
      modifies targets
      ensures forall k :: 0 <= k < |targets| ==> targets[k].View() == Offer(old(targets[k].View()), available)
    {
      var i := 0;
      while i < |targets|
        invariant 0 <= i <= |targets|
        invariant forall k :: 0 <= k < i ==> targets[k].View() == Offer(old(targets[k].View()), available)
        invariant forall k :: i <= k < |targets| ==> targets[k].View() == old(targets[k].View())
      {
        OfferTo(targets[i], available);
        i := i + 1;
      }
    }

    /** A window whose destinations were each offered the devices available
        in `before`, and which is otherwise `before`, is its refreshed value. */
    lemma RefreshedView(before: Engine.Config)
      requires before.devices == devices && before.source == source
      requires before.capturing == capturing && before.recording == isRecording
      requires |before.slots| == |targets|
      requires forall k :: 0 <= k < |targets| ==>
                 targets[k].View() == Offer(before.slots[k], Engine.AvailableIn(before))
      ensures View() == Engine.Refresh(before)
    {
      assert Slots() == Engine.Refresh(before).slots;
    }

    /** Both SelectionChanged handlers refresh every option list. The source
        calls GetAvailableTargets once per destination; its value depends only
        on the selections, which the loop does not change, so it is computed
        once here. */
    method RefreshOptions()
      requires Unaliased()
      modifies targets
      ensures View() == Engine.Refresh(old(View()))
    {
      ghost var before := View();
      var available := Engine.AvailableIn(View());
      OfferAll(available);
      RefreshedView(before);
    }

    /** ChangeVolume: one step, the two clamps, and the live volume provider
        (if any) follows. The label update is not modelled. */
    method ChangeVolume(t: Target, up: bool)
      modifies t
      ensures t.View() == Nudge(old(t.View()), up)
    {
      if up {
        t.volume := t.volume + Volume.VOLUME_STEP;
      } else {
        t.volume := t.volume - Volume.VOLUME_STEP;
      }
      if t.volume > Volume.MAX_VOLUME { t.volume := Volume.MAX_VOLUME; }
      if t.volume < 0 { t.volume := 0; }
      if t.gain.Some? {
        t.gain := Some(t.volume);
      }
    }

    /** AddTargetAudio. It reads the capture's wave format, so a capture must
        exist; the buffer and volume provider it builds before the device
        check are simply dropped when no device is selected. */
    method AddTargetAudio(t: Target)
      requires capturing
      modifies t
      ensures t.View() == Opened(old(t.View()))
    {
      var buffer: seq<byte> := [];
      var volumeProvider := t.volume;
      if t.device.None? {
        return;
      }
      // a shared-mode output is created, initialised and started
      t.buffer := Some(buffer);
      t.gain := Some(volumeProvider);
      t.output := true;
    }

    /** The per-destination body of StopButton_Click's loop. */
    method ReleaseAudio(t: Target)
      modifies t
      ensures t.View() == Released(old(t.View()))
      ensures t !in targets ==> View() == old(View())
    {
      // the output is stopped and disposed of
      t.output := false;
      t.buffer := None;
      t.gain := None;
    }

    /** The loop of StartButton_Click over the destinations. */
    method OpenAll()
      requires Unaliased() && capturing
      modifies targets
      ensures forall k :: 0 <= k < |targets| ==> targets[k].View() == Opened(old(targets[k].View()))
    {
      var i := 0;
      while i < |targets|
        invariant 0 <= i <= |targets|
        invariant forall k :: 0 <= k < i ==> targets[k].View() == Opened(old(targets[k].View()))
        invariant forall k :: i <= k < |targets| ==> targets[k].View() == old(targets[k].View())
      {
        AddTargetAudio(targets[i]);
        i := i + 1;
      }
    }

    /** The loop of StopButton_Click over the destinations. */
    method ReleaseAll()
      requires Unaliased()
      modifies targets
      ensures forall k :: 0 <= k < |targets| ==> targets[k].View() == Released(old(targets[k].View()))
    {
      var i := 0;
      while i < |targets|
        invariant 0 <= i <= |targets|
        invariant forall k :: 0 <= k < i ==> targets[k].View() == Released(old(targets[k].View()))
        invariant forall k :: i <= k < |targets| ==> targets[k].View() == old(targets[k].View())
      {
        ReleaseAudio(targets[i]);
        i := i + 1;
      }
    }

    /** StartButton_Click. The DataAvailable handler it registers is
        OnDataAvailable, which runs only while the capture exists. */
    method Start()
      requires Unaliased()
      modifies this, targets
      ensures View() == Engine.Start(old(View()))
      ensures targets == old(targets) && activeTarget == old(activeTarget)
      ensures increase == old(increase) && repeating == old(repeating)
      ensures old(Sound()) ==> Sound()
      ensures old(Valid()) ==> Valid()
    {
      if source.None? || |targets| == 0 {
        return;  // a message box tells the user why
      }
      capturing := true;  // a loopback capture is opened on the source
      OpenAll();
      // the capture's batches go to OnDataAvailable, and recording begins
      isRecording := true;
      assert View() == Engine.Start(old(View()));
      if old(Sound()) {
        Engine.StartSound(old(View()));
        if activeTarget != null && activeTarget in targets {
          ListedOk(activeTarget);
        }
      }
      if old(Valid()) {
        Engine.StartInv(old(View()));
      }
    }

    /** StopButton_Click; nothing is left to release on a second call. */
    method Stop()
      requires Unaliased()
      modifies this, targets
      ensures View() == Engine.Stop(old(View()))
      ensures targets == old(targets) && activeTarget == old(activeTarget)
      ensures increase == old(increase) && repeating == old(repeating)
      ensures old(Engine.Bounded(View())) ==> Engine.Sound(View())
      ensures old(Engine.Settled(View())) ==> Engine.Inv(View())
      ensures old(Sound()) ==> Sound()
      ensures old(Valid()) ==> Valid()
    {
      if capturing {
        capturing := false;  // the capture is stopped and disposed of
      }
      ReleaseAll();
      isRecording := false;
      assert View() == Engine.Stop(old(View()));
      if old(Engine.Bounded(View())) {
        Engine.StopSound(old(View()));
        if old(HoldOk()) && activeTarget != null && activeTarget in targets {
          ListedOk(activeTarget);
        }
      }
      if old(Engine.Settled(View())) {
        Engine.StopInv(old(View()));
      }
    }

    /** While recording, the pipeline is stopped and started again; otherwise nothing happens. */
    method Reconfigure()
      requires Unaliased()
      modifies this, targets
      ensures View() == Engine.Restart(old(View()))
      ensures targets == old(targets) && activeTarget == old(activeTarget)
      ensures increase == old(increase) && repeating == old(repeating)
      ensures old(HoldOk()) && Engine.Sound(View()) ==> Sound()
      ensures old(HoldOk()) && Engine.Inv(View()) ==> Valid()
    {
      if isRecording {
        Stop();
        Start();
        if Engine.Sound(View()) && activeTarget != null && activeTarget in targets {
          ListedOk(activeTarget);
        }
      }
    }

    /** The tail of every handler that changes the selections or the list:
        the option lists are refreshed and the pipeline reconfigured. The
        hold is untouched, so the window is consistent again as soon as the
        engine's invariant holds of its new value. */
    method Settle()
      requires Unaliased() && HoldOk()
      modifies this, targets
      ensures View() == Engine.Restart(Engine.Refresh(old(View())))
      ensures targets == old(targets) && activeTarget == old(activeTarget)
      ensures increase == old(increase) && repeating == old(repeating)
      ensures Engine.Sound(View()) ==> Sound()
      ensures Engine.Inv(View()) ==> Valid()
    {
      RefreshOptions();
      Reconfigure();
      if Engine.Sound(View()) && activeTarget != null && activeTarget in targets {
        ListedOk(activeTarget);
      }
    }

    /** The capture's DataAvailable handler: bytes 0 .. bytesRecorded of the
        batch are appended to every destination's buffer that exists. */
    method OnDataAvailable(buffer: seq<byte>, bytesRecorded: int)
      requires Sound() && capturing
      requires 0 <= bytesRecorded <= |buffer|
      modifies targets
      ensures Sound() && View() == Engine.DataArrived(old(View()), buffer[..bytesRecorded])
      ensures old(Valid()) ==> Valid()
    {
      var data := buffer[..bytesRecorded];
      var i := 0;
      while i < |targets|
        invariant 0 <= i <= |targets|
        invariant forall k :: 0 <= k < i ==> targets[k].View() == Deliver(old(targets[k].View()), data)
        invariant forall k :: i <= k < |targets| ==> targets[k].View() == old(targets[k].View())
      {
        var t := targets[i];
        if t.buffer.Some? {
          t.buffer := Some(t.buffer.value + data);  // the recorded bytes are queued
        }
        i := i + 1;
      }
      assert View() == Engine.DataArrived(old(View()), data);
      Engine.DataArrivedSound(old(View()), data);
      if old(Valid()) {
        Engine.DataArrivedInv(old(View()), data);
      }
      if activeTarget != null && activeTarget in targets {
        ListedOk(activeTarget);
      }
    }

    /** A new TargetControl on the available devices, appended to the list. */
    method Enlist(available: seq<Device>) returns (t: Target)
      requires Unaliased() && |available| > 0
      modifies this`targets
      ensures fresh(t) && targets == old(targets) + [t] && Unaliased()
      ensures View() == old(View()).(slots := old(View()).slots + [NewSlot(available)])
    {
      t := new Target(available);
      targets := targets + [t];
      assert Slots() == old(Slots()) + [t.View()];
    }

    /** Entry k is deleted from the list. The list holds no object twice, so
        deleting the first occurrence of the object deletes its only one. */
    method Drop(k: int)
      requires Unaliased() && 0 <= k < |targets|
      modifies this`targets
      ensures targets == old(targets)[..k] + old(targets)[k + 1..] && Unaliased()
      ensures old(targets)[k] !in targets
      ensures View() == old(View()).(slots := old(View()).slots[..k] + old(View()).slots[k + 1..])
    {
      ghost var t := targets[k];
      targets := targets[..k] + targets[k + 1..];
      assert forall j :: 0 <= j < |targets| ==> targets[j] == old(targets)[if j < k then j else j + 1];
      assert t !in targets by {
        forall j | 0 <= j < |targets|
          ensures targets[j] != t
        {
          assert targets[j] == old(targets)[if j < k then j else j + 1];
        }
      }
    }

    /** The source combo box selects `d`. */
    method SetSource(d: Option<Device>)
      modifies this`source
      ensures View() == old(View()).(source := d)
    {
      source := d;
    }

    /** SourceComboBox_SelectionChanged, after the combo box selected `d`
        among the enumerated devices. */
    method SelectSource(d: Option<Device>)
      requires Sound()
      requires d.None? || d.value in devices
      modifies this, targets
      ensures Sound() && View() == Engine.SelectSource(old(View()), d)
      ensures old(Valid()) ==> Valid()
      ensures targets == old(targets) && activeTarget == old(activeTarget)
      ensures increase == old(increase) && repeating == old(repeating)
    {
      SetSource(d);
      Settle();
      Engine.SelectSourceSound(old(View()), d);
      if old(Valid()) {
        Engine.SelectSourceInv(old(View()), d);
      }
    }

    /** AddTargetButton_Click, with the other destinations' option lists
        refreshed once the new one is listed. No click adds a sixth
        destination, and the new one gets a device nobody else uses. */
    method AddTarget()
      requires Sound()
      modifies this, targets
      ensures Sound() && View() == Engine.AddTarget(old(View()))
      ensures old(Valid()) ==> Valid()
      ensures targets == old(targets) ||
              (|targets| == |old(targets)| + 1 && targets[..|old(targets)|] == old(targets) &&
               fresh(targets[|old(targets)|]))
      ensures activeTarget == old(activeTarget) && increase == old(increase) && repeating == old(repeating)
    {
      if |targets| >= Engine.MAX_TARGETS {
        return;
      }
      var available := Engine.AvailableIn(View());
      if |available| == 0 {
        return;  // a message box tells the user why
      }
      var t := Enlist(available);
      assert View() == Engine.Append(old(View()));
      Settle();
      Engine.AddTargetSound(old(View()));
      if old(Valid()) {
        Engine.AddTargetInv(old(View()));
      }
    }

    /** AddTargetButton_Click as the source has it: the new destination is
        listed and the pipeline reconfigured, but the other destinations keep
        the option lists they had. The window stays sound and a placed list
        stays placed, click after click; Engine.StaleOptionsAllowDuplicate
        shows the lists going stale. */
    method AddTargetAsWritten()
      requires Sound()
      modifies this, targets
      ensures Sound() && View() == Engine.AddTargetAsWritten(old(View()))
      ensures old(Engine.Placed(View())) ==> Engine.Placed(View())
      ensures targets == old(targets) ||
              (|targets| == |old(targets)| + 1 && targets[..|old(targets)|] == old(targets) &&
               fresh(targets[|old(targets)|]))
      ensures activeTarget == old(activeTarget) && increase == old(increase) && repeating == old(repeating)
    {
      if |targets| >= Engine.MAX_TARGETS {
        return;
      }
      var available := Engine.AvailableIn(View());
      if |available| == 0 {
        return;  // a message box tells the user why
      }
      var t := Enlist(available);
      assert View() == Engine.Append(old(View()));
      Reconfigure();
      Engine.AddTargetAsWrittenKeeps(old(View()));
      if activeTarget != null && activeTarget in targets {
        ListedOk(activeTarget);
      }
    }

    /** Entry k leaves the list and the pipeline is reconfigured. */
    method Withdraw(k: int)
      requires Sound() && 0 <= k < |targets|
      modifies this, targets
      ensures Sound() && View() == Engine.RemoveTarget(old(View()), k)
      ensures old(Valid()) ==> Valid()
      ensures targets == old(targets)[..k] + old(targets)[k + 1..] && old(targets)[k] !in targets
      ensures old(targets)[k].View() == old(targets[k].View())
      ensures old(isRecording && targets[k].device.Some?) ==> old(targets)[k].output
      ensures activeTarget == old(activeTarget) && increase == old(increase) && repeating == old(repeating)
    {
      assert old(View()).slots[k] == targets[k].View();
      Drop(k);
      Reconfigure();
      Engine.RemoveTargetSound(old(View()), k);
      if old(Valid()) {
        Engine.RemoveTargetInv(old(View()), k);
      }
    }

    /** The remove handler as the source has it. The removed TargetControl
        is no longer listed, so the stop of the reconfiguration does not
        reach it: while recording, its output stays open. */
    method RemoveTargetAsWritten(t: Target)
      requires Sound() && t in targets
      modifies this, targets
      ensures Sound() && (old(Valid()) ==> Valid())
      ensures var k := IndexOf(old(targets), t);
              targets == old(targets)[..k] + old(targets)[k + 1..] &&
              View() == Engine.RemoveTarget(old(View()), k)
      ensures t !in targets && t.View() == old(t.View())
      ensures old(isRecording) && old(t.device).Some? ==> t.output
      ensures activeTarget == old(activeTarget) && increase == old(increase) && repeating == old(repeating)
    {
      var k := IndexOf(targets, t);
      Withdraw(k);
    }

    /** The remove handler with the removed destination's output, buffer
        and volume provider released as well, as StopButton_Click releases
        those of the listed ones. */
    method RemoveTarget(t: Target)
      requires Sound() && t in targets
      modifies this, targets
      ensures Sound() && (old(Valid()) ==> Valid())
      ensures var k := IndexOf(old(targets), t);
              targets == old(targets)[..k] + old(targets)[k + 1..] &&
              View() == Engine.RemoveTarget(old(View()), k)
      ensures t !in targets && t.View() == Released(old(t.View()))
      ensures activeTarget == old(activeTarget) && increase == old(increase) && repeating == old(repeating)
    {
      ListedOk(t);
      RemoveTargetAsWritten(t);
      ReleaseAudio(t);
    }

    /** The combo box of destination `k` selects `d`. */
    method Choose(k: int, d: Option<Device>)
      requires Unaliased() && HoldOk() && 0 <= k < |targets|
      modifies targets[k]
      ensures View() == old(View()).(slots := old(View()).slots[k := old(View()).slots[k].(device := d)])
      ensures HoldOk()
    {
      targets[k].device := d;
      assert Slots() == old(Slots())[k := old(Slots())[k].(device := d)];
    }

    /** TargetComboBox_SelectionChanged, after the combo box of `t` selected
        `d` among the devices it lists (or nothing). */
    method SelectTargetDevice(t: Target, d: Option<Device>)
      requires Sound() && t in targets
      requires d.None? || d.value in t.options
      modifies this, targets
      ensures Sound() && View() == Engine.SelectTarget(old(View()), IndexOf(old(targets), t), d)
      ensures old(Valid()) ==> Valid()
      ensures targets == old(targets) && activeTarget == old(activeTarget)
      ensures increase == old(increase) && repeating == old(repeating)
    {
      var k := IndexOf(targets, t);
      Choose(k, d);
      Settle();
      Engine.SelectTargetSound(old(View()), k, d);
      if old(Valid()) {
        Engine.SelectTargetInv(old(View()), k, d);
      }
    }

    /** ChangeVolume on the listed destination `k`, seen from the window. */
    method NudgeAt(k: int, up: bool)
      requires Unaliased() && 0 <= k < |targets|
      modifies targets[k]
      ensures targets[k].View() == Nudge(old(targets[k].View()), up)
      ensures View() == Engine.ChangeVolumeAt(old(View()), k, up)
    {
      ChangeVolume(targets[k], up);
      assert Slots() == old(View()).slots[k := Nudge(old(View()).slots[k], up)];
    }

    /** PreviewMouseLeftButtonDown on the + or - button of `t`: the hold is
        recorded, one nudge is applied at once and the repeat timer starts. */
    method PressVolume(t: Target, up: bool)
      requires Sound() && t in targets
      modifies this, t
      ensures Sound() && (old(Valid()) ==> Valid())
      ensures activeTarget == t && increase == up && repeating
      ensures targets == old(targets) && View() == Engine.ChangeVolumeAt(old(View()), IndexOf(targets, t), up)
    {
      var k := IndexOf(targets, t);
      ghost var c := View();
      assert Engine.Sound(c) && |c.slots| == |targets|;
      activeTarget := t;
      increase := up;
      NudgeAt(k, increase);
      ghost var after := View();
      repeating := true;  // a 100 ms repeat timer is started
      assert View() == after;
      HeldNudged(c, k, up);
    }

    /** Once listed destination k holds the nudge and the hold, the window is
        sound, and valid if it was before the nudge. */
    lemma HeldNudged(c: Engine.Config, k: int, up: bool)
      requires Unaliased() && 0 <= k < |c.slots| && 0 <= k < |targets|
      requires activeTarget == targets[k] && repeating
      requires Engine.Sound(c) && View() == Engine.ChangeVolumeAt(c, k, up)
      ensures Sound()
      ensures Engine.Inv(c) ==> Valid()
    {
      Engine.ChangeVolumeSound(c, k, up);
      if Engine.Inv(c) {
        Engine.ChangeVolumeInv(c, k, up);
      }
      ListedOk(targets[k]);
    }

    /** PreviewMouseLeftButtonUp and MouseLeave (the same body): the timer is
        stopped and the hold forgotten; a second call finds nothing to do. */
    method ReleaseVolume()
      requires Sound()
      modifies this
      ensures Sound() && (old(Valid()) ==> Valid())
      ensures activeTarget == null && !repeating
      ensures View() == old(View()) && targets == old(targets) && increase == old(increase)
    {
      repeating := false;  // the repeat timer is stopped and dropped
      activeTarget := null;
    }

    /** RepeatTimer_Tick. A tick may still arrive with no hold in progress (a
        timer the source replaced without stopping keeps ticking); it then
        changes nothing. A hold on a destination that has been removed changes
        only that unlisted object. */
    method Tick()
      requires Sound()
      modifies activeTarget
      ensures Sound() && (old(Valid()) ==> Valid())
      ensures activeTarget != null ==> activeTarget.View() == Nudge(old(activeTarget.View()), increase)
      ensures activeTarget != null && activeTarget in targets ==>
                View() == Engine.ChangeVolumeAt(old(View()), IndexOf(targets, activeTarget), increase)
      ensures activeTarget !in targets ==> View() == old(View())
    {
      if activeTarget != null {
        ChangeVolume(activeTarget, increase);
        if activeTarget in targets {
          var k := IndexOf(targets, activeTarget);
          assert View() == Engine.ChangeVolumeAt(old(View()), k, increase) by {
            assert Slots() == old(View()).slots[k := Nudge(old(View()).slots[k], increase)];
          }
          Engine.ChangeVolumeSound(old(View()), k, increase);
          if old(Valid()) {
            Engine.ChangeVolumeInv(old(View()), k, increase);
          }
        } else {
          assert Slots() == old(Slots());
        }
      }
    }
  }
  /** Two clicks of the add button as the source has it, on devices 0, 1, 2
      with source 0: destination 0's list still offers device 2, which
      destination 1 took. */
  method AddTwiceAsWritten() returns (w: Duplicator)
    ensures fresh(w) && w.Sound() && |w.targets| == 2
    ensures fresh(w.targets[0]) && fresh(w.targets[1])
    ensures Device(2) in w.targets[0].options && w.targets[1].device == Some(Device(2))
  {
    w := new Duplicator([Device(0), Device(1), Device(2)]);
    w.AddTargetAsWritten();
    w.AddTargetAsWritten();
    Engine.StaleOptionsAllowDuplicate();
    assert w.View().slots[0] == w.targets[0].View() && w.View().slots[1] == w.targets[1].View();
  }

  /** The first finding's trace on the window itself: after the two clicks,
      destination 0 selects device 2 from its stale list. The window stays
      sound, but two destinations now share device 2. */
  method StaleTrace() returns (w: Duplicator)
    ensures w.Sound() && !w.Valid()
    ensures |w.targets| == 2
    ensures w.targets[0].device == Some(Device(2)) && w.targets[1].device == Some(Device(2))
  {
    w := AddTwiceAsWritten();
    w.SelectTargetDevice(w.targets[0], Some(Device(2)));
    assert w.View().slots[0] == w.targets[0].View() && w.View().slots[1] == w.targets[1].View();
  }
}
