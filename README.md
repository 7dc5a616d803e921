# AudioDuplicator: a model of the duplication engine

AudioDuplicator captures the audio an output device plays (WASAPI loopback)
and sends the same sound to up to five other output devices, each with its own
volume. All of its logic lives in `AudioDuplicator/MainWindow.xaml.cs`. That
file defines:

- the device list (`LoadDevices`, `GetAvailableTargets`);
- the destination list (add and remove handlers, the two `SelectionChanged`
  handlers);
- the audio path (`StartButton_Click`, `AddTargetAudio`, the `DataAvailable`
  fan-out, `StopButton_Click`);
- the hold-to-repeat volume buttons (`SetupHoldButton`, `RepeatTimer_Tick`,
  `ChangeVolume`).

The model has two layers.

- **A value layer.** These modules describe the window as a value and each
  handler as a function on that value:
  - `Registry`: devices and the available-devices filter.
  - `Volume`: the volume arithmetic.
  - `Channel`: one destination as a value, and the per-destination steps.
  - `Engine`: the whole window as a value, one function per handler, an
    invariant `Inv`, and lemmas that every handler keeps `Inv`.

  `Inv` says:
  - there are at most five destinations;
  - no two destinations have selected the same device;
  - volumes stay in [0, 100];
  - every device a destination's list offers is enumerated, and is either that
    destination's own selection or free (not the source, not selected
    elsewhere);
  - capturing happens exactly while recording, and recording needs a source
    and a destination;
  - while recording, exactly the destinations with a selected device have a
    live output, with a buffer and a volume provider set to their volume.
- **An imperative layer.** `Window` has the classes `Target` (a
  TargetControl) and `Duplicator` (the MainWindow fields). Every handler is a
  method that changes the fields in place. Its postcondition says that the new
  value of the window equals the engine function applied to its old value, so
  the engine's lemmas carry over. `Duplicator.Valid` combines:
  - `Engine.Inv` of the current value;
  - the list holds no object twice;
  - the hold state: `activeTarget` is set exactly while a repeat timer runs.

  The handler methods follow the code as written, with two exceptions. These
  are the corrected handlers of the two findings below:
  - `Window.Duplicator.AddTarget` also refreshes every option list after the
    add;
  - `Window.Duplicator.RemoveTarget` also releases the removed destination's
    audio path.

  The handlers as written are `Window.Duplicator.AddTargetAsWritten` and
  `Window.Duplicator.RemoveTargetAsWritten`.

  After an add as written, the other destinations' lists are stale. Selecting
  from a stale list can give two destinations the same device, so `Valid` no
  longer holds, yet the program goes on running every handler. The handlers
  are therefore specified on a weaker predicate, `Duplicator.Sound`:
  - the list holds no object twice;
  - the hold is consistent;
  - `Engine.Sound`: at most five destinations, volumes in range, and a
    consistent audio path.

  Every handler requires `Sound`, plus only what its event guarantees (a
  device the combo box lists, a live capture), and keeps it. Every handler except the
  add as written also keeps `Valid` when it held before. The add as written
  keeps the list placed (exclusive, enumerated devices) when it was placed.
  `Window.StaleTrace` runs the first finding's trace through these methods.

Each external resource is modelled by whether it exists:

| resource | modelled as |
|---|---|
| WasapiLoopbackCapture | the flag `capturing` |
| WasapiOut | the flag `output` |
| DispatcherTimer | the flag `repeating` |
| BufferedWaveProvider | the sequence of bytes handed to it (`buffer`) |
| VolumeSampleProvider | the volume it applies (`gain`) |

A device is modelled by an identifier.

The model follows the code where it is looser than a validating engine would
be:

- Start does not check for duplicate assignments. It checks only that there is
  a source and at least one destination.
- In the code, an exception from creating, initialising or starting one
  destination's output is not caught per destination. It would abort the
  whole start after the capture was opened and before recording is set. The
  model lets no open fail, so this path is not modelled (see "## Left out").
- Selecting a source that a destination already plays to is allowed.
  `Engine.SourceMayEqualTarget` shows this: the model's invariant still holds,
  but that destination then receives its own loopback.

## Model

| member | source | states |
|---|---|---|
| Registry.Available | AudioDuplicator/MainWindow.xaml.cs:69-74 | the available devices keep the enumeration order (a subsequence of `devices`); a device is offered exactly when it is enumerated, is not the source and is not selected by any destination |
| Registry.AvailableCounts | AudioDuplicator/MainWindow.xaml.cs:69-74 | a device that is not the source and not in use occurs in the result as often as in the enumeration; any other device does not occur; so the result is fixed even for an enumeration with repeats |
| Registry.NoneAvailable | AudioDuplicator/MainWindow.xaml.cs:96-101 | the add handler's "no device" refusal happens exactly when every enumerated device is the source or already in use |
| Volume.Stepped | AudioDuplicator/MainWindow.xaml.cs:217-225 | whatever the old volume, the new one lies in [0, 100]; from an in-range volume, up is min(v + 1, 100) and down is max(v - 1, 0) |
| Volume.StepUndone | AudioDuplicator/MainWindow.xaml.cs:217-225 | a step up followed by a step down restores the volume, except at 100 where the first step was clamped (result 99); symmetrically at 0 |
| Volume.StepMoves | AudioDuplicator/MainWindow.xaml.cs:217-225 | a nudge changes the volume if and only if the volume is not already at the bound it moves towards |
| Volume.RepeatedSaturates | AudioDuplicator/MainWindow.xaml.cs:211-225 | a press followed by ticks, n nudges in all, moves the volume by n steps and saturates at 0 or 100 |
| Channel.Current | AudioDuplicator/MainWindow.xaml.cs:80-81 | the selection as a list: a device is in it exactly when it is the destination's selected device |
| Channel.NewSlot | AudioDuplicator/MainWindow.xaml.cs:110-141 | a new destination lists the available devices, selects the first one, has volume 1, and has no output, buffer or volume provider |
| Window.Target.constructor | AudioDuplicator/MainWindow.xaml.cs:133-141 | the new TargetControl's fields are the new destination of `Channel.NewSlot` |
| Channel.Opened | AudioDuplicator/MainWindow.xaml.cs:232-252 | a destination with no selected device is left exactly as it was; one with a device gets an empty buffer, a volume provider at its own volume and a live output, and its settings are kept |
| Window.Duplicator.AddTargetAudio | AudioDuplicator/MainWindow.xaml.cs:232-252 | needs a live capture; the destination's new fields are those of `Channel.Opened` |
| Channel.Released | AudioDuplicator/MainWindow.xaml.cs:290-297 | output, buffer and volume provider are all gone; device, option list and volume are kept |
| Channel.ReleasedTwice | AudioDuplicator/MainWindow.xaml.cs:290-297 | releasing a destination a second time changes nothing |
| Channel.Deliver | AudioDuplicator/MainWindow.xaml.cs:271 | with a buffer, the batch is queued behind the bytes already there; without one, nothing changes; the other fields are kept |
| Channel.DeliverInOrder | AudioDuplicator/MainWindow.xaml.cs:268-272 | two batches delivered one after the other leave the buffer as one delivery of both, in capture order |
| Channel.Nudge | AudioDuplicator/MainWindow.xaml.cs:217-230 | the volume is `Volume.Stepped` of the old one; a live volume provider takes the new volume; a destination that was consistent stays consistent |
| Engine.Used | AudioDuplicator/MainWindow.xaml.cs:72 | a device is used exactly when some destination has selected it |
| Engine.AvailableIn | AudioDuplicator/MainWindow.xaml.cs:69-74 | on the window's state, the available devices keep the enumeration order; a device is offered exactly when it is enumerated, is not the source and is selected by no destination |
| Engine.Initial | AudioDuplicator/MainWindow.xaml.cs:54-67 | the enumerated devices are kept; the first is the source (none if the enumeration came back empty); there are no destinations; nothing runs; the invariant holds |
| Window.Duplicator.constructor | AudioDuplicator/MainWindow.xaml.cs:48-67 | the new window's value is `Engine.Initial` of the enumeration, with no hold in progress; the window is valid |
| Channel.Offer | AudioDuplicator/MainWindow.xaml.cs:81 | refilling a destination's combo box changes only its list: device, volume, buffer, volume provider and output are kept |
| Channel.Offered | AudioDuplicator/MainWindow.xaml.cs:81 | the refilled list is the available devices in their order followed by the destination's own selection (if any), and offers exactly those |
| Window.Duplicator.OfferTo | AudioDuplicator/MainWindow.xaml.cs:172 | the TargetControl's fields become `Channel.Offer` of what they were |
| Engine.Refresh | AudioDuplicator/MainWindow.xaml.cs:78-82 | every destination's list becomes the currently available devices followed by its own selection; nothing else changes |
| Engine.RefreshSettled | AudioDuplicator/MainWindow.xaml.cs:78-82 | after a refresh, every list offers only enumerated devices that are free or the destination's own selection |
| Window.Duplicator.RefreshOptions | AudioDuplicator/MainWindow.xaml.cs:78-82 | the loop over the targets leaves the window equal to `Engine.Refresh` of its old value |
| Window.Duplicator.OfferAll | AudioDuplicator/MainWindow.xaml.cs:169-173 | every listed destination has had its list replaced by the given devices plus its own selection, and nothing else of it changed |
| Engine.Stop | AudioDuplicator/MainWindow.xaml.cs:281-302 | capture and recording end; every destination loses its output, buffer and volume provider; device, list and volume of each are kept |
| Engine.StopInv | AudioDuplicator/MainWindow.xaml.cs:281-302 | stopping a window whose destination list is settled gives a window that satisfies the whole invariant, whatever its audio path was |
| Engine.StopTwice | AudioDuplicator/MainWindow.xaml.cs:281-302 | stop is idempotent: a second stop changes nothing |
| Engine.StopSound | AudioDuplicator/MainWindow.xaml.cs:281-302 | stopping a window with at most five destinations and in-range volumes gives a sound window, whatever its audio path was |
| Window.Duplicator.Stop | AudioDuplicator/MainWindow.xaml.cs:281-302 | the new value is `Engine.Stop` of the old one; the hold state and the list are kept; a sound window stays sound and a valid one valid |
| Window.Duplicator.ReleaseAll | AudioDuplicator/MainWindow.xaml.cs:290-297 | every listed destination ends as `Channel.Released` of what it was |
| Window.Duplicator.ReleaseAudio | AudioDuplicator/MainWindow.xaml.cs:292-296 | the destination ends as `Channel.Released` of what it was; an unlisted destination's release leaves the window's value alone |
| Engine.Start | AudioDuplicator/MainWindow.xaml.cs:254-279 | with no source or no destination it changes nothing; otherwise capture and recording begin and every destination is `Channel.Opened`; settings are kept in both cases |
| Engine.StartInv | AudioDuplicator/MainWindow.xaml.cs:254-279 | start keeps the invariant |
| Engine.StartSound | AudioDuplicator/MainWindow.xaml.cs:254-279 | start keeps a sound window sound: the destinations it skips already had no output |
| Window.Duplicator.Start | AudioDuplicator/MainWindow.xaml.cs:254-279 | the new value is `Engine.Start` of the old one; the hold state and the list are kept; a sound window stays sound and a valid one valid |
| Window.Duplicator.OpenAll | AudioDuplicator/MainWindow.xaml.cs:265-266 | every listed destination ends as `Channel.Opened` of what it was |
| Engine.Restart | AudioDuplicator/MainWindow.xaml.cs:84-88 | when not recording nothing changes; afterwards the window is recording exactly when it was and start's conditions still hold; settings are kept |
| Engine.RestartRunning | AudioDuplicator/MainWindow.xaml.cs:84-88 | a placed window (running consistently if it was idle) stays placed and has a consistent audio path after the stop-then-start cycle, whatever its option lists |
| Engine.RestartInv | AudioDuplicator/MainWindow.xaml.cs:84-88 | a settled window (running consistently if it was idle) is consistent after the stop-then-start cycle |
| Engine.RestartSound | AudioDuplicator/MainWindow.xaml.cs:84-88 | a bounded window (running consistently if it was idle) is sound after the stop-then-start cycle, whatever its option lists |
| Window.Duplicator.Reconfigure | AudioDuplicator/MainWindow.xaml.cs:84-88 | the new value is `Engine.Restart` of the old one; the hold state is kept; the window is sound once its value is, and valid once the engine invariant holds |
| Engine.RefreshSound | AudioDuplicator/MainWindow.xaml.cs:78-82 | refreshing the lists keeps the capacity, the volumes and (when idle) the audio path |
| Window.Duplicator.Settle | AudioDuplicator/MainWindow.xaml.cs:76-89 | refreshing the lists then reconfiguring gives `Engine.Restart(Engine.Refresh(old))`; the hold state and list are kept; the window is sound (valid) once its value is |
| Engine.Append | AudioDuplicator/MainWindow.xaml.cs:158 | the list grows by exactly one entry at its end, the new destination on the available devices; the old entries, devices, source and flags are kept |
| Engine.AppendPlaced | AudioDuplicator/MainWindow.xaml.cs:110-158 | appending a destination below capacity on the first available device keeps at most five destinations with exclusive, enumerated devices and in-range volumes |
| Engine.AddTargetAsWritten | AudioDuplicator/MainWindow.xaml.cs:91-165 | refused (no change) at five destinations or with no available device; otherwise exactly one destination more, on the first available device with the available devices as its list and volume 1; the old destinations keep device, volume and the option lists they had; recording survives exactly when it was on (a source exists) |
| Engine.AppendSound | AudioDuplicator/MainWindow.xaml.cs:133-158 | appending a destination below capacity keeps the volumes in range, and an idle window's audio path consistent |
| Engine.AddTargetAsWrittenKeeps | AudioDuplicator/MainWindow.xaml.cs:91-165 | from any sound window, even one with stale lists, the add as written gives a sound window; a placed list (exclusive, enumerated devices) stays placed; the settled option lists are not kept |
| Engine.AddTargetSound | AudioDuplicator/MainWindow.xaml.cs:91-165 | the corrected add also keeps a sound window sound |
| Engine.StaleOptionsAllowDuplicate | AudioDuplicator/MainWindow.xaml.cs:158-164 | devices 0, 1, 2 with source 0: after two adds as written, destination 0 still offers device 2, which destination 1 took, and selecting it gives two destinations the same device |
| Engine.AddTarget | AudioDuplicator/MainWindow.xaml.cs:91-165 | refused (no change) at five destinations or with no available device; otherwise exactly one destination more, on the first available device at volume 1, the others keep device and volume, and recording survives exactly when it was on (a source exists) |
| Engine.AddTargetInv | AudioDuplicator/MainWindow.xaml.cs:91-165 | adding a destination keeps the invariant: capacity, exclusive devices, settled lists, consistent audio path |
| Engine.AddTargetPicksFree | AudioDuplicator/MainWindow.xaml.cs:96-112 | the new destination's device is enumerated, is not the source and is not selected by any other destination |
| Window.Duplicator.Enlist | AudioDuplicator/MainWindow.xaml.cs:133-158 | a fresh TargetControl built from the available devices is appended and the list stays free of duplicates |
| Window.Duplicator.AddTargetAsWritten | AudioDuplicator/MainWindow.xaml.cs:91-165 | the handler as written, from any sound window: the new value is `Engine.AddTargetAsWritten` of the old one; the list is unchanged, or is the old list followed by one fresh object; the hold state is kept; the window stays sound, and a placed list stays placed |
| Window.Duplicator.AddTarget | AudioDuplicator/MainWindow.xaml.cs:91-165 | the corrected add handler of the first finding, which also refreshes the option lists: the new value is `Engine.AddTarget` of the old one; the list is unchanged, or is the old list followed by one fresh object; the hold state is kept; a sound window stays sound and a valid one valid |
| Window.AddTwiceAsWritten | AudioDuplicator/MainWindow.xaml.cs:91-165 | two clicks of the add button as written on devices 0, 1, 2: the window is sound with two fresh destinations, and destination 0's list still offers device 2, which destination 1 has |
| Window.StaleTrace | AudioDuplicator/MainWindow.xaml.cs:158-180 | the first finding's trace on the window's methods: after two adds as written, destination 0 selects device 2 from its stale list; both destinations then have device 2, and the window is sound but not valid |
| Window.IndexOf | AudioDuplicator/MainWindow.xaml.cs:150 | the first position of the object in the list, -1 exactly when it is absent: the entry `List.Remove` deletes |
| Engine.RemoveTarget | AudioDuplicator/MainWindow.xaml.cs:147-156 | the settings are those of the list without entry k; recording survives exactly when it was on, a source exists and a destination is left |
| Window.Duplicator.Drop | AudioDuplicator/MainWindow.xaml.cs:150 | exactly entry k leaves the list, which stays free of duplicates and no longer holds the removed object; the window's value loses exactly destination k |
| Engine.RemovedSettled | AudioDuplicator/MainWindow.xaml.cs:150 | deleting an entry keeps the destination list settled |
| Engine.RemoveTargetInv | AudioDuplicator/MainWindow.xaml.cs:147-156 | removing a destination keeps the invariant |
| Engine.RemoveLastStops | AudioDuplicator/MainWindow.xaml.cs:147-156 | removing the only destination while recording leaves no capture, no recording and an empty list |
| Engine.RemoveTargetSound | AudioDuplicator/MainWindow.xaml.cs:147-156 | removing a destination keeps a sound window sound |
| Window.Duplicator.Withdraw | AudioDuplicator/MainWindow.xaml.cs:150-155 | from any sound window, the entry leaves the list and the window is reconfigured (`Engine.RemoveTarget`); the removed object is not touched, so it still has the output it had while recording; a sound window stays sound and a valid one valid |
| Window.Duplicator.RemoveTargetAsWritten | AudioDuplicator/MainWindow.xaml.cs:147-156 | from any sound window, the new value is `Engine.RemoveTarget` at the object's first position; the removed object is unlisted and unchanged, so while recording its output stays live; a sound window stays sound and a valid one valid |
| Window.Duplicator.RemoveTarget | AudioDuplicator/MainWindow.xaml.cs:147-156 | the corrected remove handler of the second finding: as the handler as written, and the removed object ends with no output, buffer or volume provider |
| Engine.SelectSource | AudioDuplicator/MainWindow.xaml.cs:76-89 | the new source is in place; every destination keeps its device and volume; recording survives exactly when it was on, a source is selected and a destination exists |
| Engine.SelectSourceInv | AudioDuplicator/MainWindow.xaml.cs:76-89 | changing the source keeps the invariant; the lists are refreshed against the new source |
| Engine.SourceMayEqualTarget | AudioDuplicator/MainWindow.xaml.cs:76-89 | choosing as the source the device of an existing destination is accepted, and that destination keeps it |
| Window.Duplicator.SetSource | AudioDuplicator/MainWindow.xaml.cs:76 | only the source changes in the window's value |
| Engine.SelectSourceSound | AudioDuplicator/MainWindow.xaml.cs:76-89 | changing the source keeps a sound window sound |
| Window.Duplicator.SelectSource | AudioDuplicator/MainWindow.xaml.cs:76-89 | from any sound window, the new value is `Engine.SelectSource` of the old one; the hold state and the list are kept; a sound window stays sound and a valid one valid |
| Engine.SelectTarget | AudioDuplicator/MainWindow.xaml.cs:167-180 | destination k now has the chosen device; the other destinations keep theirs; all keep their volume; recording survives exactly when it was on and a source exists |
| Engine.ChosenPlaced | AudioDuplicator/MainWindow.xaml.cs:167-172 | selecting a device the destination's list offers keeps the devices exclusive |
| Engine.SelectTargetInv | AudioDuplicator/MainWindow.xaml.cs:167-180 | selecting an offered device (or none) keeps the invariant |
| Window.Duplicator.Choose | AudioDuplicator/MainWindow.xaml.cs:167 | only destination k's selection changes in the window's value; the hold stays consistent |
| Engine.SelectTargetSound | AudioDuplicator/MainWindow.xaml.cs:167-180 | selecting any device, offered by a fresh or a stale list, keeps a sound window sound |
| Window.Duplicator.SelectTargetDevice | AudioDuplicator/MainWindow.xaml.cs:167-180 | from any sound window, the new value is `Engine.SelectTarget` at the object's position; the hold state and the list are kept; a sound window stays sound and a valid one valid |
| Engine.ChangeVolumeAt | AudioDuplicator/MainWindow.xaml.cs:217-230 | only destination k changes, and its volume is one clamped step from the old one; no stop or start happens |
| Engine.ChangeVolumeInv | AudioDuplicator/MainWindow.xaml.cs:217-230 | a nudge keeps the invariant |
| Window.Duplicator.ChangeVolume | AudioDuplicator/MainWindow.xaml.cs:217-230 | the destination ends as `Channel.Nudge` of what it was |
| Window.Duplicator.NudgeAt | AudioDuplicator/MainWindow.xaml.cs:217-230 | nudging listed destination k leaves the window equal to `Engine.ChangeVolumeAt` of its old value |
| Engine.DataArrived | AudioDuplicator/MainWindow.xaml.cs:268-272 | every destination with a buffer has the batch appended; the others and all settings, flags and handles are untouched |
| Engine.DataArrivedInv | AudioDuplicator/MainWindow.xaml.cs:268-272 | fan-out keeps the invariant |
| Engine.DataInOrder | AudioDuplicator/MainWindow.xaml.cs:268-272 | fan-out of two batches in turn equals fan-out of both at once: every destination receives the bytes in capture order |
| Engine.StartThenData | AudioDuplicator/MainWindow.xaml.cs:263-272 | after an accepted start from idle, one captured batch reaches exactly the destinations with a device, each then holding exactly that batch |
| Engine.DataArrivedSound | AudioDuplicator/MainWindow.xaml.cs:268-272 | fan-out keeps a sound window sound |
| Window.Duplicator.OnDataAvailable | AudioDuplicator/MainWindow.xaml.cs:268-272 | from any sound window with a capture, the first `bytesRecorded` bytes of the batch go to every buffer (`Engine.DataArrived`); a sound window stays sound and a valid one valid |
| Engine.ChangeVolumeSound | AudioDuplicator/MainWindow.xaml.cs:217-230 | a nudge keeps a sound window sound |
| Window.Duplicator.HeldNudged | AudioDuplicator/MainWindow.xaml.cs:184-194 | once the held, listed destination has had its nudge and the timer runs, the window is sound, and valid if the engine invariant held before |
| Window.Duplicator.PressVolume | AudioDuplicator/MainWindow.xaml.cs:184-194 | from any sound window, the hold records the destination and direction, one nudge is applied at once (`Engine.ChangeVolumeAt`) and the repeat timer runs; a sound window stays sound and a valid one valid |
| Window.Duplicator.ReleaseVolume | AudioDuplicator/MainWindow.xaml.cs:196-208 | from any sound window, the timer is gone and no destination is held; the window's value is unchanged; calling it again changes nothing further; a sound window stays sound and a valid one valid |
| Window.Duplicator.Tick | AudioDuplicator/MainWindow.xaml.cs:211-215 | from any sound window: with no hold nothing changes; otherwise the held destination is nudged in the held direction, and if it is no longer listed the window's value is unchanged; a sound window stays sound and a valid one valid |

## Left out

- Window layout, labels, `MessageBox` and the enabled flags of the Start and Stop buttons are not modelled. A refusal that shows a message is a return that changes nothing.
- Endpoint enumeration (NAudio `MMDeviceEnumerator`) is the constructor's parameter. A failed enumeration is the empty list; the error message is not modelled.
- NAudio capture and playback objects are not modelled: their construction, `Init`, `Play`, `StartRecording`, `Dispose` and their exceptions. Each is assumed to succeed and is modelled as a flag. In particular, the model has no path where an exception from one destination's output (AudioDuplicator/MainWindow.xaml.cs:245-247) aborts the start after the capture was opened and before recording is set.
- Buffer overflow (`DiscardOnBufferOverflow`) and the draining of buffers by playback are not modelled. The buffer is the record of all bytes handed to it, so its bounded size is not captured.
- The scaling of samples by `VolumeSampleProvider` is not modelled, only the volume it is set to. The volume is a float in the source; the model uses an int, which is exact because every reachable value is a whole number in [0, 100].
- Timer timing and the 100 ms interval are not modelled. A tick is a call that may come at any moment, even after its timer was replaced or stopped.
- Concurrency between the capture thread's `DataAvailable` callback and the UI thread is not modelled. A callback is one atomic call, and runs only while a capture exists.
- A second press on a hold button without a release replaces `repeatTimer` without stopping the old timer. The orphaned timer is not modelled as a separate object. Its ticks act on the same `activeTarget`, which is what `Tick` models.
- Start while already recording cannot happen (the button is disabled), and the capture it would leak is not modelled. Start is reached while recording only through the stop-then-start reconfiguration.
- Re-entrant `SelectionChanged` events raised when `ItemsSource` is reassigned are not modelled. The selection is kept when the list is refilled.
- Window.Duplicator.SelectSource: requires the chosen device to be enumerated or none, because the source combo box lists only the enumerated devices.
- Window.Duplicator.SelectTargetDevice: requires the chosen device to be in that destination's own list or none, because the combo box offers only those.
- Engine.AddTargetAsWritten: its contract does not state the duplicate the stale lists let through. Engine.StaleOptionsAllowDuplicate states it.
- Window.Duplicator.AddTargetAsWritten: promises `Sound`, and a placed list staying placed, but not `Valid`, because the other destinations' option lists go stale (Engine.StaleOptionsAllowDuplicate, Window.StaleTrace).

## Findings

| source | as written | input that shows it | evidently intended | confidence | as-written member | corrected member |
|---|---|---|---|---|---|---|
| AudioDuplicator/MainWindow.xaml.cs:158-164 | after a destination is added, the other destinations' option lists are not refreshed, so they still offer the device the new one took | devices 0, 1, 2, source 0: add twice (destinations on devices 1 and 2), then select device 2 in destination 0 | every list offers only free devices and the own selection, as after the selection handlers, so no two destinations share a device | not executed | Engine.AddTargetAsWritten and Window.Duplicator.AddTargetAsWritten (shown by Engine.StaleOptionsAllowDuplicate and Window.StaleTrace) | Engine.AddTarget and Window.Duplicator.AddTarget (proved by Engine.AddTargetInv) |
| AudioDuplicator/MainWindow.xaml.cs:147-156 | the removed TargetControl leaves the list before the stop of the reconfiguration, which only iterates the list, so its WasapiOut is never stopped or disposed | recording with one destination on device 1, then click its remove button: nothing stops that output | the removed destination's output, buffer and volume provider are released | not executed | Window.Duplicator.RemoveTargetAsWritten | Window.Duplicator.RemoveTarget |
