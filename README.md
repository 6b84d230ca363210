# Sony Home Assistant integration: a verified model

This project models the core of the Sony custom integration for Home Assistant
(`custom_components/sony`). That core has five parts:

- **The poll tick** (`coordinator.py`). A tick runs every `update_interval`
  seconds, five by default. A device that is not initialised is probed first.
  If it answers, the client library is initialised. An initialised device then
  has its power status read. When the power is on, its volume and playback
  status are read too. The tick publishes a snapshot dictionary for the
  entities, or raises `UpdateFailed`.
- **The remote entity** (`remote.py`). It mirrors the state string and toggles
  power on it. `send_command` sends IRCC codes, repeated and separated by pauses.
- **The media player entity** (`media_player.py`). It mirrors state, volume and
  muted. It keeps a local `_playing` flag for play/pause and forwards the other
  commands.
- **MAC address validation** (`helper.py`). This is a regular expression over
  the lower-cased address.
- **Pairing** (`config_flow.py`). `validate_input` either registers with the
  device or sends its PIN. `async_step_user` merges the inputs of the form steps
  and produces the next form, an error, an abort or a new config entry.

The Sony client library is not part of the model. Each answer it gives is an
input to the model:

- an `Oracle` for a poll tick;
- a `Pairing` for a validation.

Each call made to it is an `Event` appended to a trace (`device.dfy`). Python
dictionary values are the datatype `Values.PyValue`. `dict.get` is `Get` and
`dict.update` is `Overlay`.

The objects are classes whose methods update fields, as they do in the source:
`SonyCoordinator`, `SonyDeviceData`, `SonyRemoteEntity`,
`SonyMediaPlayerEntity` and `SonyConfigFlow`. Each state-changing method is tied
by its postcondition to a function of the old state:

- `InitDeviceStep`, `UpdateStateStep` and `UpdateDataStep` for the coordinator;
- `CommandTrace` for `send_command`;
- `PlayPause` for `media_play_pause`;
- `StepUser` for the config flow.

The properties are proved about those functions.

The classes model the code as written, including the defect described under
"## Findings". The corrected `init_device` is a separate definition:
`InitDeviceIntended`, with `UpdateStateIntended` and `RunIntended`. Its
intended properties are proved beside the as-written ones, so both behaviours
can be compared.

## Model

| member | source | states |
|---|---|---|
| Values.Option.GetOr | custom_components/sony/remote.py:134-135 | `kwargs.get(key, default)`: the given argument when present, the default otherwise |
| Values.Get | custom_components/sony/remote.py:98 | `d.get(key, default)`: the stored value when the key is present, the default otherwise |
| Values.Overlay | custom_components/sony/coordinator.py:57-58 | `dict.update`: every key of either map, the second map's value winning |
| Coordinator.InitialPoll | custom_components/sony/coordinator.py:72-80 | the starting device data: off, volume 0, not muted, not initialised, with the configured name and the library object's attributes; the invariant "not initialised implies off" holds |
| Coordinator.Normalize | custom_components/sony/coordinator.py:178-182 | the volume is the reading divided by 100, so readings 0..100 map into 0.0..1.0 |
| Coordinator.PlaybackState | custom_components/sony/coordinator.py:166-171 | "PLAYING" and only it gives playing, "PAUSED_PLAYBACK" and only it gives paused, any other string gives on, never off |
| Coordinator.InitDeviceStep | custom_components/sony/coordinator.py:82-126 | one probe always, a library initialisation only after a truthy response, initialised exactly when probe, library and name lookup all succeed, only a non-`requests` probe exception escapes, a non-empty name is copied to the library object and deleted, state/volume/muted untouched |
| Coordinator.InitDeviceIntended | custom_components/sony/coordinator.py:112-117 | corrected `init_device`: a non-empty name is still copied to the library object once and then forgotten, otherwise name and attributes are unchanged; the name is never left deleted; initialisation succeeds exactly when probe and library succeed |
| Coordinator.AfterInit | custom_components/sony/coordinator.py:133-176 | after a failed initialisation nothing more is asked; power off reports off and clears the init flag; a power error escapes; a volume error escapes with state on; a playback error reports off and clears the flag; otherwise the playback string decides the state; the call order is power, volume, playback; the invariant is preserved |
| Coordinator.UpdateStateStep | custom_components/sony/coordinator.py:128-176 | preserves "not initialised implies off"; a failed initialisation is the whole tick and reads no power status; an initialised device starts with the power status |
| Coordinator.UpdateStateIntended | custom_components/sony/coordinator.py:128-176 | the tick with the corrected `init_device`: preserves the invariant and never deletes the name |
| Coordinator.DeviceVars | custom_components/sony/coordinator.py:72-80 | `vars(device_data)` has exactly the keys coordinator, state, volume, muted and `_init`, each holding the device data's current value (state as its name) |
| Coordinator.UpdateDataStep | custom_components/sony/coordinator.py:50-66 | fails exactly when `update_state` raises, carrying its cause; otherwise the snapshot has every library attribute and device attribute; every device attribute (coordinator, state, volume, muted, `_init`) wins over the library's, and every other library attribute keeps its value |
| Coordinator.RunKeepsInv | custom_components/sony/coordinator.py:128-176 | after any number of ticks a device that is not initialised is reported off |
| Coordinator.NameAppliedAtMostOnce | custom_components/sony/coordinator.py:112-115 | once the name is not a string, no `update_state` tick changes the name or the library object's attributes (the snapshot copy of `_async_update_data` is separate) |
| Coordinator.DeletedNameNeverReinitializes | custom_components/sony/coordinator.py:112-122 | as written: with the name deleted and the device uninitialised, every later tick leaves it uninitialised and off, whatever the device answers |
| Coordinator.StuckOffAfterPowerCycle | custom_components/sony/coordinator.py:112-154 | as written: with a configured name, the ticks playing, standby, playing end with the device reported off and uninitialised |
| Coordinator.IntendedReinitializes | custom_components/sony/coordinator.py:128-171 | corrected: an uninitialised device whose probe and library succeed is initialised again and shows its playback state |
| Coordinator.IntendedNeverDeletes | custom_components/sony/coordinator.py:112-117 | corrected: over any number of ticks the name is never left deleted |
| Coordinator.IntendedNameAppliedAtMostOnce | custom_components/sony/coordinator.py:112-115 | corrected: once the name is forgotten, no tick changes it or the library object's attributes |
| Coordinator.IntendedPowerCycle | custom_components/sony/coordinator.py:112-176 | corrected: the same playing, standby, playing ticks end playing |
| Coordinator.SonyCoordinator.constructor | custom_components/sony/coordinator.py:29-48 | fresh device data in its initial state and an empty snapshot |
| Coordinator.SonyCoordinator.AsyncUpdateData | custom_components/sony/coordinator.py:50-66 | the new state, the calls and the result are those of `UpdateDataStep`; the snapshot is replaced only on success and is also written to the library object's attributes |
| Coordinator.SonyDeviceData.constructor | custom_components/sony/coordinator.py:72-80 | off, volume 0, not muted, not initialised |
| Coordinator.SonyDeviceData.InitDevice | custom_components/sony/coordinator.py:82-126 | the new state, calls and completion are those of `InitDeviceStep` |
| Coordinator.SonyDeviceData.UpdateVolume | custom_components/sony/coordinator.py:178-182 | one volume call; the normalised reading is stored, or the error escapes and the volume is unchanged |
| Coordinator.SonyDeviceData.UpdateState | custom_components/sony/coordinator.py:128-176 | the new state, calls and completion are those of `UpdateStateStep`, and the invariant is kept |
| Remote.RepeatLength | custom_components/sony/remote.py:140-141 | `n` rounds of a command carry `n` times its codes, none for `n <= 0` |
| Remote.RepeatAt | custom_components/sony/remote.py:140-141 | code `j` of round `q` sits at position `q * len(command) + j` |
| Remote.InterleaveAt | custom_components/sony/remote.py:147-148 | every code is sent at an even position and followed by one pause of the delay |
| Remote.SentCodesAppend | custom_components/sony/remote.py:147 | the codes sent by two consecutive traces are those of the first followed by those of the second |
| Remote.SentCodesOfInterleave | custom_components/sony/remote.py:147-148 | the pauses send no codes: the codes sent are exactly the codes, in order |
| Remote.CommandTraceShape | custom_components/sony/remote.py:132-148 | `send_command` sends the command's codes `num_repeats` times, in order, each followed by a pause |
| Remote.NothingSent | custom_components/sony/remote.py:140-141 | a non-positive repeat count or an empty command sends nothing |
| Remote.TwoCodesTwice | custom_components/sony/remote.py:140-148 | two codes repeated twice give send, pause, send, pause, four times in order |
| Remote.InterleaveSnoc | custom_components/sony/remote.py:147-148 | sending one more code adds exactly that send and one pause at the end |
| Remote.SonyRemoteEntity.constructor | custom_components/sony/remote.py:54-76 | the state is the snapshot's state, or none |
| Remote.SonyRemoteEntity.Update | custom_components/sony/remote.py:95-98 | the state is the snapshot's "state" entry, or none when it is absent |
| Remote.SonyRemoteEntity.TurnOn | custom_components/sony/remote.py:115-119 | sends power on |
| Remote.SonyRemoteEntity.TurnOff | custom_components/sony/remote.py:121-123 | sends power off |
| Remote.SonyRemoteEntity.Toggle | custom_components/sony/remote.py:125-130 | powers off exactly when the state is "on"; playing, paused, off or none power on |
| Remote.NonNegativeDelaySendsAll | custom_components/sony/remote.py:140-148 | a delay that is not negative never raises, and the whole trace is sent |
| Remote.NegativeDelayStopsAfterFirstSend | custom_components/sony/remote.py:140-148 | a negative delay sends only the command's first code and raises; with nothing to send nothing raises |
| Remote.SonyRemoteEntity.SendCommand | custom_components/sony/remote.py:132-148 | for the given or default repeat count and delay, sends exactly `CommandTrace` when the delay is not negative; with a negative delay the first `time.sleep` raises, so only the first code is sent and the call ends with an error |
| MediaPlayer.PlayPause | custom_components/sony/media_player.py:144-160 | play/pause flips the local flag and sends pause exactly when it was playing |
| MediaPlayer.PlayPauseAlternates | custom_components/sony/media_player.py:144-160 | repeated play/pause calls alternate play and pause, starting with play from a stopped flag |
| MediaPlayer.SonyMediaPlayerEntity.constructor | custom_components/sony/media_player.py:47-69 | state, volume and muted from the snapshot with their defaults; the flag starts not playing |
| MediaPlayer.SonyMediaPlayerEntity.Update | custom_components/sony/media_player.py:92-96 | copies state, volume (default 0) and muted (default false) from the snapshot and never touches the playing flag |
| MediaPlayer.SonyMediaPlayerEntity.UpdateVolume | custom_components/sony/media_player.py:98-102 | copies volume and muted only |
| MediaPlayer.SonyMediaPlayerEntity.TurnOn | custom_components/sony/media_player.py:136-138 | sends power on |
| MediaPlayer.SonyMediaPlayerEntity.TurnOff | custom_components/sony/media_player.py:140-142 | sends power off |
| MediaPlayer.SonyMediaPlayerEntity.MediaPlay | custom_components/sony/media_player.py:151-155 | sets the flag and sends play |
| MediaPlayer.SonyMediaPlayerEntity.MediaPause | custom_components/sony/media_player.py:157-160 | clears the flag and sends pause |
| MediaPlayer.SonyMediaPlayerEntity.MediaPlayPause | custom_components/sony/media_player.py:144-149 | one command, the new flag and that command as `PlayPause` of the old flag |
| MediaPlayer.SonyMediaPlayerEntity.MediaNextTrack | custom_components/sony/media_player.py:162-164 | sends next |
| MediaPlayer.SonyMediaPlayerEntity.MediaPreviousTrack | custom_components/sony/media_player.py:166-168 | sends previous |
| MediaPlayer.SonyMediaPlayerEntity.MediaStop | custom_components/sony/media_player.py:170-172 | sends stop |
| MediaPlayer.SonyMediaPlayerEntity.VolumeUp | custom_components/sony/media_player.py:174-179 | sends one volume step up and leaves the local volume alone |
| MediaPlayer.SonyMediaPlayerEntity.VolumeDown | custom_components/sony/media_player.py:181-186 | sends one volume step down and leaves the local volume alone |
| MediaPlayer.SonyMediaPlayerEntity.MuteVolume | custom_components/sony/media_player.py:188-191 | sends the mute toggle whatever `mute` asks for |
| Helper.LowerChar | custom_components/sony/helper.py:36 | upper-case ASCII letters map to lower case; every other character is kept as it is |
| Helper.Lower | custom_components/sony/helper.py:36 | `lower()` keeps the length and lowers each character |
| Helper.ValidateMacAddress | custom_components/sony/helper.py:35-39 | only 12 or 17 characters are ever accepted, or 13 or 18 ending in a newline |
| Helper.Body | custom_components/sony/helper.py:36 | `$` leaves the string without its final newline when it has one, and unchanged otherwise |
| Helper.ValidateMacMatchesSpec | custom_components/sony/helper.py:35-39 | the regex accepts exactly six hex pairs, either unseparated or all separated by the same ':' or '-', case-insensitively, optionally followed by one newline |
| Helper.CaseInsensitive | custom_components/sony/helper.py:36 | an address and its lower-cased form are judged alike |
| Helper.MixedSeparatorsRejected | custom_components/sony/helper.py:36 | two different separators in separator positions are rejected |
| Helper.LeadingCharacterRejected | custom_components/sony/helper.py:36 | `re.match` anchors at the start: a leading non-hex character is rejected |
| Helper.ColonExampleAccepted | custom_components/sony/helper.py:35-39 | a mixed-case colon address is accepted |
| Helper.PlainExampleAccepted | custom_components/sony/helper.py:35-39 | an unseparated address is accepted, also with one final newline |
| Helper.MixedExampleRejected | custom_components/sony/helper.py:35-39 | an address mixing ':' and '-' is rejected |
| Helper.TrailingCharacterRejected | custom_components/sony/helper.py:36 | a trailing space or a second newline is rejected |
| ConfigFlow.ResultValue | custom_components/sony/config_flow.py:82-90 | authentication results are stored as enumeration members |
| ConfigFlow.ResultValueInjective | custom_components/sony/config_flow.py:146 | different results are stored as different values, so only PIN_NEEDED compares equal to PIN_NEEDED |
| ConfigFlow.Paired | custom_components/sony/config_flow.py:98-105 | the entry data: every user key with the user's value, plus the authenticated flag and the device's mac where the user did not give them |
| ConfigFlow.RegistrationError | custom_components/sony/config_flow.py:80-90 | the failure data: every user key with the user's value, plus the result under "error" where the user did not give one |
| ConfigFlow.ValidateInput | custom_components/sony/config_flow.py:55-105 | a missing host or port raises `KeyError` before any call; registration happens exactly when the pin is falsy or "0000", and its success, PIN_NEEDED, other result or exception decides the outcome; otherwise the pin is sent once and its verdict is stored |
| ConfigFlow.ErrorCode | custom_components/sony/config_flow.py:154-165 | `CannotConnect` and `ValueError` show cannot_connect, `InvalidAuth` shows invalid_auth, every other exception shows unknown |
| ConfigFlow.Merge | custom_components/sony/config_flow.py:137-140 | the stored input becomes the earlier input with the new one's keys overriding, or the new input when nothing was stored |
| ConfigFlow.StepUser | custom_components/sony/config_flow.py:124-180 | empty input shows the first form and changes nothing; otherwise the merged input is stored and validated; an exception shows the first form with its error code; PIN_NEEDED shows the pin form with invalid_auth; a host that is already configured aborts; otherwise an entry is created for the host with the validated data |
| ConfigFlow.PinFormOnlyForPinNeeded | custom_components/sony/config_flow.py:75-92 | the pin form is shown exactly when registration was attempted and answered PIN_NEEDED |
| ConfigFlow.FirstStepAsksForPin | custom_components/sony/config_flow.py:75-86 | a first form without a pin registers, and a device that wants a pin brings up the pin form with the first input kept |
| ConfigFlow.SecondStepSendsPin | custom_components/sony/config_flow.py:94-105 | the pin form's input is merged into the first and the pin is sent; an accepted pin creates the entry with the pin, the flag and the mac added |
| ConfigFlow.FailedRegistrationCreatesEntry | custom_components/sony/config_flow.py:87-92 | a registration that answers ERROR is not shown as an error: an entry is created whose data carries the result and no authenticated flag |
| ConfigFlow.SonyConfigFlow.constructor | custom_components/sony/config_flow.py:115-122 | no stored input |
| ConfigFlow.SonyConfigFlow.AsyncStepUser | custom_components/sony/config_flow.py:124-180 | the stored input, the result and the library calls are those of `StepUser` |

## Left out

- The Sony client library (`sonyapilib`) is not part of this model. Its answers are inputs (`Oracle`, `Pairing`) and its calls are trace events; what those calls do on the device is not modelled.
- Async execution, the executor jobs, the five-second scheduling, logging, `async_write_ha_state` and the entity registry are left out, because they do not change the values the core computes.
- The entities' names, icons, unique ids, device info, supported features and media title/duration properties are constant or formatted strings and are not modelled.
- `validate_ip_address`, `helper.py`'s other functions, `__init__.py`, `async_step_reauth` and the options flow are outside the modelled core.
- Coordinator.SonyDeviceData.constructor: `self.volume = 0` is a Python int; the model keeps the volume as a real from the start, so the first snapshot carries 0.0 where the source carries 0.
- Coordinator.InitDeviceStep: the library's `init_device()` raising and the name lookup failing are one swallowed outcome each; which exception was logged is not kept.
- Coordinator.SonyCoordinator.AsyncUpdateData: the `UpdateFailed` message text is not modelled, only its cause.
- Coordinator.SonyCoordinator.AsyncUpdateData: after a successful tick the source's `self.data` is the library object's attribute dictionary itself. So a later tick that copies the name onto the library object and then fails also changes the kept snapshot. The model keeps the old snapshot unchanged on a failed tick. The entities read only state, volume and muted from it, and those are not affected.
- Coordinator.AfterInit: a falsy non-boolean power status (such as `None`) is modelled as `PowerStatus(false)`, and the volume reading is assumed to be a number.
- Remote.SonyRemoteEntity.SendCommand: `DEFAULT_NUM_REPEATS` and `DEFAULT_DELAY_SECS` belong to Home Assistant's remote component and are parameters here. The hold-time option is commented out in the source and is not modelled.
- Remote.SonyRemoteEntity.SendCommand: a raising `_send_command` is not modelled; every library call is assumed to return. `time.sleep` is assumed to raise only for a negative delay.
- Remote.SonyRemoteEntity.constructor: the `except` around `update()` cannot fire in the model, because `dict.get` on the snapshot cannot raise.
- MediaPlayer.SonyMediaPlayerEntity.constructor: the `except` around `update()` (media_player.py lines 66-69) cannot fire in the model either, because `dict.get` on the snapshot cannot raise.
- Helper.LowerChar: only the ASCII letters 'A' to 'Z' are lowered. A non-ASCII letter such as 'Ä' is kept as it is, where Python's `str.lower()` lowers it.
- Helper.Lower: `str.lower()` is modelled for ASCII letters only. Python also lowers non-ASCII letters such as 'Ä', which the model keeps as they are. None of them becomes a hex digit, a separator or a newline, so the verdict does not change. Unicode case mapping itself is not modelled.
- ConfigFlow.ValidateInput: the `SonyDevice` constructor and the broadcast address are not modelled, because only the library uses them. A missing connection key is one `KeyError`, whichever key it is.
- ConfigFlow.StepUser: the entry title `Sony Device (<host>)` is kept as the host value, because `str()` formatting is not modelled. `async_set_unique_id` plus `_abort_if_unique_id_configured` is modelled as membership in the set of configured hosts. The form schemas are markers; their defaults and validators are Home Assistant's and are not modelled.
- ConfigFlow.SonyConfigFlow.AsyncStepUser: when nothing was stored, the source keeps the caller's dictionary itself, so later updates also change that dictionary. The model copies values and does not model this aliasing. `CannotConnect` and `InvalidAuth` are declared in `config_flow.py` (lines 271-276) but nothing called inside the `try` raises them; the model still maps them, as the `except` clauses do. The `len(errors) == 0` test in the `else` branch is always true there, and the model does not repeat it.

## Findings

| source | as written | input that shows it | evidently intended | confidence | as-written member | corrected member |
|---|---|---|---|---|---|---|
| custom_components/sony/coordinator.py:112-126 | after the configured friendly name is copied to the library object, `del self.coordinator.friendly_name` removes the attribute. Every later `init_device` whose probe answers and whose library initialisation succeeds reaches line 112 and reads the removed attribute, and the `AttributeError` is swallowed at line 122, so `_init` never becomes true again. Once the device is switched off (line 152) or a playback read fails (line 176), it is reported off forever | a configured name "Living room TV", then ticks where the device is playing, in standby, and playing again: the last tick reports off | apply the name once and then forget it (for example `self.coordinator.friendly_name = None`), so that later initialisations succeed | high; not executed | Coordinator.StuckOffAfterPowerCycle, Coordinator.DeletedNameNeverReinitializes | Coordinator.InitDeviceIntended, Coordinator.IntendedReinitializes, Coordinator.IntendedNeverDeletes, Coordinator.IntendedPowerCycle |
