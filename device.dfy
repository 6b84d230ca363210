/** What the integration asks of the Sony client library, recorded in order.
    The library itself is not modelled: every call it answers is an outcome the
    model takes as input, and every call it is sent is an event in a trace. */
module Device {
  import opened Values

  datatype Event =
    // polling (coordinator)
    | SendHttpDmr                 // `_send_http(dmr_url, GET)`, the reachability probe
    | InitLibrary                 // the library's `init_device()`
    | GetPowerStatus
    | GetVolume
    | GetPlayingStatus
    // pairing (config flow)
    | Register
    | SendAuthentication(pin: PyValue)
    // commands (entities)
    | Power(on: bool)
    | SendIrcc(code: string)      // `_send_command(code)`
    | Sleep(secs: real)           // `time.sleep(secs)` between remote commands
    | Play
    | Pause
    | NextTrack
    | PreviousTrack
    | Stop
    | VolumeUp
    | VolumeDown
    | Mute
}
