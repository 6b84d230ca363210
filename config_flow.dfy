/** Pairing in `custom_components/sony/config_flow.py`.

    `validate_input` decides, from the pin the user gave, whether to register
    with the device or to authenticate with the pin, and builds the dictionary
    the config entry stores. `async_step_user` keeps the input of earlier form
    steps, merges each new step into it, and turns the validation into the next
    form, an error, or a new config entry. The device library is not modelled:
    its answers are a `Pairing` and its calls are recorded as events. */
module ConfigFlow {
  import opened Values
  import opened Device

  // The integration's constants
  const DefaultPin := "0000"
  const DefaultBroadcastAddress := "255.255.255.255"
  const DefaultAppPort := 50202
  const DefaultDmrPort := 52323
  const DefaultIrccPort := 50001
  const DefaultUpdateInterval := 5

  const ConfHost := "host"
  const ConfPin := "pin"
  const ConfMacAddress := "mac_address"
  const ConfBroadcastAddress := "broadcast_address"
  const ConfAppPort := "app_port"
  const ConfDmrPort := "dmr_port"
  const ConfIrccPort := "ircc_port"
  const ConfAuthenticated := "authenticated"

  /** The library's `AuthenticationResult`. */
  datatype AuthResult = Success | PinNeeded | Error

  /** How an `AuthenticationResult` member is stored in a dictionary. */
  function ResultValue(r: AuthResult): (v: PyValue)
    ensures v.Enum?
  {
    match r
    case Success => Enum("SUCCESS")
    case PinNeeded => Enum("PIN_NEEDED")
    case Error => Enum("ERROR")
  }

  /** Different results are stored as different values. */
  lemma ResultValueInjective(r: AuthResult, r': AuthResult)
    ensures ResultValue(r) == ResultValue(r') <==> r == r'
  {
  }

  /** The exceptions `async_step_user` tells apart (`KeyError` and every other
      kind fall under its last, broad `except`). */
  datatype Failure = CannotConnect | InvalidAuth | ValueError | KeyError | OtherError

  datatype RegisterOutcome = Registered(result: AuthResult) | RegisterRaised(error: Failure)
  datatype AuthOutcome = Authenticated(ok: bool) | AuthRaised(error: Failure)

  /** The library's answers to one `validate_input`: what `register()` and
      `send_authentication(pin)` do, and the device's `mac` afterwards. */
  datatype Pairing = Pairing(register: RegisterOutcome, auth: AuthOutcome, mac: PyValue)

  datatype Outcome = Info(config: map<string, PyValue>) | Raised(error: Failure)
  datatype Validation = Validation(outcome: Outcome, calls: seq<Event>)

  /** The keys `validate_input` indexes without a default. */
  predicate HasConnectionKeys(input: map<string, PyValue>)
  {
    ConfHost in input && ConfAppPort in input && ConfDmrPort in input && ConfIrccPort in input
  }

  /** `not pin or pin == DEFAULT_PIN`: no pin yet, so the device must be registered. */
  predicate NeedsRegistration(pin: PyValue)
  {
    !Truthy(pin) || pin == Str(DefaultPin)
  }

  /** The dictionary a successful validation returns; the user's keys win. */
  function Paired(authenticated: bool, mac: PyValue, input: map<string, PyValue>): (d: map<string, PyValue>)
    ensures d.Keys == input.Keys + {ConfAuthenticated, ConfMacAddress}
    ensures ConfAuthenticated !in input ==> d[ConfAuthenticated] == Bool(authenticated)
    ensures ConfMacAddress !in input ==> d[ConfMacAddress] == mac
    ensures forall k :: k in input ==> d[k] == input[k]
  {
    Overlay(map[ConfAuthenticated := Bool(authenticated), ConfMacAddress := mac], input)
  }

  /** The dictionary a failed registration returns; the user's keys win. */
  function RegistrationError(r: AuthResult, input: map<string, PyValue>): (d: map<string, PyValue>)
    ensures d.Keys == input.Keys + {"error"}
    ensures "error" !in input ==> d["error"] == ResultValue(r)
    ensures forall k :: k in input ==> d[k] == input[k]
  {
    Overlay(map["error" := ResultValue(r)], input)
  }

  /** `validate_input(user_input)`. */
  function ValidateInput(input: map<string, PyValue>, o: Pairing): (v: Validation)
    // a missing connection key raises before the library is used
    ensures !HasConnectionKeys(input) ==> v == Validation(Raised(KeyError), [])
    // registration is attempted exactly when there is no usable pin
    ensures Register in v.calls <==> HasConnectionKeys(input) && NeedsRegistration(Get(input, ConfPin, NoneVal))
    ensures HasConnectionKeys(input) && NeedsRegistration(Get(input, ConfPin, NoneVal)) ==>
      && v.calls == [Register]
      && match o.register
         case RegisterRaised(e) => v.outcome == Raised(e)
         case Registered(Success) => v.outcome == Info(Paired(true, o.mac, input))
         case Registered(r) => v.outcome == Info(RegistrationError(r, input))
    // otherwise the pin is sent, and its verdict is what is stored
    ensures HasConnectionKeys(input) && !NeedsRegistration(Get(input, ConfPin, NoneVal)) ==>
      && v.calls == [SendAuthentication(input[ConfPin])]
      && match o.auth
         case AuthRaised(e) => v.outcome == Raised(e)
         case Authenticated(ok) => v.outcome == Info(Paired(ok, o.mac, input))
    ensures v.outcome.Info? ==> HasConnectionKeys(input) && input.Keys <= v.outcome.config.Keys
  {
    var pin := Get(input, ConfPin, NoneVal);
    if !HasConnectionKeys(input) then Validation(Raised(KeyError), [])
    else if NeedsRegistration(pin) then
      match o.register
      case RegisterRaised(e) => Validation(Raised(e), [Register])
      case Registered(r) =>
        if r == Success then Validation(Info(Paired(true, o.mac, input)), [Register])
        else Validation(Info(RegistrationError(r, input)), [Register])
    else
      match o.auth
      case AuthRaised(e) => Validation(Raised(e), [SendAuthentication(pin)])
      case Authenticated(ok) => Validation(Info(Paired(ok, o.mac, input)), [SendAuthentication(pin)])
  }

  // ---------------------------------------------------------------------------
  // async_step_user

  datatype Schema = UserSchema | PinSchema

  /** What a flow step hands back to the host. `CreateEntry` keeps the host
      its title "Sony Device (<host>)" is formatted from. */
  datatype FlowResult =
    | ShowForm(schema: Schema, errors: map<string, string>)
    | CreateEntry(host: PyValue, data: map<string, PyValue>)
    | Abort(reason: string)

  /** The error code shown for an exception from `validate_input`. */
  function ErrorCode(e: Failure): (code: string)
    ensures code == "cannot_connect" <==> e == CannotConnect || e == ValueError
    ensures code == "invalid_auth" <==> e == InvalidAuth
    ensures code == "unknown" <==> e == KeyError || e == OtherError
  {
    match e
    case CannotConnect => "cannot_connect"
    case InvalidAuth => "invalid_auth"
    case ValueError => "cannot_connect"
    case KeyError => "unknown"
    case OtherError => "unknown"
  }

  /** The input kept in `self.user_input` after a step with `input`. */
  function Merge(stored: Option<map<string, PyValue>>, input: map<string, PyValue>): (m: map<string, PyValue>)
    ensures m.Keys == input.Keys + (if stored.Some? then stored.value.Keys else {})
    ensures forall k :: k in input ==> m[k] == input[k]
    ensures stored.Some? ==> forall k :: k in stored.value && k !in input ==> m[k] == stored.value[k]
  {
    if stored.None? || stored.value == map[] then input else Overlay(stored.value, input)
  }

  predicate AsksForPin(info: map<string, PyValue>)
  {
    Get(info, "error", NoneVal) == ResultValue(PinNeeded)
  }

  datatype FlowStep = FlowStep(stored: Option<map<string, PyValue>>, result: FlowResult, calls: seq<Event>)

  /** `async_step_user(input)` with `stored` the input of earlier steps and
      `configured` the unique ids (hosts) that already have an entry. */
  function StepUser(stored: Option<map<string, PyValue>>, input: Option<map<string, PyValue>>,
                    o: Pairing, configured: set<PyValue>): (s: FlowStep)
    // nothing entered: the first form again, nothing validated or stored
    ensures input.None? || input.value == map[] ==> s == FlowStep(stored, ShowForm(UserSchema, map[]), [])
    ensures input.Some? && input.value != map[] ==>
      var merged := Merge(stored, input.value);
      var v := ValidateInput(merged, o);
      && s.stored == Some(merged)
      && s.calls == v.calls
      && match v.outcome
         case Raised(e) => s.result == ShowForm(UserSchema, map["base" := ErrorCode(e)])
         case Info(info) =>
           if AsksForPin(info) then s.result == ShowForm(PinSchema, map["base" := "invalid_auth"])
           else if merged[ConfHost] in configured then s.result == Abort("already_configured")
           else s.result == CreateEntry(merged[ConfHost], info)
  {
    if input.None? || input.value == map[] then FlowStep(stored, ShowForm(UserSchema, map[]), [])
    else
      var merged := Merge(stored, input.value);
      var v := ValidateInput(merged, o);
      match v.outcome
      case Raised(e) => FlowStep(Some(merged), ShowForm(UserSchema, map["base" := ErrorCode(e)]), v.calls)
      case Info(info) =>
        if AsksForPin(info) then FlowStep(Some(merged), ShowForm(PinSchema, map["base" := "invalid_auth"]), v.calls)
        else if merged[ConfHost] in configured then FlowStep(Some(merged), Abort("already_configured"), v.calls)
        else FlowStep(Some(merged), CreateEntry(merged[ConfHost], info), v.calls)
  }

  /** Only a registration that asks for the pin leads to the pin form; every
      other validated result, a failed registration and a rejected pin included,
      becomes an entry unless the host is configured already. */
  lemma PinFormOnlyForPinNeeded(stored: Option<map<string, PyValue>>, input: map<string, PyValue>,
                               o: Pairing, configured: set<PyValue>)
    requires input != map[]
    requires "error" !in Merge(stored, input)
    ensures var s := StepUser(stored, Some(input), o, configured);
      s.result == ShowForm(PinSchema, map["base" := "invalid_auth"]) <==>
        && HasConnectionKeys(Merge(stored, input))
        && NeedsRegistration(Get(Merge(stored, input), ConfPin, NoneVal))
        && o.register == Registered(PinNeeded)
  {
    var merged := Merge(stored, input);
    if HasConnectionKeys(merged) && NeedsRegistration(Get(merged, ConfPin, NoneVal)) {
      match o.register {
        case RegisterRaised(e) =>
        case Registered(r) =>
          if r != Success {
            assert AsksForPin(RegistrationError(r, merged)) <==> r == PinNeeded;
          }
      }
    }
  }

  /** The first form of a new device: a host and the default ports, no pin. */
  function FirstForm(host: string): map<string, PyValue>
  {
    map[ConfHost := Str(host), ConfAppPort := Int(DefaultAppPort),
        ConfDmrPort := Int(DefaultDmrPort), ConfIrccPort := Int(DefaultIrccPort)]
  }

  /** Without a pin the first step registers; a device that wants a pin brings
      up the pin form, and the first form's input is kept. */
  lemma FirstStepAsksForPin(host: string, o: Pairing)
    requires o.register == Registered(PinNeeded)
    ensures var s := StepUser(None, Some(FirstForm(host)), o, {});
      && s.stored == Some(FirstForm(host))
      && s.calls == [Register]
      && s.result == ShowForm(PinSchema, map["base" := "invalid_auth"])
  {
    var first := FirstForm(host);
    assert Get(first, ConfPin, NoneVal) == NoneVal;
    assert ValidateInput(first, o).outcome == Info(RegistrationError(PinNeeded, first));
  }

  /** The pin form's input is merged into the first form's and the pin is sent;
      an accepted pin creates the entry for that host, with the flag and the
      device's mac added to everything entered. */
  lemma SecondStepSendsPin(host: string, pin: string, o: Pairing)
    requires pin != "" && pin != DefaultPin
    requires o.auth == Authenticated(true)
    ensures var s := StepUser(Some(FirstForm(host)), Some(map[ConfPin := Str(pin)]), o, {});
      && s.calls == [SendAuthentication(Str(pin))]
      && s.result.CreateEntry?
      && s.result.host == Str(host)
      && s.result.data.Keys == FirstForm(host).Keys + {ConfPin, ConfAuthenticated, ConfMacAddress}
      && s.result.data[ConfPin] == Str(pin)
      && s.result.data[ConfAuthenticated] == Bool(true)
      && s.result.data[ConfMacAddress] == o.mac
  {
    var first := FirstForm(host);
    var merged := Merge(Some(first), map[ConfPin := Str(pin)]);
    assert merged[ConfPin] == Str(pin);
    assert merged[ConfHost] == Str(host);
    assert HasConnectionKeys(merged);
    assert !NeedsRegistration(Get(merged, ConfPin, NoneVal));
    var info := Paired(true, o.mac, merged);
    assert ValidateInput(merged, o).outcome == Info(info);
    assert !AsksForPin(info);
  }

  /** A registration that fails outright is not reported as an error: the
      flow goes on to create an entry whose data carries the failure under
      "error" and says nothing about authentication. */
  lemma FailedRegistrationCreatesEntry(host: string, o: Pairing)
    requires o.register == Registered(Error)
    ensures var s := StepUser(None, Some(FirstForm(host)), o, {});
      && s.calls == [Register]
      && s.result.CreateEntry?
      && s.result.data["error"] == ResultValue(Error)
      && ConfAuthenticated !in s.result.data
  {
    var first := FirstForm(host);
    assert Get(first, ConfPin, NoneVal) == NoneVal;
    assert ValidateInput(first, o).outcome == Info(RegistrationError(Error, first));
  }

  /** `SonyConfigFlow`. */
  class SonyConfigFlow {
    /** `self.user_input`: the input of the earlier steps of this flow. */
    var userInput: Option<map<string, PyValue>>

    constructor ()
      ensures userInput == None
    {
      userInput := None;
    }

    /** `async_step_user`. The library calls made are returned in `calls`. */
    method AsyncStepUser(input: Option<map<string, PyValue>>, o: Pairing, configured: set<PyValue>)
      returns (r: FlowResult, calls: seq<Event>)
      modifies this
      ensures var s := StepUser(old(userInput), input, o, configured);
        userInput == s.stored && r == s.result && calls == s.calls
    {
      var errors: map<string, string> := map[];
      calls := [];
      if input.None? || input.value == map[] {
        return ShowForm(UserSchema, errors), calls;
      }
      if userInput.None? || userInput.value == map[] {
        userInput := input;
      } else {
        userInput := Some(userInput.value + input.value);
      }
      var v := ValidateInput(userInput.value, o);
      calls := v.calls;
      match v.outcome {
        case Info(info) =>
          if Get(info, "error", NoneVal) == Enum("PIN_NEEDED") {
            errors := errors["base" := "invalid_auth"];
            return ShowForm(PinSchema, errors), calls;
          }
          // no exception was raised, so `errors` is still empty here
          var host := userInput.value[ConfHost];
          if host in configured {
            return Abort("already_configured"), calls;
          }
          return CreateEntry(host, info), calls;
        case Raised(e) =>
          match e {
            case CannotConnect => errors := errors["base" := "cannot_connect"];
            case InvalidAuth => errors := errors["base" := "invalid_auth"];
            case ValueError => errors := errors["base" := "cannot_connect"];
            case KeyError => errors := errors["base" := "unknown"];
            case OtherError => errors := errors["base" := "unknown"];
          }
      }
      r := ShowForm(UserSchema, errors);
    }
  }
}
