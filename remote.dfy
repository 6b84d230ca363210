/** The remote entity of `custom_components/sony/remote.py`: it mirrors the
    coordinator's play state and forwards power and raw IRCC commands to the
    device. Commands are returned as the events they send, in order. */
module Remote {
  import opened Values
  import opened Device

  /** `c` concatenated `n` times: the codes one `send_command` sends. */
  function Repeat(c: seq<string>, n: int): seq<string>
    decreases n
  {
    if n <= 0 then [] else Repeat(c, n - 1) + c
  }

  /** Each code sent, each send followed by one pause of `delay` seconds. */
  function Interleave(codes: seq<string>, delay: real): seq<Event>
  {
    if codes == [] then []
    else Interleave(codes[..|codes| - 1], delay) + [SendIrcc(codes[|codes| - 1]), Sleep(delay)]
  }

  /** The `k`-th code is sent at position `2k`, and its pause follows at `2k + 1`. */
  lemma {:induction false} InterleaveAt(codes: seq<string>, delay: real)
    ensures |Interleave(codes, delay)| == 2 * |codes|
    ensures forall k :: 0 <= k < |codes| ==>
      Interleave(codes, delay)[2 * k] == SendIrcc(codes[k]) && Interleave(codes, delay)[2 * k + 1] == Sleep(delay)
    decreases |codes|
  {
    if codes != [] {
      var init := codes[..|codes| - 1];
      InterleaveAt(init, delay);
      forall k | 0 <= k < |init|
        ensures Interleave(codes, delay)[2 * k] == SendIrcc(codes[k]) && Interleave(codes, delay)[2 * k + 1] == Sleep(delay)
      {
        assert Interleave(codes, delay)[2 * k] == Interleave(init, delay)[2 * k];
        assert Interleave(codes, delay)[2 * k + 1] == Interleave(init, delay)[2 * k + 1];
      }
    }
  }

  /** The codes of the `SendIrcc` events of a trace, in order. */
  function SentCodes(events: seq<Event>): seq<string>
  {
    if events == [] then []
    else
      var last := events[|events| - 1];
      SentCodes(events[..|events| - 1]) + (if last.SendIrcc? then [last.code] else [])
  }

  /** The trace `send_command(command, num_repeats=n, delay_secs=delay)` produces. */
  function CommandTrace(command: seq<string>, n: int, delay: real): seq<Event>
  {
    Interleave(Repeat(command, n), delay)
  }

  /** What one `send_command` does: the events sent, and whether it ended
      with an exception. */
  datatype Sent = Sent(events: seq<Event>, raised: bool)

  /** `send_command` in full. `time.sleep` raises `ValueError` for a negative
      delay, so then the first code is sent and the call ends with that error. */
  function CommandOutcome(command: seq<string>, n: int, delay: real): Sent
  {
    var codes := Repeat(command, n);
    if delay < 0.0 && codes != [] then Sent([SendIrcc(codes[0])], true)
    else Sent(Interleave(codes, delay), false)
  }

  lemma {:induction false} RepeatLength(c: seq<string>, n: int)
    ensures |Repeat(c, n)| == if n <= 0 then 0 else n * |c|
    decreases n
  {
    if n > 0 {
      RepeatLength(c, n - 1);
    }
  }

  /** In round `q` of the repetition, position `j` is the command's `j`-th code. */
  lemma {:induction false} RepeatAt(c: seq<string>, n: int, q: nat, j: nat)
    requires q < n && j < |c|
    ensures q * |c| + j < |Repeat(c, n)| && Repeat(c, n)[q * |c| + j] == c[j]
    decreases n
  {
    RepeatLength(c, n);
    RepeatLength(c, n - 1);
    var prefix := Repeat(c, n - 1);
    assert |prefix| == (n - 1) * |c|;
    if q < n - 1 {
      RepeatAt(c, n - 1, q, j);
    } else {
      assert q * |c| + j == |prefix| + j;
    }
  }

  lemma {:induction false} SentCodesAppend(a: seq<Event>, b: seq<Event>)
    ensures SentCodes(a + b) == SentCodes(a) + SentCodes(b)
    decreases |b|
  {
    if b == [] {
      assert a + b == a;
    } else {
      var b' := b[..|b| - 1];
      assert (a + b)[..|a + b| - 1] == a + b';
      SentCodesAppend(a, b');
    }
  }

  /** Only the codes are sent, in their order: the pauses carry no codes. */
  lemma {:induction false} SentCodesOfInterleave(codes: seq<string>, delay: real)
    ensures SentCodes(Interleave(codes, delay)) == codes
    decreases |codes|
  {
    if codes != [] {
      var init := codes[..|codes| - 1];
      SentCodesOfInterleave(init, delay);
      SentCodesAppend(Interleave(init, delay), [SendIrcc(codes[|codes| - 1]), Sleep(delay)]);
      var x := codes[|codes| - 1];
      var pair := [SendIrcc(x), Sleep(delay)];
      assert SentCodes(pair) == [x] by {
        assert pair[..1] == [SendIrcc(x)];
        assert [SendIrcc(x)][..0] == [];
        assert SentCodes([SendIrcc(x)]) == [x];
        assert SentCodes(pair) == SentCodes(pair[..1]);
      }
    }
  }

  /** `send_command` sends the command `n` times over, in order, and pauses after every send. */
  lemma CommandTraceShape(command: seq<string>, n: int, delay: real)
    ensures SentCodes(CommandTrace(command, n, delay)) == Repeat(command, n)
    ensures |CommandTrace(command, n, delay)| == 2 * |Repeat(command, n)|
    ensures forall k :: 0 <= k < |Repeat(command, n)| ==>
      && CommandTrace(command, n, delay)[2 * k] == SendIrcc(Repeat(command, n)[k])
      && CommandTrace(command, n, delay)[2 * k + 1] == Sleep(delay)
  {
    SentCodesOfInterleave(Repeat(command, n), delay);
    InterleaveAt(Repeat(command, n), delay);
  }

  /** A non-positive repeat count or an empty command sends nothing. */
  lemma NothingSent(command: seq<string>, n: int, delay: real)
    requires n <= 0 || command == []
    ensures CommandTrace(command, n, delay) == []
  {
    RepeatLength(command, n);
  }

  /** A delay that is not negative never raises, and the whole trace is sent. */
  lemma NonNegativeDelaySendsAll(command: seq<string>, n: int, delay: real)
    requires delay >= 0.0
    ensures CommandOutcome(command, n, delay) == Sent(CommandTrace(command, n, delay), false)
  {
  }

  /** A negative delay stops the command after its first code, with an error;
      with nothing to send, nothing is slept and nothing raises. */
  lemma NegativeDelayStopsAfterFirstSend(command: seq<string>, n: int, delay: real)
    requires delay < 0.0
    ensures n > 0 && command != [] ==> CommandOutcome(command, n, delay) == Sent([SendIrcc(command[0])], true)
    ensures n <= 0 || command == [] ==> CommandOutcome(command, n, delay) == Sent([], false)
  {
    RepeatLength(command, n);
    if n > 0 && command != [] {
      RepeatAt(command, n, 0, 0);
    }
  }

  lemma TwoCodesTwice(delay: real)
    ensures CommandTrace(["10", "11"], 2, delay) ==
      [SendIrcc("10"), Sleep(delay), SendIrcc("11"), Sleep(delay),
       SendIrcc("10"), Sleep(delay), SendIrcc("11"), Sleep(delay)]
  {
    var c := ["10", "11"];
    assert Repeat(c, 0) == [];
    assert Repeat(c, 1) == c;
    assert Repeat(c, 2) == ["10", "11", "10", "11"];
    var t := CommandTrace(c, 2, delay);
    InterleaveAt(Repeat(c, 2), delay);
    assert t[2 * 0] == SendIrcc("10") && t[2 * 0 + 1] == Sleep(delay);
    assert t[2 * 1] == SendIrcc("11") && t[2 * 1 + 1] == Sleep(delay);
    assert t[2 * 2] == SendIrcc("10") && t[2 * 2 + 1] == Sleep(delay);
    assert t[2 * 3] == SendIrcc("11") && t[2 * 3 + 1] == Sleep(delay);
  }

  lemma InterleaveSnoc(codes: seq<string>, x: string, delay: real)
    ensures Interleave(codes + [x], delay) == Interleave(codes, delay) + [SendIrcc(x), Sleep(delay)]
  {
    assert (codes + [x])[..|codes|] == codes;
  }

  /** `SonyRemoteEntity`. */
  class SonyRemoteEntity {
    /** `_state`: the coordinator's state string, or `None`. */
    var state: PyValue

    constructor (snapshot: map<string, PyValue>)
      ensures state == Get(snapshot, "state", NoneVal)
    {
      state := Str("off");
      new;
      Update(snapshot);
    }

    /** `update`, also run by `_handle_coordinator_update`. */
    method Update(snapshot: map<string, PyValue>)
      modifies this
      ensures state == Get(snapshot, "state", NoneVal)
    {
      state := Get(snapshot, "state", NoneVal);
    }

    method TurnOn() returns (events: seq<Event>)
      ensures events == [Power(true)]
    {
      events := [Power(true)];
    }

    method TurnOff() returns (events: seq<Event>)
      ensures events == [Power(false)]
    {
      events := [Power(false)];
    }

    /** `toggle`: off only when the mirrored state is exactly "on". */
    method Toggle() returns (events: seq<Event>)
      ensures events == [Power(state != Str("on"))]
      ensures state in {Str("playing"), Str("paused"), Str("off"), NoneVal} ==> events == [Power(true)]
    {
      if state == Str("on") {
        events := TurnOff();
      } else {
        events := TurnOn();
      }
    }

    /** `send_command`; absent repeat count and delay take the host's defaults.
        `raised` says whether the call ended with the `ValueError` of `time.sleep`. */
    method SendCommand(command: seq<string>, numRepeats: Option<int>, delaySecs: Option<real>,
                       defaultRepeats: int, defaultDelay: real)
      returns (events: seq<Event>, raised: bool)
      ensures Sent(events, raised) == CommandOutcome(command, numRepeats.GetOr(defaultRepeats), delaySecs.GetOr(defaultDelay))
    {
      var n := numRepeats.GetOr(defaultRepeats);
      var delay := delaySecs.GetOr(defaultDelay);
      events := [];
      raised := false;
      var i := 0;
      while i < n
        invariant 0 <= i <= (if n < 0 then 0 else n)
        invariant events == Interleave(Repeat(command, i), delay)
        invariant delay < 0.0 ==> Repeat(command, i) == []
      {
        var j := 0;
        assert Repeat(command, i) + command[..0] == Repeat(command, i);
        while j < |command|
          invariant 0 <= j <= |command|
          invariant events == Interleave(Repeat(command, i) + command[..j], delay)
          invariant delay < 0.0 ==> j == 0
        {
          ghost var sent := Repeat(command, i) + command[..j];
          assert Repeat(command, i) + command[..j + 1] == sent + [command[j]];
          events := events + [SendIrcc(command[j])];
          if delay < 0.0 {
            // the first `time.sleep` raises
            RepeatLength(command, i);
            assert events == [SendIrcc(command[0])];
            RepeatAt(command, n, 0, 0);
            raised := true;
            return;
          }
          InterleaveSnoc(sent, command[j], delay);
          events := events + [Sleep(delay)];
          j := j + 1;
        }
        assert command[..|command|] == command;
        assert Repeat(command, i + 1) == Repeat(command, i) + command;
        i := i + 1;
      }
      assert Repeat(command, i) == Repeat(command, n);
      RepeatLength(command, n);
    }
  }
}
