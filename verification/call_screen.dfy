/**
 * The in-app call screen: the `mm:ss` duration label and the call-status machine driven by the
 * connect timeout, the one-second ticks and the end-call button.
 */
module CallScreen {
  import opened Text

  /**
   * `formatDuration`: whole minutes and the remaining seconds, each padded to two digits, joined by
   * ':'. The minutes field grows past two digits from 100 minutes on.
   */
  function FormatDuration(seconds: nat): (r: string)
    ensures |r| >= 5 && r[|r| - 3] == ':'
    ensures AllDigits(r[..|r| - 3]) && AllDigits(r[|r| - 2..])
    ensures ParseNat(r[..|r| - 3]) == seconds / 60
    ensures ParseNat(r[|r| - 2..]) == seconds % 60 < 60
    ensures seconds < 6000 <==> |r| == 5
  {
    var minutes := PadStart2(NatToString(seconds / 60));
    var secs := PadStart2(NatToString(seconds % 60));
    PaddedNatValue(seconds / 60);
    PaddedNatValue(seconds % 60);
    NatToStringLength(seconds / 60);
    NatToStringLength(seconds % 60);
    var r := minutes + ":" + secs;
    assert r[..|r| - 3] == minutes && r[|r| - 2..] == secs;
    r
  }

  /** Reads a label of the shape `m…m:ss` back as a number of seconds. */
  function ParseDuration(r: string): nat
    requires |r| >= 5 && AllDigits(r[..|r| - 3]) && AllDigits(r[|r| - 2..])
  {
    ParseNat(r[..|r| - 3]) * 60 + ParseNat(r[|r| - 2..])
  }

  /** The label reads back as the duration it shows: minutes × 60 + seconds. */
  lemma FormatDurationRoundTrip(seconds: nat)
    ensures ParseDuration(FormatDuration(seconds)) == seconds
  {
  }

  /** Different durations get different labels. */
  lemma FormatDurationInjective(a: nat, b: nat)
    requires FormatDuration(a) == FormatDuration(b)
    ensures a == b
  {
    FormatDurationRoundTrip(a);
    FormatDurationRoundTrip(b);
  }

  datatype CallStatus = Calling | Connected | Ended

  /** How far along a call is: statuses are only ever visited in this order. */
  function Rank(s: CallStatus): (n: nat)
    ensures n <= 2
    ensures s == Calling <==> n == 0
    ensures s == Ended <==> n == 2
  {
    match s
    case Calling => 0
    case Connected => 1
    case Ended => 2
  }

  /** What can happen to the call: the 3-second connect timeout, a 1-second tick, the end-call button. */
  datatype CallEvent = ConnectTimeout | Tick | EndCall

  datatype Call = Call(status: CallStatus, duration: nat)

  const InitialCall := Call(Calling, 0)

  /**
   * One event. The timeout and the ticks are only armed by the effects for the status they belong
   * to, so a timeout outside `calling` and a tick outside `connected` change nothing.
   */
  function Step(c: Call, e: CallEvent): (r: Call)
    ensures e == EndCall ==> r == c.(status := Ended)
    ensures e == ConnectTimeout ==> r == if c.status == Calling then c.(status := Connected) else c
    ensures e == Tick ==> r == if c.status == Connected then c.(duration := c.duration + 1) else c
  {
    match e
    case ConnectTimeout => if c.status == Calling then c.(status := Connected) else c
    case Tick => if c.status == Connected then c.(duration := c.duration + 1) else c
    case EndCall => c.(status := Ended)
  }

  /** A sequence of events, in order. */
  function Run(c: Call, events: seq<CallEvent>): Call
    decreases |events|
  {
    if events == [] then c else Run(Step(c, events[0]), events[1..])
  }

  /** The status never moves back; only the timeout reaches `connected`, and only from `calling`. */
  lemma StepMovesForward(c: Call, e: CallEvent)
    ensures Rank(Step(c, e).status) >= Rank(c.status)
    ensures Step(c, e).status == Connected && c.status != Connected ==> c.status == Calling && e == ConnectTimeout
    ensures Step(c, e).status == Ended ==> c.status == Ended || e == EndCall
  {
  }

  /** The duration grows only by a tick while connected, one second at a time. */
  lemma StepDuration(c: Call, e: CallEvent)
    ensures Step(c, e).duration != c.duration ==>
      c.status == Connected && e == Tick && Step(c, e).duration == c.duration + 1
  {
  }

  /** Over any run the status only moves forward and the duration grows by at most one per event. */
  lemma {:induction false} RunMovesForward(c: Call, events: seq<CallEvent>)
    ensures Rank(Run(c, events).status) >= Rank(c.status)
    ensures c.duration <= Run(c, events).duration <= c.duration + |events|
    decreases |events|
  {
    if events != [] {
      StepMovesForward(c, events[0]);
      RunMovesForward(Step(c, events[0]), events[1..]);
    }
  }

  /** An ended call stays ended with its duration frozen, whatever happens next. */
  lemma {:induction false} EndedIsFinal(c: Call, events: seq<CallEvent>)
    requires c.status == Ended
    ensures Run(c, events) == c
    decreases |events|
  {
    if events != [] {
      EndedIsFinal(Step(c, events[0]), events[1..]);
    }
  }

  /** A call that never connects shows 00:00 throughout. */
  lemma {:induction false} NoDurationBeforeConnect(c: Call, events: seq<CallEvent>)
    requires c.status == Calling && c.duration == 0
    requires forall i :: 0 <= i < |events| ==> events[i] != ConnectTimeout
    ensures Run(c, events).duration == 0
    decreases |events|
  {
    if events != [] {
      var next := Step(c, events[0]);
      if next.status == Calling {
        NoDurationBeforeConnect(next, events[1..]);
      } else {
        EndedIsFinal(next, events[1..]);
      }
    }
  }

  /** The screen's state; the mute and speaker switches only flip their own flag. */
  class CallPage {
    var callStatus: CallStatus
    var duration: nat
    var isMuted: bool
    var isSpeaker: bool

    function State(): Call
      reads this
    {
      Call(callStatus, duration)
    }

    constructor ()
      ensures State() == InitialCall && !isMuted && !isSpeaker
    {
      callStatus := Calling;
      duration := 0;
      isMuted := false;
      isSpeaker := false;
    }

    /** The connect timeout firing: `calling` becomes `connected`. */
    method OnConnectTimeout()
      modifies this`callStatus
      ensures State() == Step(old(State()), ConnectTimeout)
    {
      if callStatus == Calling {
        callStatus := Connected;
      }
    }

    /** The duration interval firing: one more second while connected. */
    method OnTick()
      modifies this`duration
      ensures State() == Step(old(State()), Tick)
    {
      if callStatus == Connected {
        duration := duration + 1;
      }
    }

    /** `handleEndCall`: the call is ended from any status; going back afterwards is navigation. */
    method HandleEndCall()
      modifies this`callStatus
      ensures State() == Step(old(State()), EndCall)
    {
      callStatus := Ended;
    }

    method ToggleMute()
      modifies this`isMuted
      ensures isMuted == !old(isMuted)
    {
      isMuted := !isMuted;
    }

    method ToggleSpeaker()
      modifies this`isSpeaker
      ensures isSpeaker == !old(isSpeaker)
    {
      isSpeaker := !isSpeaker;
    }
  }
}
