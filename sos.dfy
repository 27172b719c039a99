/** The SOS button: a press starts a three-second countdown that can be
    cancelled; when it runs out the button asks for the device's location,
    and once the location arrives it counts the user's contacts, logs the
    alert and shows a confirmation. The one-second timer and the
    geolocation request are replaced by the events they deliver. */
module Sos {
  import opened Base
  import opened Auth

  /** `SOSState`. */
  datatype SosState = Idle | Countdown | Locating | Sent

  /** A position as the device reports it; the model never looks inside. */
  datatype Coords = Coords(lat: real, lng: real)

  /** The value the countdown starts from. */
  const CountdownStart := 3

  /** The component's state: `state`, `countdown`, `location` and `contactCount`. */
  datatype Screen = Screen(state: SosState, countdown: int, location: Option<Coords>, contactCount: nat)

  /** What can happen to the button: the SOS press, one firing of the
      countdown timer, the two answers of the location request (with the
      number of contact rows the follow-up query returned, if it returned
      any), the cancel button and the "Return to Dashboard" button. */
  datatype Event =
    | Press
    | Tick
    | Located(at: Coords, rows: Option<nat>)
    | LocateFailed
    | Cancel
    | Return

  /** A row of `alert_logs`. */
  datatype AlertLog = AlertLog(user: UserId, at: Coords, notified: nat)

  /** The state the component mounts with. */
  const Initial := Screen(Idle, CountdownStart, None, 0)

  /** The states the button can be in: an idle button shows a full counter
      and no location, a running countdown a counter in 1..3, and once
      the counter has run out it stays at 0; a confirmation always has a
      location. */
  predicate Inv(s: Screen) {
    && 0 <= s.countdown <= CountdownStart
    && (s.state == Idle ==> s.countdown == CountdownStart && s.location.None?)
    && (s.state == Countdown ==> 0 < s.countdown)
    && (s.state == Locating ==> s.countdown == 0)
    && (s.state == Sent ==> s.countdown == 0 && s.location.Some?)
  }

  /** `resetState`: idle, a full counter and no location; the contact count
      is kept. */
  function Cleared(s: Screen): (r: Screen)
    ensures r.state == Idle && r.countdown == CountdownStart && r.location.None?
    ensures r.contactCount == s.contactCount
    ensures Inv(r)
  {
    Screen(Idle, CountdownStart, None, s.contactCount)
  }

  /** `contacts?.length ?? 0`. */
  function CountOf(rows: Option<nat>): (n: nat)
    ensures rows.Some? ==> n == rows.value
    ensures rows.None? ==> n == 0
  {
    match rows
    case None => 0
    case Some(k) => k
  }

  /** The countdown effect as it runs after every change: a countdown whose
      counter has run out moves on to locating. */
  function Settle(s: Screen): (r: Screen)
    ensures s.state == Countdown && s.countdown <= 0 ==> r == s.(state := Locating)
    ensures !(s.state == Countdown && s.countdown <= 0) ==> r == s
  {
    if s.state == Countdown && s.countdown <= 0 then s.(state := Locating) else s
  }

  /** The state after one event. The timer only runs while counting down
      above 0. The location callbacks themselves check no state; the model
      assumes their answer arrives while locating, the only state that makes
      a request and one the page offers no way out of, and leaves the screen
      as it is for an answer at any other time. */
  function Next(s: Screen, e: Event): (r: Screen)
    ensures Inv(s) ==> Inv(r)
    ensures e == Press ==> r.state == Countdown && r.countdown == CountdownStart
    ensures e in {Cancel, Return} ==> r == Cleared(s)
    ensures e == Tick && s.state == Countdown && s.countdown > 1 ==>
      r == s.(countdown := s.countdown - 1)
    ensures e == Tick && s.state == Countdown && s.countdown == 1 ==>
      r == s.(state := Locating, countdown := 0)
    ensures e.Located? && s.state == Locating ==>
      r == Screen(Sent, s.countdown, Some(e.at), CountOf(e.rows))
    ensures e == LocateFailed && s.state == Locating ==> r == Cleared(s)
    ensures e != Press && e != Cancel && e != Return && s.state in {Idle, Sent} ==> r == s
  {
    var t := match e
      case Press => s.(state := Countdown, countdown := CountdownStart)
      case Tick => if s.state == Countdown && s.countdown > 0 then s.(countdown := s.countdown - 1) else s
      case Located(at, rows) =>
        if s.state == Locating then s.(state := Sent, location := Some(at), contactCount := CountOf(rows)) else s
      case LocateFailed => if s.state == Locating then Cleared(s) else s
      case Cancel => Cleared(s)
      case Return => Cleared(s);
    Settle(t)
  }

  /** The state after a sequence of events, in order. */
  function Run(s: Screen, events: seq<Event>): (r: Screen)
    ensures Inv(s) ==> Inv(r)
    decreases |events|
  {
    if events == [] then s else Run(Next(s, events[0]), events[1..])
  }

  /** `k` timer firings in a row. */
  function Ticks(k: nat): (events: seq<Event>)
    ensures |events| == k
    ensures forall i :: 0 <= i < k ==> events[i] == Tick
  {
    if k == 0 then [] else [Tick] + Ticks(k - 1)
  }

  /** Running two sequences one after the other is running their concatenation. */
  lemma {:induction false} RunAppend(s: Screen, a: seq<Event>, b: seq<Event>)
    ensures Run(s, a + b) == Run(Run(s, a), b)
    decreases |a|
  {
    if a == [] {
      assert a + b == b;
    } else {
      assert (a + b)[0] == a[0];
      assert (a + b)[1..] == a[1..] + b;
      RunAppend(Next(s, a[0]), a[1..], b);
    }
  }

  /** From a countdown at `c`, fewer than `c` ticks leave it counting down at
      `c - k`, and exactly `c` ticks reach locating with the counter at 0. */
  lemma {:induction false} TicksCountDown(s: Screen, k: nat)
    requires s.state == Countdown && 0 < s.countdown && k <= s.countdown
    ensures k < s.countdown ==> Run(s, Ticks(k)) == s.(countdown := s.countdown - k)
    ensures k == s.countdown ==> Run(s, Ticks(k)) == s.(state := Locating, countdown := 0)
    decreases k
  {
    if k > 0 {
      var ticks := Ticks(k);
      assert ticks[0] == Tick && ticks[1..] == Ticks(k - 1);
      var s' := Next(s, Tick);
      if s.countdown == 1 {
        assert k == 1 && ticks[1..] == [];
      } else {
        TicksCountDown(s', k - 1);
      }
    }
  }

  /** A press followed by three timer firings, from any state, starts the
      location request; after only two the countdown still shows 1. In
      general, a press and `k` ticks, for `k` up to the countdown's start,
      show `CountdownStart - k`, and the last of them starts locating. */
  lemma PressThenThreeTicks(s: Screen)
    ensures Run(s, [Press, Tick, Tick]) == Screen(Countdown, 1, s.location, s.contactCount)
    ensures Run(s, [Press, Tick, Tick, Tick]) == Screen(Locating, 0, s.location, s.contactCount)
    ensures forall k :: 0 <= k < CountdownStart ==>
      Run(s, [Press] + Ticks(k)) == Screen(Countdown, CountdownStart - k, s.location, s.contactCount)
    ensures Run(s, [Press] + Ticks(CountdownStart)) == Screen(Locating, 0, s.location, s.contactCount)
  {
    var pressed := Next(s, Press);
    assert Run(s, [Press]) == pressed by {
      assert [Press][1..] == [];
    }
    forall k | 0 <= k <= CountdownStart
      ensures Run(s, [Press] + Ticks(k)) == Run(pressed, Ticks(k))
      ensures Run(pressed, Ticks(k)) == Screen(if k < 3 then Countdown else Locating, 3 - k, s.location, s.contactCount)
    {
      RunAppend(s, [Press], Ticks(k));
      TicksCountDown(pressed, k);
    }
  }

  /** The panel the component renders. */
  datatype Panel = SentPanel(count: nat, at: Coords) | CountdownPanel(shown: int) | LocatingPanel | ButtonPanel

  /** Which panel shows: the confirmation needs both the sent state and a
      location; otherwise the countdown, the locating notice, or the button. */
  function PanelOf(s: Screen): (p: Panel)
    ensures p.SentPanel? <==> s.state == Sent && s.location.Some?
    ensures p.SentPanel? ==> p.count == s.contactCount && p.at == s.location.value
    ensures p.CountdownPanel? <==> s.state == Countdown
    ensures p.CountdownPanel? ==> p.shown == s.countdown
    ensures p == LocatingPanel <==> s.state == Locating
  {
    if s.state == Sent && s.location.Some? then SentPanel(s.contactCount, s.location.value)
    else if s.state == Countdown then CountdownPanel(s.countdown)
    else if s.state == Locating then LocatingPanel
    else ButtonPanel
  }

  /** In every reachable state the confirmation shows exactly when the alert
      was sent, and a countdown shows a digit from 1 to 3. */
  lemma PanelMatchesState(s: Screen)
    requires Inv(s)
    ensures PanelOf(s).SentPanel? <==> s.state == Sent
    ensures PanelOf(s) == ButtonPanel <==> s.state == Idle
    ensures PanelOf(s).CountdownPanel? ==> 1 <= PanelOf(s).shown <= CountdownStart
  {
  }

  /** The decimal digits of `n`, as the page prints a number: the shortest
      form, "0" for zero and no leading zero otherwise. */
  function NatToString(n: nat): (r: string)
    ensures |r| >= 1
    ensures forall i :: 0 <= i < |r| ==> '0' <= r[i] <= '9'
    ensures n == 0 <==> r == "0"
    ensures r[0] != '0' || |r| == 1
  {
    if n < 10 then [DigitChar(n)] else NatToString(n / 10) + [DigitChar(n % 10)]
  }

  /** The digit character for a value below ten. */
  function DigitChar(d: nat): (c: char)
    requires d < 10
    ensures '0' <= c <= '9'
    ensures (c as int) - ('0' as int) == d
  {
    ['0', '1', '2', '3', '4', '5', '6', '7', '8', '9'][d]
  }

  /** The number a string of decimal digits denotes. */
  function DigitsValue(s: string): nat
    requires forall i :: 0 <= i < |s| ==> '0' <= s[i] <= '9'
  {
    if s == [] then 0
    else DigitsValue(s[..|s| - 1]) * 10 + ((s[|s| - 1] as int) - ('0' as int))
  }

  /** The printed count reads back as the count. */
  lemma {:induction false} NatToStringValue(n: nat)
    ensures DigitsValue(NatToString(n)) == n
  {
    if n >= 10 {
      NatToStringValue(n / 10);
      var r := NatToString(n);
      var last := DigitChar(n % 10);
      assert r == NatToString(n / 10) + [last];
      assert r[..|r| - 1] == NatToString(n / 10);
      assert r[|r| - 1] == last;
      assert DigitsValue(r) == DigitsValue(NatToString(n / 10)) * 10 + n % 10;
    }
  }

  /** "contact", made plural unless the count is exactly 1. */
  function ContactNoun(n: nat): (w: string)
    ensures w == "contact" <==> n == 1
    ensures w == "contacts" <==> n != 1
  {
    "contact" + (if n != 1 then "s" else "")
  }

  /** The confirmation's line about who was told: it starts with the count,
      printed so that it reads back as the count, followed by the noun
      `ContactNoun` picks for it. */
  function SentText(n: nat): (r: string)
    ensures exists k ::
              && 0 < k < |r|
              && (forall i :: 0 <= i < k ==> '0' <= r[i] <= '9')
              && r[..k] == NatToString(n)
              && DigitsValue(r[..k]) == n
              && r[k..] == " " + ContactNoun(n) + " notified with your location"
  {
    var digits := NatToString(n);
    var rest := " " + ContactNoun(n) + " notified with your location";
    NatToStringValue(n);
    assert (digits + rest)[..|digits|] == digits;
    assert (digits + rest)[|digits|..] == rest;
    digits + rest
  }

  /** The component with the `alert_logs` table it writes to. */
  class SosButton {
    /** The signed-in user; the button is only shown behind a guard that
        demands one. */
    const user: User
    var state: SosState
    var countdown: int
    var location: Option<Coords>
    var contactCount: nat
    /** `alert_logs`, in insertion order. */
    var alertLogs: seq<AlertLog>

    /** The component's state as a value. */
    function View(): Screen
      reads this`state, this`countdown, this`location, this`contactCount
    {
      Screen(state, countdown, location, contactCount)
    }

    constructor (u: User)
      ensures user == u && View() == Initial && alertLogs == []
    {
      user := u;
      state := Idle;
      countdown := CountdownStart;
      location := None;
      contactCount := 0;
      alertLogs := [];
    }

    /** The countdown effect: once the counter has run out, move on to locating. */
    method CountdownEffect()
      modifies this`state
      ensures View() == Settle(old(View()))
    {
      if state != Countdown {
        return;
      }
      if countdown <= 0 {
        state := Locating;
      }
    }

    /** `handleSOS`. */
    method HandleSos()
      requires Inv(View())
      modifies this`state, this`countdown
      ensures Inv(View())
      ensures View() == Next(old(View()), Press)
    {
      state := Countdown;
      countdown := CountdownStart;
      CountdownEffect();
    }

    /** One firing of the one-second timer, which is only set while counting
        down above 0: the counter drops by one. */
    method OnTimer()
      requires Inv(View())
      modifies this`state, this`countdown
      ensures Inv(View())
      ensures View() == Next(old(View()), Tick)
    {
      if state == Countdown && countdown > 0 {
        countdown := countdown - 1;
        CountdownEffect();
      }
    }

    /** `resetState`. */
    method ResetState()
      modifies this`state, this`countdown, this`location
      ensures View() == Cleared(old(View()))
    {
      state := Idle;
      countdown := CountdownStart;
      location := None;
    }

    /** `handleCancel`. */
    method HandleCancel()
      requires Inv(View())
      modifies this`state, this`countdown, this`location
      ensures Inv(View())
      ensures View() == Next(old(View()), Cancel)
    {
      ResetState();
    }

    /** The "Return to Dashboard" button of the confirmation. */
    method HandleReturn()
      requires Inv(View())
      modifies this`state, this`countdown, this`location
      ensures Inv(View())
      ensures View() == Next(old(View()), Return)
    {
      ResetState();
    }

    /** The location request's success callback. `rows` is the number of
        contact rows the query returned (none when it returned no data) and
        `logOk` whether the `alert_logs` insert was accepted; its failure is
        not looked at. One log row records the user, the position and the
        count shown. */
    method OnLocated(at: Coords, rows: Option<nat>, logOk: bool)
      requires Inv(View())
      modifies this`state, this`location, this`contactCount, this`alertLogs
      ensures Inv(View())
      ensures View() == Next(old(View()), Located(at, rows))
      ensures old(state) == Locating && logOk ==>
        alertLogs == old(alertLogs) + [AlertLog(user.id, at, contactCount)]
      ensures !(old(state) == Locating && logOk) ==> alertLogs == old(alertLogs)
    {
      if state != Locating {
        return;
      }
      location := Some(at);
      var numContacts := CountOf(rows);
      contactCount := numContacts;
      if logOk {
        alertLogs := alertLogs + [AlertLog(user.id, at, numContacts)];
      }
      state := Sent;
    }

    /** The location request's error callback. */
    method OnLocateFailed()
      requires Inv(View())
      modifies this`state, this`countdown, this`location
      ensures Inv(View())
      ensures View() == Next(old(View()), LocateFailed)
    {
      if state == Locating {
        ResetState();
      }
    }
  }
}
