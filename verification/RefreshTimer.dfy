/**
 The waiting and refreshing loops of registration_thread in core/sip_output/registrar_manager.c on an ideal
 clock of 0.1 s ticks: `usleep` takes one tick, `sleep` ten, everything else none.
 */
module RefreshTimer {
  import opened Arithmetic

  /** How many ticks the event for a REGISTER takes, and whether it is a positive answer. */
  datatype Response = Response(ticks: nat, positive: bool)

  /** For how many ticks a response is awaited: at most 10 * timeout, but without limit if that is not positive. */
  function Waited(ticks: nat, timeout: int): (waited: nat)
    ensures waited <= ticks && (waited < ticks ==> 1 <= timeout && waited == 10 * timeout)
    ensures 1 <= timeout ==> waited <= 10 * timeout
  {
    if 1 <= timeout && 10 * timeout < ticks then 10 * timeout else ticks
  }

  method AwaitResponse(ticks: nat, timeout: int) returns (waited: nat)
    ensures waited == Waited(ticks, timeout)
  {
    waited := 0;
    while waited < ticks                       // !eventArrived
      invariant waited <= ticks && (1 <= timeout ==> waited < timeout * 10)
    {
      waited := waited + 1;
      if waited == timeout * 10 {
        break;
      }
    }
  }

  /** The flag the thread tests after the wait has been set by then. */
  predicate Confirms(r: Response, timeout: int) {
    r.positive && (1 <= timeout ==> r.ticks <= 10 * timeout)
  }

  /** How many responses confirm their REGISTER before the first that does not. */
  function Confirmed(responses: seq<Response>, timeout: int): (n: nat)
    ensures n <= |responses| && forall k :: 0 <= k < n ==> Confirms(responses[k], timeout)
    ensures n < |responses| ==> !Confirms(responses[n], timeout)
  {
    if responses == [] || !Confirms(responses[0], timeout) then 0 else 1 + Confirmed(responses[1..], timeout)
  }

  /**
   A thread: when it has sent its REGISTERs, the time, the passes since the last of them, and whether it gave
   up. `peak` is the greatest age a confirmed registration has reached at a pass of the loop; time and age are in
   ticks.
   */
  datatype Timer = Timer(sends: seq<int>, now: int, counter: nat, gaveUp: bool, peak: int)

  /** The first REGISTER goes out at time 0. */
  function Begin(timeout: int, r: Response): Timer {
    var now := Waited(r.ticks, timeout);
    Timer([0], now, 0, !Confirms(r, timeout), if Confirms(r, timeout) then now else 0)
  }

  /** How old the registration is. */
  function Age(t: Timer): int
    requires t.sends != []
  {
    t.now - t.sends[|t.sends| - 1]
  }

  /** The thread sleeps a second; `r` is what answers the next REGISTER if it is due then. */
  function Pass(t: Timer, period: int, timeout: int, r: Response): Timer
    requires t.sends != []
  {
    var slept := t.(now := t.now + 10, counter := t.counter + 1);
    var aged := slept.(peak := if t.peak < Age(slept) then Age(slept) else t.peak);
    if aged.counter != period then aged
    else
      aged.(sends := t.sends + [aged.now], now := aged.now + Waited(r.ticks, timeout), counter := 0,
            gaveUp := !Confirms(r, timeout))
  }

  /** A thread that is not asked to stop for this many passes; it does nothing more once it has given up. */
  function After(period: int, timeout: int, responses: seq<Response>, seconds: nat): (t: Timer)
    requires |responses| > seconds
    ensures 1 <= |t.sends| <= seconds + 1
  {
    if seconds == 0 then Begin(timeout, responses[0])
    else
      var t := After(period, timeout, responses, seconds - 1);
      if t.gaveUp then t else Pass(t, period, timeout, responses[|t.sends|])
  }

  lemma {:induction false} GivenUpStays(period: int, timeout: int, responses: seq<Response>, early: nat, late: nat)
    requires early <= late < |responses| && After(period, timeout, responses, early).gaveUp
    ensures After(period, timeout, responses, late) == After(period, timeout, responses, early)
    decreases late
  {
    if early < late { GivenUpStays(period, timeout, responses, early, late - 1); }
  }

  /** What the outer loop has done after some passes is what After says. */
  predicate Reached(t: Timer, period: int, timeout: int, responses: seq<Response>, pass: nat) {
    pass < |responses| && t.sends != [] && (!t.gaveUp ==> |t.sends| <= pass + 1)
    && t.(peak := 0) == After(period, timeout, responses, pass).(peak := 0)
  }

  lemma ReachedNext(t: Timer, period: int, timeout: int, responses: seq<Response>, pass: nat)
    requires Reached(t, period, timeout, responses, pass) && !t.gaveUp && pass + 1 < |responses|
    ensures Reached(Pass(t, period, timeout, responses[|t.sends|]), period, timeout, responses, pass + 1)
  {
  }

  /** The two loops of the thread, for `seconds` passes of the outer one. */
  method RefreshLoop(expire: int, preExpireRange: int, timeout: int, responses: seq<Response>, seconds: nat)
    returns (sends: seq<int>, now: int, gaveUp: bool)
    requires |responses| > seconds
    ensures var t := After(expire - preExpireRange, timeout, responses, seconds);
            sends == t.sends && now == t.now && gaveUp == t.gaveUp
    ensures |sends| == Sends(expire - preExpireRange, Confirmed(responses, timeout), seconds)
  {
    ghost var period := expire - preExpireRange;
    sends := [0];
    now := AwaitResponse(responses[0].ticks, timeout);
    gaveUp := !(responses[0].ticks <= now && responses[0].positive);
    var counter, pass := 0, 0;
    while pass < seconds && !gaveUp
      invariant 0 <= pass <= seconds && counter >= 0
      invariant Reached(Timer(sends, now, counter, gaveUp, 0), period, timeout, responses, pass)
    {
      ReachedNext(Timer(sends, now, counter, gaveUp, 0), period, timeout, responses, pass);
      now := now + 10;
      counter := counter + 1;
      pass := pass + 1;
      if counter == expire - preExpireRange {
        counter := 0;
        var r := responses[|sends|];
        sends := sends + [now];
        var waited := AwaitResponse(r.ticks, timeout);
        now := now + waited;
        gaveUp := !(r.ticks <= waited && r.positive);
      }
    }
    if gaveUp && pass < seconds { GivenUpStays(period, timeout, responses, pass, seconds); }
    SendCount(period, timeout, responses, seconds);
  }

  /** A thread gives up exactly when the answer to its last REGISTER was negative, or late where there is a limit. */
  lemma {:induction false} GivesUpIff(period: int, timeout: int, responses: seq<Response>, seconds: nat)
    requires |responses| > seconds
    ensures var t := After(period, timeout, responses, seconds);
            var r := responses[|t.sends| - 1];
            t.gaveUp <==> !r.positive || (1 <= timeout && r.ticks > 10 * timeout)
  {
    if seconds > 0 { GivesUpIff(period, timeout, responses, seconds - 1); }
  }

  // ---------------------------------------------------------------- how many REGISTERs, and when

  /** One at the start and one per period, until the first response that does not confirm its REGISTER. */
  function Sends(period: int, confirmed: nat, seconds: nat): int {
    1 + Min(if period >= 1 then seconds / period else 0, confirmed)
  }

  /** What a thread keeps: its age and its passes add up. */
  ghost predicate Sound(t: Timer, period: int, timeout: int, responses: seq<Response>, seconds: nat) {
    && 1 <= |t.sends| <= |responses| && |t.sends| <= Confirmed(responses, timeout) + 1
    && (t.gaveUp <==> |t.sends| == Confirmed(responses, timeout) + 1)
    && (!t.gaveUp ==> Age(t) == responses[|t.sends| - 1].ticks + 10 * t.counter)
    && (period < 1 ==> |t.sends| == 1 && (t.gaveUp || t.counter == seconds))
    && (period >= 1 ==>
          && Times(|t.sends| - 1, period) <= seconds
          && (!t.gaveUp ==> t.counter < period && seconds == Times(|t.sends| - 1, period) + t.counter))
  }

  lemma SoundNext(t: Timer, period: int, timeout: int, responses: seq<Response>, seconds: nat)
    requires Sound(t, period, timeout, responses, seconds) && !t.gaveUp && |t.sends| < |responses|
    ensures Sound(Pass(t, period, timeout, responses[|t.sends|]), period, timeout, responses, seconds + 1)
  {
  }

  lemma {:induction false} StaysSound(period: int, timeout: int, responses: seq<Response>, seconds: nat)
    requires |responses| > seconds
    ensures Sound(After(period, timeout, responses, seconds), period, timeout, responses, seconds)
  {
    if seconds > 0 {
      StaysSound(period, timeout, responses, seconds - 1);
      var t := After(period, timeout, responses, seconds - 1);
      if !t.gaveUp { SoundNext(t, period, timeout, responses, seconds - 1); }
    }
  }

  lemma SendCount(period: int, timeout: int, responses: seq<Response>, seconds: nat)
    requires |responses| > seconds
    ensures |After(period, timeout, responses, seconds).sends| == Sends(period, Confirmed(responses, timeout), seconds)
  {
    StaysSound(period, timeout, responses, seconds);
    var t, confirmed := After(period, timeout, responses, seconds), Confirmed(responses, timeout);
    if period >= 1 {
      QuotientAtLeast(seconds, period, |t.sends| - 1);
      if !t.gaveUp { QuotientBelow(seconds, period, |t.sends|); }
    }
  }

  /**
   Successive REGISTERs are r + 10 * (expire - preExpireRange) ticks apart, if the response to the earlier one
   takes r, so the later one is in time exactly if r < 10 * preExpireRange.
   */
  lemma {:induction false} GapBelowExpireIff(expire: int, preExpireRange: int, timeout: int, responses: seq<Response>,
                                             seconds: nat, k: nat)
    requires |responses| > seconds && k + 1 < |After(expire - preExpireRange, timeout, responses, seconds).sends|
    ensures var sends := After(expire - preExpireRange, timeout, responses, seconds).sends;
            var gap, r := sends[k + 1] - sends[k], responses[k].ticks;
            && gap == r + 10 * (expire - preExpireRange) && (1 <= timeout ==> r <= 10 * timeout)
            && (gap < 10 * expire <==> r < 10 * preExpireRange)
    decreases seconds
  {
    var t := After(expire - preExpireRange, timeout, responses, seconds - 1);
    if k + 1 < |t.sends| {
      GapBelowExpireIff(expire, preExpireRange, timeout, responses, seconds - 1, k);
    } else {
      StaysSound(expire - preExpireRange, timeout, responses, seconds - 1);
      LastGap(t, expire - preExpireRange, timeout, responses, seconds - 1);
    }
  }

  lemma LastGap(t: Timer, period: int, timeout: int, responses: seq<Response>, seconds: nat)
    requires Sound(t, period, timeout, responses, seconds) && !t.gaveUp && |t.sends| < |responses|
    ensures var sends, k := Pass(t, period, timeout, responses[|t.sends|]).sends, |t.sends| - 1;
            && t.sends <= sends && (1 <= timeout ==> responses[k].ticks <= 10 * timeout)
            && (sends != t.sends ==>
                  |sends| == |t.sends| + 1 && sends[k + 1] - sends[k] == responses[k].ticks + 10 * period)
  {
  }

  // ---------------------------------------------------------------- when no registration lapses

  /** The registration has been as old as `expire` seconds at a pass before its refresh. */
  predicate Lapses(expire: int, preExpireRange: int, timeout: int, responses: seq<Response>, seconds: nat)
    requires |responses| > seconds
  {
    After(expire - preExpireRange, timeout, responses, seconds).peak >= 10 * expire
  }

  lemma PeakNext(t: Timer, expire: int, preExpireRange: int, timeout: int, responses: seq<Response>, seconds: nat)
    requires Sound(t, expire - preExpireRange, timeout, responses, seconds) && !t.gaveUp && |t.sends| < |responses|
    requires expire - preExpireRange >= 1 && 1 <= timeout < preExpireRange && t.peak < 10 * expire
    ensures Pass(t, expire - preExpireRange, timeout, responses[|t.sends|]).peak < 10 * expire
  {
    assert Confirms(responses[|t.sends| - 1], timeout);
  }

  lemma {:induction false} NeverLapses(expire: int, preExpireRange: int, timeout: int, responses: seq<Response>,
                                       seconds: nat)
    requires |responses| > seconds && expire - preExpireRange >= 1 && 1 <= timeout < preExpireRange
    ensures !Lapses(expire, preExpireRange, timeout, responses, seconds)
  {
    if seconds > 0 {
      NeverLapses(expire, preExpireRange, timeout, responses, seconds - 1);
      StaysSound(expire - preExpireRange, timeout, responses, seconds - 1);
      var t := After(expire - preExpireRange, timeout, responses, seconds - 1);
      if !t.gaveUp { PeakNext(t, expire, preExpireRange, timeout, responses, seconds - 1); }
    }
  }

  /** Responses that all take the same time. */
  function Steady(r: Response, n: nat): seq<Response> {
    seq(n, _ => r)
  }

  /** How old the first registration gets if no refresh comes before this pass. */
  lemma {:induction false} Ageing(period: int, timeout: int, r: Response, seconds: nat, passes: nat)
    requires passes <= seconds && (period >= 1 ==> passes <= period) && Confirms(r, timeout)
    ensures var t := After(period, timeout, Steady(r, seconds + 1), passes);
            && t.peak >= r.ticks + 10 * passes
            && (period < 1 || passes < period ==> !t.gaveUp && t.sends == [0] && t.counter == passes &&
                                                  t.now == r.ticks + 10 * passes)
    decreases passes
  {
    if passes > 0 { Ageing(period, timeout, r, seconds, passes - 1); }
  }

  /**
   No registration grows as old as `expire` before it is refreshed, whatever the responses and however long the
   thread runs, exactly if there is a refresh at all and the timeout is a limit below the reserve.
   */
  lemma NeverLapsesIff(expire: int, preExpireRange: int, timeout: int)
    ensures (forall responses, seconds: nat :: |responses| > seconds ==>
               !Lapses(expire, preExpireRange, timeout, responses, seconds))
            <==> expire - preExpireRange >= 1 && 1 <= timeout < preExpireRange
  {
    var period := expire - preExpireRange;
    if period >= 1 && 1 <= timeout < preExpireRange {
      forall responses, seconds: nat | |responses| > seconds
        ensures !Lapses(expire, preExpireRange, timeout, responses, seconds)
      {
        NeverLapses(expire, preExpireRange, timeout, responses, seconds);
      }
    } else {
      var seconds: nat := if period >= 1 then period else if expire >= 0 then expire else 0;
      var slow := if period < 1 then 0 else if timeout >= 1 then 10 * timeout
                  else if preExpireRange > 0 then 10 * preExpireRange else 0;
      Ageing(period, timeout, Response(slow, true), seconds, seconds);
      assert Lapses(expire, preExpireRange, timeout, Steady(Response(slow, true), seconds + 1), seconds);
    }
  }

  /**
   With the shipped settings (1800, 10, 60) a confirmation that takes 10 s or more comes too late for the next
   one.
   */
  lemma ShippedSettingsCanLapse(responses: seq<Response>, seconds: nat, k: nat)
    requires |responses| > seconds && k + 1 < |After(1790, 60, responses, seconds).sends|
    ensures var sends := After(1790, 60, responses, seconds).sends;
            sends[k + 1] - sends[k] >= 10 * 1800 <==> responses[k].ticks >= 100
  {
    GapBelowExpireIff(1800, 10, 60, responses, seconds, k);
  }
}
