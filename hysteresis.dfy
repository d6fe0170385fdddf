/** The confidence gate and the display filter that turn one classifier
    output per window into the gesture shown to the user. */
module Hysteresis {
  import opened Wrappers

  const IDLE := "IDLE"

  /** The filter's two globals (or lstm_model fields): temp_predict, the label
      on display, and predict_time, when it was last set by a confident window. */
  datatype Display = Display(temp: string, since: real)

  /** temp_predict = '' and predict_time = 0.0 at start-up. */
  const INITIAL := Display("", 0.0)

  /** One call of the filter: the state it leaves and the label it returns. */
  datatype Step = Step(next: Display, shown: string)

  // ---------------------------------------------------------------------
  // Confidence gate
  // ---------------------------------------------------------------------

  /** numpy.argmax: the first index of a maximal element. */
  function Argmax(xs: seq<real>): (k: nat)
    requires |xs| > 0
    ensures k < |xs|
    ensures forall j :: 0 <= j < |xs| ==> xs[j] <= xs[k]
    ensures forall j :: 0 <= j < k ==> xs[j] < xs[k]
  {
    if |xs| == 1 then 0
    else
      var k := Argmax(xs[..|xs| - 1]);
      if xs[|xs| - 1] > xs[k] then |xs| - 1 else k
  }

  /** The gate of every predict: the action of the first most probable class
      when its probability is at least `confidence` (the source rejects with
      `<`), None when the window is not confident. */
  function Gate(result: seq<real>, confidence: real, actions: seq<string>): (r: Option<string>)
    requires 0 < |result| <= |actions|
    ensures r.None? <==> forall j :: 0 <= j < |result| ==> result[j] < confidence
    ensures r.Some? ==> exists k :: (0 <= k < |result| && r.value == actions[k] && confidence <= result[k] &&
      (forall j :: 0 <= j < |result| ==> result[j] <= result[k]) &&
      (forall j :: 0 <= j < k ==> result[j] < result[k]))
  {
    var k := Argmax(result);
    if result[k] < confidence then None else Some(actions[k])
  }

  /** demo_receive's `prediction`: the gated action, or 'IDLE' when rejected. */
  function RawLabel(result: seq<real>, confidence: real, actions: seq<string>): (gesture: string)
    requires 0 < |result| <= |actions|
    ensures gesture == IDLE || gesture in actions
    ensures (forall j :: 0 <= j < |result| ==> result[j] < confidence) ==> gesture == IDLE
  {
    match Gate(result, confidence, actions)
    case None => IDLE
    case Some(a) => a
  }

  // ---------------------------------------------------------------------
  // Display filter
  // ---------------------------------------------------------------------

  /** The branch taken when the window brings no new gesture: hold the shown
      gesture while less than `interval` seconds have passed since it was set,
      then fall back to 'IDLE'; an 'IDLE' display stays as it is. */
  function Hold(d: Display, now: real, interval: real): (r: Step)
    ensures r.shown == r.next.temp
    ensures r.next.since == d.since
    ensures r.shown == d.temp || r.shown == IDLE
    ensures r.shown != d.temp ==> now - d.since >= interval
    ensures d.temp != IDLE && now - d.since < interval ==> r.shown == d.temp
    ensures d.temp != IDLE && now - d.since >= interval ==> r.shown == IDLE
  {
    if d.temp != IDLE then
      if now - d.since < interval then Step(d, d.temp)
      else Step(Display(IDLE, d.since), IDLE)
    else Step(d, d.temp)
  }

  /** The branch taken on a new gesture: show it at once and restart the timer. */
  function Show(gesture: string, now: real): (r: Step)
    ensures r.shown == r.next.temp == gesture && r.next.since == now
  {
    Step(Display(gesture, now), gesture)
  }

  /** predict in src/demo/sensortag.py and src/demo/demo_final_2.py: the
      filter branches on the gate itself, so a confident window always
      restarts the timer, whatever its gesture. */
  function FilterGated(d: Display, gated: Option<string>, now: real, interval: real): (r: Step)
    ensures r.shown == r.next.temp
    ensures gated.Some? ==> r.shown == gated.value && r.next.since == now
    ensures gated.None? ==> r.next.since == d.since && (r.shown == d.temp || r.shown == IDLE)
  {
    match gated
    case None => Hold(d, now, interval)
    case Some(gesture) => Show(gesture, now)
  }

  /** output_to_user in both demo_receive.py: the filter branches on whether
      the raw label is 'IDLE'. */
  function OutputToUser(d: Display, prediction: string, now: real, interval: real): (r: Step)
    ensures r.shown == r.next.temp
    ensures prediction != IDLE ==> r.shown == prediction && r.next.since == now
    ensures prediction == IDLE ==> r.next.since == d.since && (r.shown == d.temp || r.shown == IDLE)
  {
    if prediction == IDLE then Hold(d, now, interval) else Show(prediction, now)
  }

  /** When no action is called 'IDLE', branching on the raw label (receive
      side) and branching on the gate (sensortag side) are the same filter. */
  lemma RawLabelFilterAgrees(d: Display, result: seq<real>, confidence: real, actions: seq<string>, now: real, interval: real)
    requires 0 < |result| <= |actions| && IDLE !in actions
    ensures OutputToUser(d, RawLabel(result, confidence, actions), now, interval)
         == FilterGated(d, Gate(result, confidence, actions), now, interval)
  {
    var g := Gate(result, confidence, actions);
    if g.Some? {
      var k :| 0 <= k < |result| && g.value == actions[k];
      assert g.value != IDLE;
    }
  }

  // ---------------------------------------------------------------------
  // Sequences of windows
  // ---------------------------------------------------------------------

  /** One classified window: the gate's verdict and the time predict ran. */
  datatype Input = Input(gated: Option<string>, at: real)

  /** The labels returned for a sequence of windows, from display state d:
      one per window, and a confident window shows its own gesture. */
  function Shown(d: Display, inputs: seq<Input>, interval: real): (r: seq<string>)
    ensures |r| == |inputs|
    ensures forall i :: 0 <= i < |inputs| && inputs[i].gated.Some? ==> r[i] == inputs[i].gated.value
    decreases |inputs|
  {
    if inputs == [] then []
    else
      var s := FilterGated(d, inputs[0].gated, inputs[0].at, interval);
      [s.shown] + Shown(s.next, inputs[1..], interval)
  }

  predicate Quiet(inputs: seq<Input>)
  {
    forall i :: 0 <= i < |inputs| ==> inputs[i].gated.None?
  }

  predicate Monotone(inputs: seq<Input>)
  {
    forall i, j :: 0 <= i < j < |inputs| ==> inputs[i].at <= inputs[j].at
  }

  /** Hold guarantee: once a gesture is shown at t0, every following window
      that brings nothing new and arrives before t0 + interval shows it too
      (no assumption on the order of the times). */
  lemma {:induction false} HoldGuarantee(d: Display, gesture: string, t0: real, quiet: seq<Input>, interval: real)
    requires Quiet(quiet)
    requires forall i :: 0 <= i < |quiet| ==> quiet[i].at - t0 < interval
    ensures forall i :: 0 <= i <= |quiet| ==> Shown(d, [Input(Some(gesture), t0)] + quiet, interval)[i] == gesture
  {
    var e := Display(gesture, t0);
    assert ([Input(Some(gesture), t0)] + quiet)[1..] == quiet;
    HoldFrom(e, quiet, interval);
  }

  lemma {:induction false} HoldFrom(e: Display, quiet: seq<Input>, interval: real)
    requires Quiet(quiet)
    requires forall i :: 0 <= i < |quiet| ==> quiet[i].at - e.since < interval
    ensures Shown(e, quiet, interval) == seq(|quiet|, _ => e.temp)
    decreases |quiet|
  {
    if quiet != [] {
      assert quiet[0].gated.None?;
      assert Quiet(quiet[1..]);
      HoldFrom(e, quiet[1..], interval);
    }
  }

  /** What the filter shows after a confident window at t0 followed only by
      quiet windows at non-decreasing times: the gesture for exactly the
      windows before t0 + interval, 'IDLE' from the first one at or after it. */
  lemma {:induction false} ShownAfterGesture(d: Display, gesture: string, t0: real, quiet: seq<Input>, interval: real)
    requires Quiet(quiet) && Monotone(quiet)
    ensures var r := Shown(d, [Input(Some(gesture), t0)] + quiet, interval);
      r[0] == gesture &&
      forall i :: 0 <= i < |quiet| ==> r[i + 1] == if quiet[i].at - t0 < interval then gesture else IDLE
  {
    assert ([Input(Some(gesture), t0)] + quiet)[1..] == quiet;
    DecayFrom(Display(gesture, t0), gesture, quiet, interval);
  }

  lemma {:induction false} DecayFrom(e: Display, gesture: string, quiet: seq<Input>, interval: real)
    requires Quiet(quiet) && Monotone(quiet)
    requires e.temp == gesture ||
             (e.temp == IDLE && forall i :: 0 <= i < |quiet| ==> quiet[i].at - e.since < interval ==> gesture == IDLE)
    ensures forall i :: 0 <= i < |quiet| ==>
      Shown(e, quiet, interval)[i] == if quiet[i].at - e.since < interval then gesture else IDLE
    decreases |quiet|
  {
    if quiet != [] {
      var s := FilterGated(e, quiet[0].gated, quiet[0].at, interval);
      assert quiet[0].gated.None?;
      var rest := quiet[1..];
      assert Quiet(rest) && Monotone(rest);
      assert forall i :: 0 <= i < |rest| ==> rest[i] == quiet[i + 1];
      assert s.next.since == e.since;
      if e.temp == gesture && gesture != IDLE && quiet[0].at - e.since >= interval {
        assert s.next.temp == IDLE;
        forall i | 0 <= i < |rest| ensures rest[i].at - e.since >= interval {
          assert quiet[0].at <= quiet[i + 1].at;
        }
      }
      DecayFrom(s.next, gesture, rest, interval);
      forall i | 0 <= i < |quiet|
        ensures Shown(e, quiet, interval)[i] == if quiet[i].at - e.since < interval then gesture else IDLE
      {
        if i > 0 {
          assert Shown(e, quiet, interval)[i] == Shown(s.next, rest, interval)[i - 1];
        }
      }
    }
  }

  /** An 'IDLE' display stays 'IDLE' through any number of quiet windows. */
  lemma {:induction false} IdleIsStable(e: Display, quiet: seq<Input>, interval: real)
    requires e.temp == IDLE && Quiet(quiet)
    ensures Shown(e, quiet, interval) == seq(|quiet|, _ => IDLE)
    decreases |quiet|
  {
    if quiet != [] {
      assert quiet[0].gated.None?;
      assert Quiet(quiet[1..]);
      IdleIsStable(e, quiet[1..], interval);
    }
  }

  /** The scenario: 'WAVE' then two quiet windows one second apart with a
      3-second interval shows 'WAVE' three times; a quiet window at 4 s shows 'IDLE'. */
  lemma WaveScenario()
    ensures Shown(INITIAL, [Input(Some("WAVE"), 0.0), Input(None, 1.0), Input(None, 2.0), Input(None, 4.0)], 3.0)
         == ["WAVE", "WAVE", "WAVE", IDLE]
  {
    var quiet := [Input(None, 1.0), Input(None, 2.0), Input(None, 4.0)];
    assert [Input(Some("WAVE"), 0.0), Input(None, 1.0), Input(None, 2.0), Input(None, 4.0)]
        == [Input(Some("WAVE"), 0.0)] + quiet;
    ShownAfterGesture(INITIAL, "WAVE", 0.0, quiet, 3.0);
  }
}
