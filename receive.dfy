/** The receiving side of the producer/consumer split: src/demo/demo_receive.py
    and the older demo_receive.py at the repository root. Both keep the raw
    `prediction` and the display filter as module globals and classify the
    window that arrives in each message. */
module Receive {
  import opened Hysteresis
  import opened Publishing

  const RECEIVE_CONFIDENCE := 0.93
  const RECEIVE_INTERVAL := 5.0
  const RECEIVE_ACTIONS := ["Nod", "Shake"]
  const SRC_RECEIVE_TOPIC := "Group_12/LSTM/predict/Sean"
  const ROOT_RECEIVE_TOPIC := "Group_12/LSTM/predict"

  /** The decoded request: {"data": window, "batterylife": level}. */
  datatype Request = Request(data: seq<seq<real>>, batterylife: int)

  /** What a message handler ended with. */
  datatype Outcome = Handled | Raised(error: string)

  /** The messages a handler has sent (the paho client's publish). */
  class Outbox {
    var sent: seq<Message>

    constructor ()
      ensures sent == []
    {
      sent := [];
    }

    method Publish(m: Message)
      modifies this
      ensures sent == old(sent) + [m]
    {
      sent := sent + [m];
    }
  }

  /** The globals prediction, temp_predict and predict_time. */
  class Receiver {
    var prediction: string
    var display: Display

    constructor ()
      ensures prediction == "" && display == INITIAL
    {
      prediction := "";
      display := INITIAL;
    }

    /** output_to_user: filter the global `prediction` (hold for 5 s). */
    method OutputToUser(now: real) returns (shown: string)
      modifies this
      ensures prediction == old(prediction)
      ensures Step(display, shown) == Hysteresis.OutputToUser(old(display), prediction, now, RECEIVE_INTERVAL)
    {
      if prediction == IDLE {
        if display.temp != IDLE {
          if now - display.since < RECEIVE_INTERVAL {
            shown := display.temp;
          } else {
            display := display.(temp := IDLE);
            shown := prediction;
          }
        } else {
          shown := display.temp;
        }
      } else {
        display := Display(prediction, now);
        shown := display.temp;
      }
    }

    /** predict: gate the classifier output at 0.93, store it in the global
        `prediction`, filter it, and return both ("Prediction", "Shown"). */
    method Predict(result: seq<real>, now: real) returns (raw: string, shown: string)
      requires UsableOutput(result)
      modifies this
      ensures raw == prediction == RawLabel(result, RECEIVE_CONFIDENCE, RECEIVE_ACTIONS)
      ensures raw == IDLE <==> forall j :: 0 <= j < |result| ==> result[j] < RECEIVE_CONFIDENCE
      ensures Step(display, shown) == Hysteresis.OutputToUser(old(display), raw, now, RECEIVE_INTERVAL)
    {
      var themax := Argmax(result);
      if result[themax] < RECEIVE_CONFIDENCE {
        prediction := IDLE;
      } else {
        prediction := RECEIVE_ACTIONS[themax];
      }
      raw := prediction;
      shown := OutputToUser(now);
    }
  }

  /** The two-class model gives one probability per action. */
  predicate UsableOutput(result: seq<real>)
  {
    0 < |result| <= |RECEIVE_ACTIONS|
  }

  /** The module globals of src/demo/demo_receive.py at start-up: nothing
      predicted yet, PREVIOUS_SHOWN empty, and results go to Sean's topic. */
  method Setup() returns (r: Receiver, pub: Publisher)
    ensures fresh(r) && fresh(pub)
    ensures r.prediction == "" && r.display == INITIAL
    ensures pub.Valid() && pub.topic == SRC_RECEIVE_TOPIC && pub.previousShown == "" && pub.outbox == []
  {
    r := new Receiver();
    pub := new Publisher(SRC_RECEIVE_TOPIC);
  }

  /** on_message in src/demo/demo_receive.py: classify, then publish
      {"Prediction", "Shown", "batterylife"} on Sean's topic only when Shown
      changed. */
  method OnMessage(r: Receiver, pub: Publisher, req: Request, classify: seq<seq<real>> -> seq<real>, now: real)
    returns (raw: string, shown: string)
    requires pub.Valid() && pub.topic == SRC_RECEIVE_TOPIC && UsableOutput(classify(req.data))
    modifies r, pub
    ensures pub.Valid()
    ensures Step(r.display, shown) == Hysteresis.OutputToUser(old(r.display), raw, now, RECEIVE_INTERVAL)
    ensures raw == RawLabel(classify(req.data), RECEIVE_CONFIDENCE, RECEIVE_ACTIONS)
    ensures pub.outbox == old(pub.outbox) +
            (if shown != old(pub.previousShown) then [Message(SRC_RECEIVE_TOPIC, ResultPayload(raw, shown, req.batterylife))] else [])
    ensures pub.previousShown == shown
  {
    raw, shown := r.Predict(classify(req.data), now);
    pub.PublishIfChanged(ResultPayload(raw, shown, req.batterylife));
  }

  /** on_message in demo_receive.py as written: it calls `console.log` (a
      JavaScript name, undefined in Python) before classifying, so every
      message raises NameError and nothing is classified or published. */
  method OnMessageRootAsWritten(r: Receiver, out: Outbox, req: Request) returns (outcome: Outcome)
    ensures outcome == Raised("NameError")
  {
    outcome := Raised("NameError");
  }

  /** on_message in demo_receive.py with the stray console.log line removed:
      every message is classified and answered with exactly one publish. */
  method OnMessageRoot(r: Receiver, out: Outbox, req: Request, classify: seq<seq<real>> -> seq<real>, now: real)
    returns (outcome: Outcome, raw: string, shown: string)
    requires UsableOutput(classify(req.data))
    modifies r, out
    ensures outcome == Handled
    ensures raw == RawLabel(classify(req.data), RECEIVE_CONFIDENCE, RECEIVE_ACTIONS)
    ensures Step(r.display, shown) == Hysteresis.OutputToUser(old(r.display), raw, now, RECEIVE_INTERVAL)
    ensures out.sent == old(out.sent) + [Message(ROOT_RECEIVE_TOPIC, ResultPayload(raw, shown, req.batterylife))]
  {
    raw, shown := r.Predict(classify(req.data), now);
    out.Publish(Message(ROOT_RECEIVE_TOPIC, ResultPayload(raw, shown, req.batterylife)));
    outcome := Handled;
  }

  /** The receiver's raw label never names an action called 'IDLE', so its
      raw-label filter is the gate-driven filter of the sensortag scripts. */
  lemma ReceiverFilterIsGated(d: Display, result: seq<real>, now: real)
    requires UsableOutput(result)
    ensures Hysteresis.OutputToUser(d, RawLabel(result, RECEIVE_CONFIDENCE, RECEIVE_ACTIONS), now, RECEIVE_INTERVAL)
         == FilterGated(d, Gate(result, RECEIVE_CONFIDENCE, RECEIVE_ACTIONS), now, RECEIVE_INTERVAL)
  {
    RawLabelFilterAgrees(d, result, RECEIVE_CONFIDENCE, RECEIVE_ACTIONS, now, RECEIVE_INTERVAL);
  }
}
