/** What the scripts send to the MQTT broker, the per-user topic, and the
    change-only publisher (check_and_publish, and on_message in
    src/demo/demo_receive.py). A publish is an append to an outbox. */
module Publishing {

  /** The JSON objects the scripts publish. */
  datatype Payload =
    | ShownPayload(shown: string, batterylife: int)                        // {"Shown", "batterylife"}
    | ResultPayload(prediction: string, shown: string, batterylife: int)   // {"Prediction", "Shown", "batterylife"}
    | DataPayload(data: seq<seq<real>>, batterylife: int)                  // {"data", "batterylife"}

  datatype Message = Message(topic: string, payload: Payload)

  const PREDICT_PREFIX := "Group_12/LSTM/predict/"
  const HAND_SUFFIX := "_hand"

  /** The topic suffix chosen from the -n user name; any other name is Permas. */
  function UserName(name: string): string
  {
    if name == "glen" then "Glen"
    else if name == "nicholas" then "Nicholas"
    else if name == "sean" then "Sean"
    else "Permas"
  }

  predicate EndsWithHand(t: string)
  {
    |t| >= |HAND_SUFFIX| && t[|t| - |HAND_SUFFIX|..] == HAND_SUFFIX
  }

  /** SensorTag.__init__: the prediction topic for a user and a model choice. */
  function UserTopic(name: string, model: string): (t: string)
    ensures |t| > |PREDICT_PREFIX| && t[..|PREDICT_PREFIX|] == PREDICT_PREFIX
    ensures EndsWithHand(t) <==> model == "hand"
  {
    var t := PREDICT_PREFIX + UserName(name);
    assert t[..|PREDICT_PREFIX|] == PREDICT_PREFIX;
    if model == "hand" then
      assert (t + HAND_SUFFIX)[|t + HAND_SUFFIX| - |HAND_SUFFIX|..] == HAND_SUFFIX;
      assert (t + HAND_SUFFIX)[..|PREDICT_PREFIX|] == PREDICT_PREFIX;
      t + HAND_SUFFIX
    else
      assert t[|t| - 1] == UserName(name)[|UserName(name)| - 1];
      assert t[|t| - |HAND_SUFFIX|..][4] == t[|t| - 1];
      t
  }

  /** The topic for every user name and model choice: the three known names
      get their own topic, any other name publishes as Permas, and the hand
      model appends "_hand". */
  lemma UserTopicTable(name: string, model: string)
    ensures UserTopic(name, model) ==
              (if name == "glen" then "Group_12/LSTM/predict/Glen"
               else if name == "nicholas" then "Group_12/LSTM/predict/Nicholas"
               else if name == "sean" then "Group_12/LSTM/predict/Sean"
               else "Group_12/LSTM/predict/Permas")
              + (if model == "hand" then "_hand" else "")
  {
    var user := if name == "glen" then "Glen"
                else if name == "nicholas" then "Nicholas"
                else if name == "sean" then "Sean"
                else "Permas";
    assert UserName(name) == user;
    assert PREDICT_PREFIX + user ==
             if name == "glen" then "Group_12/LSTM/predict/Glen"
             else if name == "nicholas" then "Group_12/LSTM/predict/Nicholas"
             else if name == "sean" then "Group_12/LSTM/predict/Sean"
             else "Group_12/LSTM/predict/Permas";
  }

  /** The fixed topics of the single-user scripts are the ones the user-topic
      rule gives: demo_final_2 publishes as Nicholas with the hand model, the
      src/demo receiver as Sean with the head model. */
  lemma FixedTopicsMatchUserTopic()
    ensures UserTopic("nicholas", "hand") == "Group_12/LSTM/predict/Nicholas_hand"
    ensures UserTopic("sean", "head") == "Group_12/LSTM/predict/Sean"
  {
  }

  // ---------------------------------------------------------------------
  // Change-only publishing
  // ---------------------------------------------------------------------

  /** The last label handed to the publisher, or prev when there is none. */
  function LastOr(prev: string, labels: seq<string>): string
  {
    if labels == [] then prev else labels[|labels| - 1]
  }

  /** The labels that reach the broker when `labels` are handed to the
      publisher one by one, starting with previous-shown `prev`. */
  function Published(prev: string, labels: seq<string>): seq<string>
  {
    if labels == [] then []
    else
      var init := labels[..|labels| - 1];
      var x := labels[|labels| - 1];
      Published(prev, init) + (if x != LastOr(prev, init) then [x] else [])
  }

  predicate NoRepeats(prev: string, out: seq<string>)
  {
    (out != [] ==> out[0] != prev) &&
    forall i :: 0 <= i < |out| - 1 ==> out[i] != out[i + 1]
  }

  /** No label is published twice in a row and the first one differs from
      the initial previous-shown; the last label published is the last label
      handed over (when nothing was published, that last label equals the
      initial previous-shown); and no more messages go out than labels come
      in. */
  lemma {:induction false} PublishedHasNoRepeats(prev: string, labels: seq<string>)
    ensures NoRepeats(prev, Published(prev, labels))
    ensures |Published(prev, labels)| <= |labels|
    ensures LastOr(prev, Published(prev, labels)) == LastOr(prev, labels)
    decreases |labels|
  {
    if labels != [] {
      var init := labels[..|labels| - 1];
      var x := labels[|labels| - 1];
      PublishedHasNoRepeats(prev, init);
      var p := Published(prev, init);
      if x != LastOr(prev, init) {
        assert Published(prev, labels) == p + [x];
        forall i | 0 <= i < |p + [x]| - 1 ensures (p + [x])[i] != (p + [x])[i + 1] {
          if i < |p| - 1 {
            assert (p + [x])[i] == p[i] && (p + [x])[i + 1] == p[i + 1];
          }
        }
      }
    }
  }

  /** Handing the publisher the same label it just had sends nothing. */
  lemma RepeatPublishesNothing(prev: string, labels: seq<string>, x: string)
    ensures Published(prev, labels + [x, x]) == Published(prev, labels + [x])
  {
    assert (labels + [x, x])[..|labels| + 1] == labels + [x];
    assert (labels + [x])[..|labels|] == labels;
  }

  /** A run of labels all equal to the previous-shown publishes nothing. */
  lemma {:induction false} SteadyPublishesNothing(prev: string, labels: seq<string>)
    requires forall i :: 0 <= i < |labels| ==> labels[i] == prev
    ensures Published(prev, labels) == []
    decreases |labels|
  {
    if labels != [] {
      SteadyPublishesNothing(prev, labels[..|labels| - 1]);
    }
  }

  function ShownOf(p: Payload): string
    requires !p.DataPayload?
  {
    p.shown
  }

  function ShownLabels(outbox: seq<Message>): (r: seq<string>)
    requires forall i :: 0 <= i < |outbox| ==> !outbox[i].payload.DataPayload?
    ensures |r| == |outbox|
  {
    if outbox == [] then []
    else ShownLabels(outbox[..|outbox| - 1]) + [ShownOf(outbox[|outbox| - 1].payload)]
  }

  /** The previous-shown label and the messages sent so far, on one topic. */
  class Publisher {
    const topic: string
    var previousShown: string
    var outbox: seq<Message>

    /** Every label ever handed over, oldest first. */
    ghost var Labels: seq<string>

    /** The outbox holds exactly the change-only selection of the labels, all
        on this publisher's topic, and previous-shown is the last label. */
    ghost predicate Valid()
      reads this
    {
      (forall i :: 0 <= i < |outbox| ==> outbox[i].topic == topic && !outbox[i].payload.DataPayload?) &&
      ShownLabels(outbox) == Published("", Labels) &&
      previousShown == LastOr("", Labels)
    }

    /** PREVIOUS_SHOWN = '' (or self._previous_shown = '') at start-up. */
    constructor (t: string)
      ensures Valid() && topic == t && previousShown == "" && outbox == [] && Labels == []
    {
      topic := t;
      previousShown := "";
      outbox := [];
      Labels := [];
    }

    /** check_and_publish: publish only when the label differs from the
        previous one, and remember it either way. */
    method PublishIfChanged(p: Payload)
      requires Valid() && !p.DataPayload?
      modifies this
      ensures Valid()
      ensures Labels == old(Labels) + [p.shown]
      ensures previousShown == p.shown
      ensures outbox == old(outbox) + (if p.shown != old(previousShown) then [Message(topic, p)] else [])
    {
      if p.shown != previousShown {
        outbox := outbox + [Message(topic, p)];
        assert outbox[..|outbox| - 1] == old(outbox);
      }
      previousShown := p.shown;
      Labels := Labels + [p.shown];
      assert Labels[..|Labels| - 1] == old(Labels);
    }
  }
}
