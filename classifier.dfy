/** lstm_model: the channel buffers, the classifier call and the display
    filter of the live-inference scripts (src/demo/sensortag.py and
    src/demo/demo_final_2.py), with each file's constants. */
module Classifier {
  import opened Window
  import opened Buffers
  import opened Hysteresis
  import opened Wrappers

  /** A deployment's confidence threshold, class-index -> action table and
      SHOW_INTERVAL (seconds). */
  datatype Config = Config(confidence: real, actions: seq<string>, interval: real)

  const SHOW_INTERVAL := 3.0

  /** src/demo/sensortag.py: the hand model and the head model. */
  const HAND_CONFIG := Config(0.85, ["HAND_IDLE", "RAISE", "WAVE", "CLAP"], SHOW_INTERVAL)
  const HEAD_CONFIG := Config(0.88, ["NOD", "SHAKE", "LOOKUP", "TILT"], SHOW_INTERVAL)

  /** src/demo/demo_final_2.py: CONFIDENCE, actions and SHOW_INTERVAL. */
  const FINAL2_CONFIG := Config(0.85, ["IDLE", "RAISE", "WAVE", "CLAP"], SHOW_INTERVAL)

  /** lstm_model.__init__ in src/demo/sensortag.py: the hand settings for
      "hand_model.hd5", the head settings for any other model file. */
  function SensorTagConfig(modelFile: string): (cfg: Config)
    ensures |cfg.actions| == 4 && IDLE !in cfg.actions && cfg.interval == SHOW_INTERVAL
    ensures modelFile == "hand_model.hd5" ==>
              cfg.confidence == 0.85 && cfg.actions == ["HAND_IDLE", "RAISE", "WAVE", "CLAP"]
    ensures modelFile != "hand_model.hd5" ==>
              cfg.confidence == 0.88 && cfg.actions == ["NOD", "SHAKE", "LOOKUP", "TILT"]
  {
    if modelFile == "hand_model.hd5" then HAND_CONFIG else HEAD_CONFIG
  }

  /** The classifier output a window gets is usable by predict: numpy.argmax
      needs a non-empty vector and the action table needs an entry for every
      class. */
  predicate UsableOutput(result: seq<real>, actions: seq<string>)
  {
    0 < |result| <= |actions|
  }

  class LstmModel {
    const confidence: real
    const actions: seq<string>
    const interval: real
    const buffers: ChannelBuffers
    /** _temp_predict and _predict_time (the globals temp_predict and predict_time in demo_final_2). */
    var display: Display

    ghost predicate Valid()
      reads this, buffers
    {
      buffers.Valid()
    }

    constructor (cfg: Config)
      ensures Valid() && fresh(buffers) && buffers.Samples == []
      ensures confidence == cfg.confidence && actions == cfg.actions && interval == cfg.interval
      ensures display == INITIAL
    {
      confidence, actions, interval := cfg.confidence, cfg.actions, cfg.interval;
      buffers := new ChannelBuffers();
      display := INITIAL;
    }

    /** predict: stack the buffers, classify, clear the buffers whatever the
        outcome, then gate and filter. `classify` is the loaded Keras model. */
    method Predict(classify: seq<seq<real>> -> seq<real>, now: real) returns (shown: string, window: seq<seq<real>>)
      requires Valid()
      requires UsableOutput(classify(Assemble(TRAINED_ORDER, buffers.Samples)), actions)
      modifies this, buffers
      ensures Valid() && buffers.Samples == []
      ensures window == Assemble(TRAINED_ORDER, old(buffers.Samples))
      ensures Step(display, shown) == FilterGated(old(display), Gate(classify(window), confidence, actions), now, interval)
    {
      window := buffers.LoadDataset();
      var result := classify(window);
      buffers.Clear();
      var themax := Argmax(result);
      if result[themax] < confidence {
        if display.temp != IDLE {
          if now - display.since < interval {
            shown := display.temp;
          } else {
            display := display.(temp := IDLE);
            shown := IDLE;
          }
        } else {
          shown := display.temp;
        }
      } else {
        display := Display(actions[themax], now);
        shown := display.temp;
      }
    }
  }

  /** In demo_final_2, where class 0 is 'IDLE', a confident class-0 window
      puts 'IDLE' on display and restarts the timer. */
  lemma ConfidentIdleRestartsTimer(d: Display, result: seq<real>, now: real)
    requires UsableOutput(result, FINAL2_CONFIG.actions)
    requires result[0] >= FINAL2_CONFIG.confidence
    requires forall j :: 0 < j < |result| ==> result[j] <= result[0]
    ensures FilterGated(d, Gate(result, FINAL2_CONFIG.confidence, FINAL2_CONFIG.actions), now, FINAL2_CONFIG.interval)
         == Step(Display(IDLE, now), IDLE)
  {
    var k := Argmax(result);
    assert k == 0;
  }

  /** The gate scenario: with the hand model's threshold 0.85, a 0.90 on class
      2 shows "WAVE"; a window whose best class has 0.40 is not confident. */
  lemma HandGateScenario()
    ensures Gate([0.05, 0.05, 0.90, 0.0], HAND_CONFIG.confidence, HAND_CONFIG.actions) == Some("WAVE")
    ensures Gate([0.40, 0.30, 0.20, 0.10], HAND_CONFIG.confidence, HAND_CONFIG.actions) == None
  {
    assert Argmax([0.05, 0.05, 0.90, 0.0]) == 2;
  }

  /** A maximum exactly at the threshold is accepted (the source rejects with `<`). */
  lemma ThresholdIsInclusive(actions: seq<string>)
    requires |actions| >= 2
    ensures Gate([0.85, 0.15], 0.85, actions) == Some(actions[0])
  {
    assert Argmax([0.85, 0.15]) == 0;
  }
}
