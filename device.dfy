/** One device session of the live-inference scripts: SensorTag in
    src/demo/sensortag.py and the module-level state of src/demo/demo_final_2.py.
    Each pass of their `while True` loop reads TIMESTEPS ticks, classifies the
    window, refreshes the battery level every BATTERY_INTERVAL seconds and
    publishes the shown label if it changed. Sensor reads, the battery read
    and the clock are parameters. */
module Device {
  import opened Window
  import opened Buffers
  import opened Hysteresis
  import opened Classifier
  import opened Publishing

  const TIMESTEPS := 5
  const BATTERY_INTERVAL := 15.0
  const FINAL2_TOPIC := "Group_12/LSTM/predict/Nicholas_hand"

  class Session {
    const model: LstmModel
    const publisher: Publisher
    var batteryLife: int
    var prevBatteryTime: real

    /** Between passes the buffers are empty. */
    ghost predicate Valid()
      reads this, model, model.buffers, publisher
    {
      model.Valid() && publisher.Valid() && model.buffers.Samples == []
    }

    /** The state after the set-up of run: the first battery reading taken
        at `now`. */
    constructor (cfg: Config, topic: string, battery: int, now: real)
      ensures Valid() && fresh(model) && fresh(model.buffers) && fresh(publisher)
      ensures model.confidence == cfg.confidence && model.actions == cfg.actions && model.interval == cfg.interval
      ensures model.display == INITIAL
      ensures publisher.topic == topic && publisher.outbox == [] && publisher.previousShown == ""
      ensures batteryLife == battery && prevBatteryTime == now
    {
      model := new LstmModel(cfg);
      publisher := new Publisher(topic);
      batteryLife := battery;
      prevBatteryTime := now;
    }

    /** One pass of the loop. `readings` are the TIMESTEPS (barometer,
        movement) reads, `classify` the loaded model, `battery` what a battery
        read would return at `now`. */
    method Pass(readings: seq<Sample<real>>, classify: seq<seq<real>> -> seq<real>, now: real, battery: int)
      returns (shown: string, window: seq<seq<real>>)
      requires Valid()
      requires |readings| == TIMESTEPS && AllWellFormed(readings)
      requires UsableOutput(classify(Assemble(TRAINED_ORDER, readings)), model.actions)
      modifies this, model, model.buffers, publisher
      ensures Valid()
      ensures window == Assemble(TRAINED_ORDER, readings)
      ensures |window| == 10 && forall k :: 0 <= k < 10 ==> |window[k]| == TIMESTEPS
      ensures Step(model.display, shown) ==
              FilterGated(old(model.display), Gate(classify(window), model.confidence, model.actions), now, model.interval)
      ensures if now - old(prevBatteryTime) > BATTERY_INTERVAL
              then batteryLife == battery && prevBatteryTime == now
              else batteryLife == old(batteryLife) && prevBatteryTime == old(prevBatteryTime)
      ensures publisher.outbox == old(publisher.outbox) +
              (if shown != old(publisher.previousShown) then [Message(publisher.topic, ShownPayload(shown, batteryLife))] else [])
      ensures publisher.previousShown == shown
    {
      model.buffers.Collect(readings);
      assert model.buffers.Samples == readings;
      shown, window := model.Predict(classify, now);
      if now - prevBatteryTime > BATTERY_INTERVAL {
        batteryLife := battery;
        prevBatteryTime := now;
      }
      publisher.PublishIfChanged(ShownPayload(shown, batteryLife));
    }
  }

  /** SensorTag.__init__ and the set-up of SensorTag.run in src/demo/sensortag.py. */
  method NewSensorTag(name: string, modelChoice: string, battery: int, now: real) returns (s: Session)
    ensures fresh(s) && s.Valid()
    ensures s.publisher.topic == UserTopic(name, modelChoice)
    ensures s.model.confidence == (if modelChoice == "hand" then 0.85 else 0.88)
    ensures s.model.interval == SHOW_INTERVAL && IDLE !in s.model.actions
  {
    var file := if modelChoice == "hand" then "hand_model.hd5" else "lstm_model.hd5";
    s := new Session(SensorTagConfig(file), UserTopic(name, modelChoice), battery, now);
  }

  /** The set-up of run in src/demo/demo_final_2.py. */
  method NewFinal2(battery: int, now: real) returns (s: Session)
    ensures fresh(s) && s.Valid()
    ensures s.publisher.topic == FINAL2_TOPIC && s.model.actions == FINAL2_CONFIG.actions
    ensures s.model.confidence == 0.85 && s.model.interval == SHOW_INTERVAL
  {
    s := new Session(FINAL2_CONFIG, FINAL2_TOPIC, battery, now);
  }
}
