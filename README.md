# SensorTag gesture pipeline — a Dafny model

The CS3237 group 12 project reads a TI CC2650 SensorTag over Bluetooth Low
Energy, classifies five-tick windows of ten sensor channels with an LSTM, and
relays the result over MQTT. It also records labelled CSV training data. Most of
its code is glue around Bluetooth, MQTT and Keras. This model covers the
deterministic logic inside that glue, which is copied across seven scripts:

- decoding the SensorTag frames and composing the movement control word
  (`decode.dfy`);
- the ten parallel channel lists and the window stacked from them
  (`window.dfy`, `buffers.dfy`);
- the confidence gate and the timer-based display filter that decides which
  gesture is shown (`hysteresis.dfy`, `classifier.dfy`);
- the change-only publisher and the per-user topic (`publisher.dfy`);
- one pass of the live-inference loop of `src/demo/sensortag.py` and
  `src/demo/demo_final_2.py` (`device.dfy`);
- the receiving relays `src/demo/demo_receive.py` and `demo_receive.py`
  (`receive.dfy`), and the sending relay `src/demo/demo_send.py` (`send.dfy`);
- the CSV row writer (`csv.dfy`), the polling collector of
  `src/generate/data/final_generate.py` (`collector.dfy`), and the
  notification-driven recorder and LED loop of `generate.py` (`notify.dfy`).

Code that changes state in place is modelled as classes with `modifies`
clauses. This covers the channel lists, the filter's `temp_predict` and
`predict_time`, `PREVIOUS_SHOWN`, `READY`, the CSV counters and files, and the
control word. Decoders, the gate and the filter step are functions. Each
method is tied to a specification function or a ghost history. For example,
`ChannelBuffers` keeps a ghost list of every tick appended since the last
clear, and every channel list must equal that channel of the history. The
properties of the specification functions are proved as lemmas.

Three things from outside the program are parameters:

- **Time.** `time()` becomes a `now: real` argument.
- **The Keras model.** It becomes a function `classify: seq<seq<real>> -> seq<real>`.
- **Bluetooth reads.** They become the byte sequences or readings handed in.

A publish or a file append is an append to a sequence field.

A below-threshold window does not by itself show "IDLE". Its raw label is
"IDLE" (`Hysteresis.RawLabel`, as the receive relays publish it), but the
display filter keeps showing the held gesture until `SHOW_INTERVAL` has passed
since it was recognised, and only then falls back to "IDLE" (`Hysteresis.Hold`).

## Model

| member | source | states |
|---|---|---|
| Decode.I16 | src/demo/sensortag.py:95 | a `<h` field is a two's-complement value in [-32768, 32768) |
| Decode.EncodeDecodeI16 | src/demo/sensortag.py:95 | decoding the two bytes of any 16-bit signed value gives that value back |
| Decode.DecodeEncodeI16 | src/demo/sensortag.py:95 | re-encoding a decoded pair of bytes gives the same two bytes: `<h` is a bijection |
| Decode.PackU16RoundTrip | src/demo/sensortag.py:104 | `struct.pack("<H", ctrlBits)` puts the low byte first and reads back as the control word |
| Decode.UnpackMovement | src/demo/sensortag.py:94-95 | a frame decodes iff it is exactly 18 bytes, into 9 signed 16-bit fields |
| Decode.UnpackPackMovement | src/demo/sensortag.py:94-95 | any 9 signed 16-bit fields, packed, unpack to the same fields |
| Decode.PackUnpackMovement | src/demo/sensortag.py:94-95 | any 18-byte frame, unpacked and packed again, is the same frame |
| Decode.CbSensor | src/demo/sensortag.py:112-146 | each cb_sensor returns its three fields (gyro 0-2, accel 3-5, mag 6-8) times its scale |
| Decode.OrAllCovers | src/demo/sensortag.py:90-92 | every registered sub-service's enable bits are set in the control word |
| Decode.RegisterTwiceIdempotent | src/demo/sensortag.py:90-92 | registering an already registered sub-service leaves the control word unchanged |
| Decode.MovementSensor.constructor | src/demo/sensortag.py:82-88 | a new movement sensor has control word 0 and no callbacks |
| Decode.MovementSensor.Register | src/demo/sensortag.py:90-92 | register ORs the sub-service's bits into ctrlBits and appends its callback; ctrlBits stays the OR of all registered bits |
| Decode.MovementSensor.ControlPayload | src/demo/sensortag.py:102-105 | enable writes 2 bytes whose little-endian value is ctrlBits |
| Decode.EnableMovement | src/demo/sensortag.py:74-80 | registering accel (56 \| 256), gyro (7), mag (64) in that order gives word 383, written as bytes 0x7F 0x01 |
| Decode.MovementCallback | src/demo/sensortag.py:94-100 | the callback succeeds iff the frame is 18 bytes and three callbacks are registered, and returns 9 values |
| Decode.CallbackInRegistrationOrder | src/demo/sensortag.py:94-100 | with registration order accel, gyro, mag, value k of the reading is frame field k times its group's scale (gyro 0-2, accel 3-5, mag 6-8) |
| Decode.BaroRaw | src/demo/sensortag.py:155-158 | a 6-byte frame gives the pressure count pH*65536 + pM*256 + pL, in [0, 2^24), with bytes 3, 4, 5 as its base-256 digits; other lengths fail |
| Decode.BaroPressure | src/demo/sensortag.py:155-158 | the pressure (count / 100) lies in [0, 2^24 / 100) and exists iff the frame is 6 bytes |
| Decode.BaroDependsOnPressureBytesOnly | src/demo/sensortag.py:156-157 | two frames give the same pressure iff their bytes 3-5 agree; bytes 0-2 are ignored |
| Decode.BatteryLevel | src/demo/demo_send.py:59-61 | the battery level is the first byte of the characteristic, in [0, 255], and the read fails on an empty value |
| Window.TrainedPosition | src/demo/sensortag.py:199-214 | every channel has a position in the trained layout |
| Window.ChannelOf | src/demo/sensortag.py:186-196 | a channel list holds its field of every appended tick, in order: gyro from motion[0..2], acc from [3..5], mag from [6..8], baro from baro |
| Window.Assemble | src/demo/sensortag.py:199-214 | a window has one row per listed channel, each that channel's list |
| Window.SentWindowIgnoresMagYZ | src/demo/sensortag.py:208-210 | as written, two tick sequences that differ only in mag y and mag z give the same window |
| Window.SentWindowCollision | src/demo/demo_final_2.py:200-202 | a concrete pair of different one-tick sequences that reach the classifier as the same window |
| Window.TrainedWindowDeterminesSamples | src/demo/sensortag.py:199-214 | in the corrected layout, equal windows imply equal ticks on every channel |
| Window.SentDiffersFromTrainedOnlyAtMagYZ | src/demo/demo_send.py:186-195 | the as-written and corrected layouts agree except at features 7 and 8, which get mag x |
| Buffers.ChannelBuffers.constructor | src/demo/sensortag.py:175-184 | the ten lists start empty |
| Buffers.ChannelBuffers.Length | src/demo/sensortag.py:175-196 | all ten lists always have the same length, the number of ticks appended |
| Buffers.ChannelBuffers.Append | src/demo/sensortag.py:186-196 | append_buffer adds exactly one tick to the history, keeping every list equal to its channel of the history |
| Buffers.ChannelBuffers.LoadDatasetAsWritten | src/demo/sensortag.py:199-214 | load_dataset as written stacks acc, gyro, mag x three times, then baro |
| Buffers.ChannelBuffers.LoadDataset | src/demo/demo_final_2.py:191-206 | the corrected version of this load_dataset (the code as written stacks mag x three times; see Findings) stacks acc, gyro, mag x, y, z, then baro, each list as long as the history |
| Buffers.ChannelBuffers.Clear | src/demo/sensortag.py:217-227 | clear_buffer empties all ten lists and the history |
| Buffers.ChannelBuffers.Collect | src/demo/sensortag.py:313-316 | the read loop appends the readings, in order, to the history |
| Hysteresis.Argmax | src/demo/sensortag.py:233 | numpy.argmax: an index of a maximal element with every earlier element strictly smaller |
| Hysteresis.Gate | src/demo/sensortag.py:233-235 | the window is rejected iff every probability is below the threshold; otherwise the gate returns the action of the first maximal class, whose probability is at least the threshold |
| Hysteresis.RawLabel | src/demo/demo_receive.py:65-70 | the raw label is "IDLE" or an action, and is "IDLE" when no probability reaches the threshold |
| Hysteresis.Hold | src/demo/sensortag.py:235-244 | on a rejected window the timer is unchanged and the gesture is held before the interval ends; afterwards the display falls back to "IDLE"; an "IDLE" display stays |
| Hysteresis.Show | src/demo/sensortag.py:245-248 | a confident window shows its gesture and restarts the timer at now |
| Hysteresis.FilterGated | src/demo/sensortag.py:229-248 | predict's filter: a confident window shows its gesture and sets the time; a rejected one keeps the time and shows the held gesture or "IDLE" |
| Hysteresis.OutputToUser | src/demo/demo_receive.py:39-54 | output_to_user: a non-"IDLE" label is shown and timed at once; "IDLE" keeps the time and shows the held gesture or "IDLE" |
| Hysteresis.RawLabelFilterAgrees | src/demo/demo_receive.py:39-70 | when no action is named "IDLE", filtering the raw label is the same as filtering the gate's verdict |
| Hysteresis.Shown | src/demo/sensortag.py:312-318 | replaying windows through the filter yields one shown label per window, and every confident window shows its own gesture |
| Hysteresis.HoldGuarantee | src/demo/demo_receive.py:42-45 | after a gesture shown at t0, every following rejected window before t0 + interval shows that gesture |
| Hysteresis.ShownAfterGesture | src/demo/demo_final_2.py:228-241 | with non-decreasing times, after a gesture at t0 the rejected windows show it exactly while now - t0 < interval, and "IDLE" from then on |
| Hysteresis.IdleIsStable | src/demo/sensortag.py:243-244 | an "IDLE" display stays "IDLE" through any run of rejected windows |
| Hysteresis.WaveScenario | src/demo/sensortag.py:235-248 | WAVE at 0 s then rejected windows at 1, 2 and 4 s with a 3 s interval show WAVE, WAVE, WAVE, IDLE |
| Classifier.SensorTagConfig | src/demo/sensortag.py:165-170 | "hand_model.hd5" selects threshold 0.85 and the actions HAND_IDLE, RAISE, WAVE, CLAP; any other file selects 0.88 and NOD, SHAKE, LOOKUP, TILT; neither table contains "IDLE" |
| Classifier.LstmModel.constructor | src/demo/sensortag.py:161-184 | a new model has empty lists, temp '' and time 0, and the configuration's threshold and actions |
| Classifier.LstmModel.Predict | src/demo/sensortag.py:229-248 | predict classifies the stacked window, leaves every list empty whatever the outcome, and updates the display as the gated filter does |
| Classifier.ConfidentIdleRestartsTimer | src/demo/demo_final_2.py:238-241 | in demo_final_2, where class 0 is "IDLE", a confident window whose class 0 is maximal (ties included, as argmax takes the first) shows "IDLE" and restarts the timer |
| Classifier.HandGateScenario | src/demo/sensortag.py:165-167 | with threshold 0.85, 0.90 on class 2 gives "WAVE"; a best class of 0.40 is rejected |
| Classifier.ThresholdIsInclusive | src/demo/demo_final_2.py:228 | a maximum exactly equal to the threshold is accepted (the comparison is `<`) |
| Publishing.UserTopic | src/demo/sensortag.py:259-277 | the topic starts with "Group_12/LSTM/predict/" and ends in "_hand" iff the hand model is chosen |
| Publishing.UserTopicTable | src/demo/sensortag.py:259-268 | for every name and model: glen, nicholas and sean publish on ".../Glen", ".../Nicholas" and ".../Sean", any other name on ".../Permas", with "_hand" appended for the hand model |
| Publishing.FixedTopicsMatchUserTopic | src/demo/demo_final_2.py:277 | demo_final_2's fixed topic is the one SensorTag builds for nicholas with the hand model |
| Publishing.PublishedHasNoRepeats | src/demo/sensortag.py:281-288 | no label is published twice in a row or equal to the start value, the last label published is the last label given, and there are no more messages than labels |
| Publishing.RepeatPublishesNothing | src/demo/sensortag.py:283-288 | handing over the label just handed over publishes nothing more |
| Publishing.SteadyPublishesNothing | src/demo/sensortag.py:283 | labels all equal to the previous-shown value publish nothing |
| Publishing.Publisher.constructor | src/demo/sensortag.py:255 | previous-shown starts as '' with nothing sent |
| Publishing.Publisher.PublishIfChanged | src/demo/demo_final_2.py:266-279 | a message goes out iff the label differs from previous-shown; previous-shown always becomes the label; the outbox stays the change-only selection of all labels |
| Device.Session.constructor | src/demo/sensortag.py:309-310 | a session starts with empty lists, the initial display, the first battery reading and its time |
| Device.Session.Pass | src/demo/sensortag.py:312-327 | one loop pass classifies a 10 x 5 window of the readings, empties the lists, refreshes the battery only after more than 15 s, and publishes {"Shown", "batterylife"} only on change |
| Device.NewSensorTag | src/demo/sensortag.py:251-277 | a SensorTag session publishes on the user's topic with threshold 0.85 (hand) or 0.88 (head) |
| Device.NewFinal2 | src/demo/demo_final_2.py:281-311 | the demo_final_2 session publishes on "…/Nicholas_hand" with threshold 0.85 and the IDLE/RAISE/WAVE/CLAP table |
| Receive.Receiver.constructor | src/demo/demo_receive.py:13-14 | prediction and temp_predict start as '' and predict_time as 0 |
| Receive.Receiver.OutputToUser | src/demo/demo_receive.py:39-54 | output_to_user leaves prediction alone and updates the display as the raw-label filter does, with the 5 s hold |
| Receive.Receiver.Predict | src/demo/demo_receive.py:59-73 | predict stores and returns the raw label, which is "IDLE" iff every probability is below 0.93, and returns the filtered label |
| Receive.Setup | src/demo/demo_receive.py:13-18 | at start-up nothing is predicted, PREVIOUS_SHOWN is empty and the publisher is bound to "Group_12/LSTM/predict/Sean", the topic on_message publishes on (line 89) |
| Receive.OnMessage | src/demo/demo_receive.py:76-91 | on_message publishes {"Prediction", "Shown", "batterylife"} on "Group_12/LSTM/predict/Sean" iff Shown changed and always updates PREVIOUS_SHOWN |
| Receive.OnMessageRootAsWritten | demo_receive.py:72-79 | as written, every message raises NameError at `console.log` before anything is classified or published |
| Receive.OnMessageRoot | demo_receive.py:72-83 | without the stray line, every message is classified and answered by exactly one publish on "Group_12/LSTM/predict" |
| Receive.ReceiverFilterIsGated | src/demo/demo_receive.py:59-73 | the receiver's Nod/Shake filter behaves exactly like the gate-driven filter of the sensortag scripts |
| Send.Sender.constructor | src/demo/demo_send.py:17-29 | the lists start empty, READY false and BATTERYLIFE 0 |
| Send.Sender.Start | src/demo/demo_send.py:228-249 | run resets READY to false and stores the first battery reading |
| Send.Sender.OnMessage | src/demo/demo_send.py:173-178 | a reply sets READY; a reply without "Prediction" raises first and leaves READY alone |
| Send.Sender.SendingData | src/demo/demo_send.py:181-213 | sending_data publishes {"data", "batterylife"} with the stacked window to the classify topic and leaves all ten lists empty |
| Send.Sender.Pass | src/demo/demo_send.py:252-272 | a pass appends 5 ticks to every list, sends a 10 x 5 window and leaves the lists empty |
| Send.ReadyStaysRaised | src/demo/demo_send.py:173-178 | once a reply has arrived, READY stays true through any number of later passes, each of which sends one window without waiting |
| Csv.Rows | src/generate/data/final_generate.py:246-271 | a channel file holds one cell per value written |
| Csv.WriteCell | src/generate/data/final_generate.py:246-271 | the counter stays below TIMESTEPS and resets to 0 exactly when the value is newline-terminated |
| Csv.WriteCellKeepsRows | src/generate/data/final_generate.py:246-271 | one write with the counter keeps the file equal to rows of TIMESTEPS, with the counter at the number written mod TIMESTEPS |
| Csv.RowsComplete | src/generate/data/final_generate.py:246-273 | a file of n values holds n / TIMESTEPS complete rows, and ends on a complete row when TIMESTEPS divides n |
| Collection.Collector.constructor | src/generate/data/final_generate.py:234-244 | the counters start at 0, and the eleven files are opened for appending: each holds what an earlier run left in it (nothing if it did not exist) |
| Collection.Collector.Step | src/generate/data/final_generate.py:225-271 | the first 5 readings are discarded and the 6th on are written to all ten files; val_count stays below 5 and resets exactly when a label line is written |
| Collection.Collector.Run | src/generate/data/final_generate.py:218-273 | the loop writes readings 6, 7, … and stops at 2000 values per channel; each file then holds its earlier contents followed by this run's 400 complete rows, and the label file gains 400 lines |
| Notify.Recorder.constructor | generate.py:30-39 | READY starts at -1 with all counters at 0; the files are modelled as empty (see Left out) |
| Notify.Recorder.WriteAccel | generate.py:138-150 | the accelerometer write appends the raw x, y, z fields, one row per TIMESTEPS values |
| Notify.Recorder.AccelCb | generate.py:127-150 | each notification increments READY, and from READY 2 on writes the raw accel fields; the accel files hold READY - 1 frames |
| Notify.Recorder.GyroCb | generate.py:197-215 | the gyro callback writes the raw fields only from READY 2 on and leaves READY alone |
| Notify.Recorder.MagCb | generate.py:167-186 | the mag callback writes the raw fields only from READY 2 on and leaves READY alone |
| Notify.Recorder.Callback | generate.py:113-116 | a frame of the wrong size changes nothing; otherwise READY grows by the number of registered accelerometers, and with order accel, gyro, mag all three groups write the frame iff READY was at least 1 |
| Notify.CountPositiveIff | generate.py:115-116 | a sub-service's callback runs at least once per notification exactly when it is registered |
| Notify.Recorder.BaroCb | generate.py:226-244 | from READY 1 on, a 6-byte frame's pressure is written, with a label line exactly when its row completes |
| Notify.BaroStartsBeforeMotion | generate.py:229 | after two movement notifications and one barometer notification, the pressure file has a value and the accel file none |
| Notify.ExpectedLed | generate.py:313-319 | the LED is written on passes 0 and 5 of every 10 |
| Notify.LedLoop | generate.py:306-324 | pass i writes red (0x01) when i mod 10 = 0, green (0x02) when i mod 10 = 5, nothing otherwise |

## Left out

- Bluetooth transport (connecting, GATT reads and writes, notifications, the asyncio loop). Decoders take the bytes that a read returns.
- MQTT client setup, subscriptions and JSON encoding. A publish is an append to an outbox of typed payloads.
- Keras/TensorFlow loading and inference, and numpy `dstack`. The classifier is a function parameter returning a probability vector.
- Floating point. Scale factors and `/ 100.0` are exact rationals, so rounding is not modelled.
- Wall-clock time. `now` is a parameter; the temporal lemmas that need it assume non-decreasing times.
- The endless `while True` loops (src/demo/sensortag.py:312, src/demo/demo_final_2.py:313, src/demo/demo_send.py:252, generate.py:308, and the idle loops of both demo_receive files). Each is modelled as one pass (`Device.Session.Pass`, `Send.Sender.Pass`) or as a given number of passes (`Notify.LedLoop`).
- Collection.Collector.Run: the collection loop of src/generate/data/final_generate.py:218 is bounded, stopping after DATA_POINTS values per channel. It is modelled over a finite list of readings, so a sensor that stops sending before then (the source then waits forever) is not modelled.
- The busy-wait on READY in `src/demo/demo_send.py` (274-279) and its battery refresh. It runs alongside the MQTT callback thread (concurrency).
- `src/demo/demo_predict.py`, which holds unresolved merge-conflict markers. It is not part of this model.
- The training scripts, `test.py`, `check_conn_param.py`, `src/demo/mqtt_connection_test.py`, the front-ends and the AWS helper. None of these is part of this model.
- Argument parsing, dotenv, the address file, printing and the start-time accelerometer rate counter in `generate.py`.
- Classifier.LstmModel.Predict, Device.Session.Pass and Receive.Receiver.Predict require a usable classifier output: non-empty, and no longer than the action table. The shipped models give 2 or 4 probabilities, one per action, so they always meet it. On an empty vector the source raises (numpy.argmax). A longer vector raises only when it is confident and its first maximum has no action entry, because the lookup happens on the confident branch alone. The model excludes every longer vector, including the ones the source handles, and does not model the error path.
- Notify.Recorder.constructor: the files are modelled as empty. generate.py opens them for appending, so an earlier run's lines (possibly an unfinished row) stay in front. The file invariants of `Notify.Recorder` therefore describe this run's output only, not the whole file. `Collection.Collector.constructor` takes the earlier contents as a parameter instead.
- Send.Sender.OnMessage, Receive.OnMessage and Receive.OnMessageRoot take the message already decoded. A malformed JSON payload, or a request without "data" or "batterylife" (a KeyError at src/demo/demo_receive.py:81-82 and demo_receive.py:77-78), is not modelled. The only sender always sends both keys.
- Notify.Recorder.Callback: for a registration order other than accelerometer, gyroscope, magnetometer, the contract states only how READY changes, not which files grow.
- Decode.MovementCallback: the contract states the length and the success condition. The values are stated by `Decode.CallbackInRegistrationOrder` for the order the scripts use.
- The channel-list layout: the model's `LoadDataset`, and everything built on it, uses the corrected channel order. The code as written is `LoadDatasetAsWritten` (see Findings).

## Findings

| source | as written | input that shows it | evidently intended | confidence | as-written member | corrected member |
|---|---|---|---|---|---|---|
| src/demo/sensortag.py:208-210 (also src/demo/demo_final_2.py:200-202 and src/demo/demo_send.py:192-194) | the window stacks MAG_X_BUFFER three times, so mag y and mag z never reach the classifier | one tick with magnetometer (0, 1, 1) and one with (0, 2, 2), everything else equal: both give the same window | stack MAG_X, MAG_Y, MAG_Z, the layout the training files are written in | high, not executed | Window.SentWindowIgnoresMagYZ, Window.SentWindowCollision, Buffers.ChannelBuffers.LoadDatasetAsWritten | Window.TrainedWindowDeterminesSamples, Buffers.ChannelBuffers.LoadDataset |
| demo_receive.py:79 | on_message calls `console.log`, which does not exist in Python, before classifying | any message: NameError is raised before predict and publish | log the battery reading (or drop the line) and go on to classify and publish | high, not executed | Receive.OnMessageRootAsWritten | Receive.OnMessageRoot |
