# Tennis swing logger — a Dafny model

This project models the core of a Python tool that records tennis-swing motion data.

A wrist sensor (`Tennis_Sensor_V1`) sends one Bluetooth Low Energy notification per sample. Each notification is a UTF-8 line of six comma-separated numbers: three accelerometer axes and three gyroscope axes.

The logger does four things:

- A background worker owns the link. It connects, subscribes, watches the link and tears it down.
- A notification handler decodes each frame and pushes it into a bounded queue. When the queue is full it drops the oldest sample and counts the overflow.
- A page polls the queue while a take is being recorded. It walks the user through ready → recording → review → save or discard.
- A save writes a CSV file named after the time and the swing categories.

The model covers three versions of this logic:

- the current logger (`tennis_logger.py`, `src/ble_manager.py`, `src/ui.py`, `src/data_manager.py`, `src/config.py`);
- the older single-file logger (`tennis_logger_v2.py`), which has unbounded queues;
- the live analyser page (`tennis_app.py`), which reads three-axis lines from a serial port into a 50-row chart window.

The modules are:

- `Wrappers`: `Option` and `Result`.
- `Text`: Python's `str.strip()` (the exact `isspace` set), `str.split(',')` and its inverse `Join`.
- `Clock`: date-times, `strftime("%Y%m%d_%H%M%S")` and `datetime.isoformat()`.
- `Samples`: one sample and its six named axes.
- `Decoder`: frame → sample. UTF-8 decoding and `float()` are parameters of type `Codec`.
- `BoundedQueue`: `queue.Queue` with `put_nowait`/`get_nowait`, the drop-oldest push, and the consumer's drain loop.
- `BleManager`: `RealBLEManager`. The worker thread is a sequence of atomic `WorkerEvent`s. Notifications are atomic `Event`s interleaved with those steps.
- `Recording`: the ready/recording/review machine that both logger versions share.
- `DataManager`: file name, path, header and rows of the saved CSV file.
- `Logger`: the current page's session state and one script run per interaction.
- `LoggerV2`: the older page and its `BLEClientManager`.
- `Analyzer`: the analyser's chart window and serial reader.

Some behaviour depends on things the model cannot see. These enter as parameters:

- the clock reading (`now: Instant`);
- UTF-8 decoding and float parsing (`Codec`);
- what the scanner discovered (`Discovery`);
- what the link did (`WorkerEvent`);
- whether the file system accepted a write (`written`);
- what the pickers show.

In two places the code does less than it evidently sets out to do. The model follows the code in both:

- **Reconnect.** `stop()` (src/ble_manager.py:137-141) clears `running`, joins the old thread and clears `connected`, which reads as "the old session is over". But the join gives up after 2 seconds, so a new worker can start while the old one is still live (`BleManager.RestartBeforeOldWorkerExits`). When that old worker does end, it leaves `running` set (`BleManager.SupersededExitKeepsRunning`).
- **Overflow count.** The sidebar (src/ui.py:20-22) warns about queue overflows, but it reads a session counter that nothing updates. The manager counts overflows in a field of its own (Findings, first row).

The pages (`Logger.Run`, `LoggerV2.Run`) model the code as written, including the behaviour listed under Findings. Each finding's corrected definition sits beside the as-written one, with its own lemma.

## Model

| member | source | states |
|---|---|---|
| Text.Strip | src/ble_manager.py:88 | The result is the input minus a maximal run of Python-whitespace characters at each end: no longer than the input, and starting and ending with non-space characters unless it is empty. |
| Text.StripTrimmed | src/ble_manager.py:88 | A text that neither starts nor ends with whitespace comes back from `strip()` unchanged. |
| Text.StripIdempotent | src/ble_manager.py:88 | Stripping twice gives the same as stripping once. |
| Text.Split | src/ble_manager.py:89 | `split(',')` yields one more part than there are commas, no part contains a comma, and joining the parts with commas gives back the input. |
| Text.SplitJoin | src/ble_manager.py:89-90 | Splitting the comma-join of comma-free parts gives back exactly those parts. |
| Text.SplitAtSeparator | src/ble_manager.py:89 | Splitting `a + "," + b` gives the parts of `a` followed by the parts of `b`. |
| Clock.Pad | src/data_manager.py:13 | A zero-padded field has exactly the requested width, is all digits, and reads back as the number. |
| Clock.FileStamp | src/data_manager.py:13 | The `%Y%m%d_%H%M%S` stamp is 15 characters: 8 digits, an underscore, 6 digits. |
| Clock.FileStampRoundTrip | src/data_manager.py:13 | Reading the stamp's digit groups gives back year, month, day, hour, minute and second. |
| Clock.IsoFormat | src/data_manager.py:25 | `isoformat()` is 19 characters with `-`, `T` and `:` at fixed positions, or 26 characters with `.` and six digits that read back as the microseconds when those are non-zero. |
| Clock.FileStampAgreesWithIso | src/data_manager.py:13 | The file-name stamp is the date and time digits of the ISO timestamp with the separators removed and `_` between date and time. |
| Samples.FromAxes | src/ble_manager.py:92-100 | Six values become a sample whose axes, read by name, are the values in the order accel_x, accel_y, accel_z, gyro_x, gyro_y, gyro_z. |
| Decoder.ParseAll | src/ble_manager.py:94-99 | Either every field parses and the values line up with the fields, or the error names the first field `float()` rejects and every earlier field parses. |
| Decoder.DecodeText | src/ble_manager.py:88-100 | A wrong field count is reported exactly when the stripped text's comma count + 1 differs from the expected count. Success holds exactly when the count is right and every field parses, and the values are then positional. |
| Decoder.Decode | src/ble_manager.py:86-100 | Bad UTF-8 is an encoding error, and only then. A decoded sample carries the receive time and has five commas in the stripped text, and each field parses to the axis at its position. |
| Decoder.DecodeEncodeText | src/ble_manager.py:88-100 | If the number format round-trips through the parser, decoding the comma-joined text of n values as n fields gives back exactly those values. |
| Decoder.WrongArityRejected | src/ble_manager.py:90 | Well-formed text with a different number of fields than expected is rejected with the actual field count. |
| Decoder.DecodeEncodeSample | src/ble_manager.py:86-100 | A frame carrying a sample's six readings decodes to that sample, re-stamped with the receive time. |
| Decoder.DecodeAll | src/ble_manager.py:86-111 | Decoding a run of frames produces at most one sample per frame. |
| BoundedQueue.PushDropOldest | src/ble_manager.py:101-109 | Below capacity the sample is appended and nothing is dropped. At capacity the oldest is dropped, the sample appended, the length stays at capacity, and the drop is reported. Validity is preserved. |
| BoundedQueue.PushAllKeepsNewest | src/ble_manager.py:101-109 | After any run of pushes the queue holds the newest `maxsize` of old contents plus pushes, and the drop count is how far that total exceeds the capacity. |
| BoundedQueue.PushAllFromEmpty | src/ble_manager.py:101-109 | Pushing n samples into an empty queue of capacity C leaves the last min(n, C) in order and counts max(0, n − C) overflows. |
| BoundedQueue.PushAllUnbounded | tennis_logger_v2.py:39 | A queue made without `maxsize` never drops: pushes just append. |
| BoundedQueue.NumberedPushes | src/config.py:8 | Pushing 0..n−1 into an empty queue of capacity C leaves max(0, n−C)..n−1 and counts max(0, n−C) overflows. |
| BoundedQueue.TenThousandAndFive | src/config.py:8 | With the default capacity of 10000, pushing 0..10004 leaves 5..10004 (10000 items) and counts 5 overflows. |
| BoundedQueue.DrainInto | src/ui.py:96-102 | The drain loop moves the whole queue, oldest first, onto the end of the recorded list and leaves the queue empty with its capacity. |
| BoundedQueue.DrainAfterPushes | src/ui.py:96-102 | Draining after n pushes into an empty queue appends exactly the last min(n, C) pushed samples, in push order. |
| BleManager.StartConnection | src/ble_manager.py:59-65 | A no-op while running. Otherwise it sets running and adds exactly one new worker for the address, and the manager invariant is kept. |
| BleManager.Stop | src/ble_manager.py:137-141 | Clears running and connected and keeps every worker. |
| BleManager.WorkerStep | src/ble_manager.py:67-135 | A worker step touches only its own worker and never sets running. A live worker's exit clears connected. It clears running too, unless a later worker is live: in that case the old worker's close of the shared loop fails first. Connected can newly rise only when a connecting worker's transport connects, before subscription. The manager invariant is kept. |
| BleManager.OnNotification | src/ble_manager.py:86-111 | An undecodable frame changes nothing. A decoded sample is pushed drop-oldest, and the overflow count rises by one exactly when a sample was dropped. |
| BleManager.BackgroundAll | src/ble_manager.py:101-109 | The overflow count never decreases across worker steps and notifications. |
| BleManager.NotificationsArePushes | src/ble_manager.py:86-111 | A run of notifications equals pushing the decoded samples in order. The overflow count grows by that push run's drop count, and nothing else in the manager changes. |
| BleManager.StartTwiceStartsOnce | src/ble_manager.py:59-65 | Two `start_connection` calls without a stop between them start exactly one worker, for the first address. |
| BleManager.ConnectedBeforeSubscribed | src/ble_manager.py:79-84 | `connected` is true as soon as the transport connects, while notifications are not yet subscribed. |
| BleManager.RestartBeforeOldWorkerExits | src/ble_manager.py:137-141 | After stop and a new start, the old worker can still connect, subscribe and keep polling, so two live workers exist while `running` is set. |
| BleManager.SupersededExitKeepsRunning | src/ble_manager.py:67-77 | After stop and a restart, the old worker's failed connect ends it and clears connected, but running stays set and the new worker is still connecting. |
| BleManager.FirstNamed | src/ble_manager.py:45-49 | Finds the first device with the target name, or reports none when no device has it. |
| BleManager.Scan | src/ble_manager.py:42-57 | A discovery error is a scan failure and only then. "Not found" holds exactly when no discovered device has the target name. Otherwise the result is the first device with that name. |
| Recording.Start | src/ui.py:86-89 | From ready: recording with no data. In any other state nothing changes. |
| Recording.Stop | src/ui.py:111-113 | From recording: review with the data kept. In any other state nothing changes. |
| Recording.Collect | src/ui.py:96-102 | While recording, the whole queue goes onto the end of the data and the queue is left empty. In any other state nothing changes. |
| Recording.FinishSave | src/ui.py:135-147 | A save that went through in review returns to ready with no data. A failed save changes nothing. |
| Recording.Discard | src/ui.py:150-153 | In review: back to ready with no data. In any other state nothing changes. |
| Recording.CollectBatchesAppends | src/ui.py:96-102 | Over any number of renders during a take, the data is the concatenation of every drained batch in order. |
| Recording.RecordingCycle | src/ui.py:86-153 | Start, renders and stop give a review holding exactly the drained samples. A failed save keeps them, and a successful save or a discard returns to the initial state. |
| DataManager.FileName | src/data_manager.py:13-14 | The name is the 15-character stamp, `_`, main, `_`, sub, `.csv`. |
| DataManager.FileNameFields | src/data_manager.py:13-14 | With underscore-free categories, splitting the name (without `.csv`) on `_` gives date, time, main and sub. |
| DataManager.JoinPath | src/data_manager.py:15 | POSIX `os.path.join`: the name is the path's suffix, preceded by the folder and a `/` unless the folder is empty or already ends in `/`. An absolute name replaces the folder. |
| DataManager.JoinPathLastComponent | src/data_manager.py:15 | A slash-free file name is the last `/`-component of the joined path. |
| DataManager.Row | src/data_manager.py:19-32 | A row has the header's seven cells: the ISO timestamp, then each column's axis value by name. |
| DataManager.Rows | src/data_manager.py:23-32 | One row per sample, in the samples' order. |
| DataManager.SaveDataToCsv | src/data_manager.py:7-34 | The file goes to folder/name with the fixed header and one row per recorded sample, in order. |
| DataManager.DecodedSampleRow | src/data_manager.py:23-32 | For a decoded frame, CSV column k holds the number parsed from field k−1 of the frame, and column 0 the receive time in ISO form. |
| Logger.InitializeManager | tennis_logger.py:34-40 | The installed manager is fresh. An existing manager is returned stopped, keeping its workers, and only if there was one. Both satisfy the manager invariant. |
| Logger.InitInv | tennis_logger.py:20-44 | The first run satisfies the session invariant: queue capacity from config, manager invariant, recorder invariant, categories set outside ready. |
| Logger.Background | src/ble_manager.py:79-135 | Worker activity between runs never changes the view, the recorder or the sidebar counter, and keeps the session invariant. |
| Logger.Disconnect | tennis_logger.py:47-61 | Back to the connection view in ready with no data. The queue is emptied with its capacity kept, the manager stopped, and the invariant kept. |
| Logger.ScanAndConnect | tennis_logger.py:66-92 | A failed scan changes nothing. A found device with the manager idle gets a worker for its address. The view becomes collection exactly when the manager reports connected after the grace events. The invariant is kept. |
| Logger.MainIndex | src/ui.py:64 | The main picker preselects Forehand exactly when Forehand is stored, and Backhand otherwise. |
| Logger.IndexOf | src/ui.py:70-73 | `list.index`: the first position holding the value, or none exactly when the value is absent. |
| Logger.SubIndex | src/ui.py:69-73 | The sub picker preselects the stored value if it is an option. An unknown or absent value selects index 0 (Flat). |
| Logger.FreshSessionPreselectsBackhand | src/ui.py:60-80 | In a fresh session the main picker starts on Backhand and the sub picker on Flat. |
| Logger.BeginRecordingAsWritten | src/ui.py:86-89 | The start button enters recording with no data and leaves the queue as it was. Outside ready nothing changes. The session invariant is kept once the categories are set. |
| Logger.BeginRecording | src/ui.py:86-89 | The start button enters recording with no data and an empty queue, and keeps the invariant once the categories are set. |
| Logger.ReadyRun | src/ui.py:54-89 | The ready screen stores both picker values. Start enters recording with no data, and otherwise the state stays ready. The queue is left as it was. |
| Logger.RecordingRun | src/ui.py:91-117 | The recording screen appends the whole queue to the take and empties it. Stop moves to review. |
| Logger.ReviewRun | src/ui.py:119-153 | A file is produced exactly when save is clicked, the write succeeds and the categories are set. It holds the fixed header, one row per recorded sample, and the stamped path. Save or discard clears the take, and anything else keeps it. |
| Logger.Run | tennis_logger.py:95-106 | One script run never changes the sidebar counter and keeps the session invariant. A file is written only from review by the save button, with one row per recorded sample. |
| Logger.DisconnectedShowsOnlyWarning | tennis_logger.py:101-104 | In the collection view with the manager not connected, every click but the two disconnect buttons changes nothing. |
| Logger.RecordingRunDrains | src/ui.py:96-113 | A connected run while recording moves the whole queue, in order, onto the end of the take. |
| Logger.FailedSaveKeepsReview | src/ui.py:135-147 | A save whose write fails leaves the session unchanged. |
| Logger.SavedReviewClears | src/ui.py:135-144 | In any reachable review, a save that succeeds writes a file with every recorded row and returns to ready. |
| Logger.OverflowWarningNeverFires | src/ui.py:20-22 | As written, once a worker has connected and subscribed, two decoded frames into a capacity-1 queue make the manager count one overflow, while the sidebar's warning stays off. |
| Logger.OverflowWarningFiresOnOverflow | src/ui.py:20-22 | Reading the manager's counter, the warning is up exactly when more frames decoded than the queue holds. |
| Logger.StaleSampleRecordedAsWritten | src/ui.py:86-89 | As written, a sample queued while a connected page sat in ready is the whole take after the start click and the first recording run. |
| Logger.TakeHoldsOnlyLaterSamples | src/ui.py:86-102 | With the queue emptied at start, the first render of a take holds exactly the newest queue-capacity samples decoded after the click. |
| LoggerV2.InitInv | tennis_logger_v2.py:30-47 | The first run satisfies the v2 invariant. The session queue is unbounded and is the tail of the manager's own queue. The recorder invariant holds. Running implies a started worker. `ble_connected` implies some worker got past its connect. |
| LoggerV2.StartConnection | tennis_logger_v2.py:60-67 | A no-op while running. Otherwise it sets running and adds one worker for the address. "Running implies a started worker" is kept, and so is "some worker is past its connect". |
| LoggerV2.Stop | tennis_logger_v2.py:135-141 | Clears running only. Workers and the manager's own queue are kept. |
| LoggerV2.StartTwiceStartsOnce | tennis_logger_v2.py:60-67 | A second `start_connection` without a stop between changes nothing. |
| LoggerV2.StopThenStartStartsAnew | tennis_logger_v2.py:60-67 | After `stop()`, `start_connection` always sets running and adds one worker for the address, whether or not an old worker is still live. |
| LoggerV2.WorkerStepAsWritten | tennis_logger_v2.py:80-133 | Running is never changed by a worker. `ble_connected` rises only when a connecting worker's transport connects, and falls only through a failure (the `except` branch). A worker never returns to connecting. The v2 invariant is kept. |
| LoggerV2.FailedConnectBlocksRetry | tennis_logger_v2.py:60-67 | As written, after a failed connect no worker is live but running stays set, so the next `start_connection` starts nothing. |
| LoggerV2.LinkLossUnreported | tennis_logger_v2.py:116-127 | As written, a link that drops while streaming ends the worker and leaves `ble_connected` true. |
| LoggerV2.WorkerStep | tennis_logger_v2.py:69-133 | With exits clearing both flags, a live worker's exit leaves running and `ble_connected` false. "Running implies some live worker" is preserved, and so is the v2 invariant. |
| LoggerV2.ExitAllowsRetry | tennis_logger_v2.py:60-67 | With exits clearing running, once the attempt's worker has exited a new `start_connection` starts a new worker. |
| LoggerV2.ExitClearsConnected | tennis_logger_v2.py:116-127 | With exits clearing the flags, a dropped link shows as disconnected. |
| LoggerV2.OnNotification | tennis_logger_v2.py:89-110 | An undecodable frame changes nothing. A decoded sample is appended to both the session queue and the manager's own queue, and nothing else changes. The v2 invariant is kept. |
| LoggerV2.Background | tennis_logger_v2.py:80-133 | One background event as written (worker steps do not clear the flags) never changes the view or the recorder, and keeps the v2 invariant. |
| LoggerV2.BackgroundAll | tennis_logger_v2.py:80-133 | Any run of background events, as written, never changes the view or the recorder, and keeps the v2 invariant. |
| LoggerV2.EverySampleQueuedTwice | tennis_logger_v2.py:107-108 | After any run of notifications, both queues have grown by exactly the decoded samples, in order. The manager's queue is never drained. |
| LoggerV2.NoConnectingStaysDown | tennis_logger_v2.py:80-87 | With no worker connecting and `ble_connected` down, no run of background events raises the flag, starts a worker or changes running. |
| LoggerV2.FailedFirstScan | tennis_logger_v2.py:60-87 | As written, a first scan whose connect fails stays on the connection view, with running set, `ble_connected` down and its one worker exited. |
| LoggerV2.StuckScanFails | tennis_logger_v2.py:60-67 | As written, with running set, no worker connecting and `ble_connected` down, a scan starts no worker, leaves the flag down and stays on the connection view. |
| LoggerV2.FailedScanBlocksRetry | tennis_logger_v2.py:60-67 | As written, after a first scan whose connect fails, a second scan starts no worker and stays on the connection view, whatever its grace events. |
| LoggerV2.LinkLossKeepsCollectionView | tennis_logger_v2.py:116-127 | As written, after a streaming worker sees the link down in ready, `ble_connected` stays up and the "back to connection" click leaves the page on the collection view. |
| LoggerV2.DisconnectSensor | tennis_logger_v2.py:220-228 | Back to the connection view in ready with no data, `ble_connected` false and the manager stopped. The session queue is left as it was. The v2 invariant is kept. |
| LoggerV2.ScanAndConnect | tennis_logger_v2.py:148-187 | Without a device named `Tennis_Sensor_V1` nothing changes. Otherwise success holds exactly when `ble_connected` is up after the grace events, which run as written, and only success switches to the collection view. The recorder and the v2 invariant are kept. |
| LoggerV2.CollectionRun | tennis_logger_v2.py:271-362 | Start from ready gives an empty recording. A recording run appends the whole queue and empties it, and stop moves to review. A file is written exactly on a successful save in review, with one row per sample. Save or discard returns to ready with no data. The view, the flag and the v2 invariant are kept. |
| LoggerV2.Run | tennis_logger_v2.py:235-268 | The sidebar disconnect in the collection view is exactly `disconnect_sensor`. In the connection view only the scan button does anything. Every run keeps the v2 invariant. |
| Analyzer.UpdateChartData | tennis_app.py:150-175 | The chart never exceeds 50 rows and the new row is last. Below the limit the row is simply appended, and at the limit the oldest row drops out and the other 49 keep their order. |
| Analyzer.ChartUpdateIsDropOldestPush | tennis_app.py:169-173 | One chart update equals one drop-oldest push into a capacity-50 queue. |
| Analyzer.ChartShowsNewest | tennis_app.py:150-175 | After any run of updates the chart is exactly the newest 50 rows of everything seen. |
| Analyzer.ReadEsp32Data | tennis_app.py:201-220 | The result is None with nothing waiting or on bad UTF-8. A triple comes back exactly when the stripped line has two commas and all three fields parse, in x, y, z order. |
| Analyzer.SerialLineRoundTrip | tennis_app.py:211-217 | A line printed from three readings reads back as those readings. |
| Analyzer.BleFrameRejectedOnSerial | tennis_app.py:216 | A six-reading BLE frame arriving on the serial port gives None. |

## Left out

- Rendering: titles, columns, spinners, metrics, previews and messages. Only the state the handlers write is modelled. The queue-usage percentage in the sidebar is display arithmetic.
- Bleak I/O: scanning, connecting, subscribing and polling `is_connected`. Their outcomes are the `Discovery` and `WorkerEvent` inputs. The 5-second scan timeout, the 1-second grace wait and the 100 ms poll become the length of the event sequence given.
- Threads and event loops: each worker step and each notification is one atomic event in an interleaving. `stop()`'s 2-second join is not modelled; a worker exits only by its own step. The manager keeps one shared `client`, so an old worker's teardown can disconnect a newer worker's link. That effect enters as the newer worker's `Poll(false)` input, not as a step of the old worker.
- Exits in `_run_async_loop` that are not caught inside `_connect_and_collect` are folded into the `Crashed` event.
- Float parsing and formatting: `float()` is the `Codec.parse` parameter and numbers are `real`. In the round-trip lemmas the sensor's number format is a parameter that must round-trip (`Decoder.RoundTrips`).
- UTF-8 decoding is the `Codec.utf8` parameter.
- CSV quoting and line endings, `os.makedirs` and opening the file. A save yields a `CsvFile` value (path, header, rows) plus a `written` flag for whether the file system accepted it.
- `datetime.now()`: the time is a parameter (`Instant`).
- Clock.FileStamp: does not model `%Y` for years below 1000, which the platform's `strftime` may print without zero padding.
- Environment reading in `src/config.py`: the settings are a `Config` value with the documented defaults. Service and characteristic UUIDs play no role in the logic.
- The per-frame logging and the user-facing messages.
- `tennis_app.py` beyond the chart window and the serial reader: the simulation loop and its random data, `calculate_metrics`, `get_ip_address` (a UDP socket), `connect_esp32` (pyserial) and the page layout.
- Workers left behind by `initialize_manager` replacing a manager: the old manager is returned stopped, and its threads are not tracked further.
- LoggerV2.Stop: the v2 `stop()` also nudges the old event loop, which has no effect on the modelled state.
- Logger.Run: the ready screen's pickers are inputs (`main`, `sub`). Their preselection is modelled separately (`Logger.MainIndex`, `Logger.SubIndex`), not tied to what the user picks.
- Analyzer.ReadEsp32Data: a `SerialException` or `OSError` from `in_waiting` or `readline()` is not modelled. The code does not catch it there, so it would end the page run.

## Findings

| source | as written | input that shows it | evidently intended | confidence | as-written member | corrected member |
|---|---|---|---|---|---|---|
| src/ui.py:20-22 | The overflow warning reads the session's `queue_overflow_count`. Only the first run writes it (to 0); the manager counts overflows in its own field. | Queue capacity 1, two decodable notifications: the manager's count is 1, the warning stays off. | Warn when the manager's `queue_overflow_count` is positive. | high, not executed | Logger.OverflowWarningNeverFires | Logger.OverflowWarningFiresOnOverflow |
| tennis_logger_v2.py:60-67 | No path in the worker clears `running`. After a failed connect every later `start_connection` returns at once. | Start a connection, then the connect fails: running stays true with no live worker, and a second scan starts nothing. | Clear `running` (and `ble_connected`) when the worker ends, as `src/ble_manager.py:74-77` does. | high, not executed | LoggerV2.FailedConnectBlocksRetry | LoggerV2.ExitAllowsRetry |
| src/ui.py:86-89 | The start button clears the take but not the queue, so samples that arrived while the page sat in ready or review go into the new take. | One sample in the queue in ready, press start: after the first render the take holds that sample. | A take holds only samples that arrived after start. This is inferred, not stated: the comments at tennis_logger_v2.py:106 and :307 say the recording state is checked in the main thread and that the queue is drained only while recording, which suggests samples from other states were not meant to be kept. | medium, not executed | Logger.StaleSampleRecordedAsWritten | Logger.TakeHoldsOnlyLaterSamples |
| tennis_logger_v2.py:116-127 | When the link drops while streaming, the loop ends without an exception, so `ble_connected` stays true and the page's lost-connection check never fires. | A streaming worker whose poll sees the link down: the worker exits, `ble_connected` is still true. | Clear `ble_connected` whenever the worker ends, as `src/ble_manager.py:126` does. | medium, not executed: the flag is written from the worker thread, where Streamlit may not apply session-state writes at all | LoggerV2.LinkLossUnreported | LoggerV2.ExitClearsConnected |
