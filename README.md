# Reglo ICC pump driver, modelled in Dafny

This project models the serial driver for the Ismatec Reglo ICC peristaltic
pump. Both versions of the driver are covered:

- the package class `RegloIccPump` in `reglo_icc_pump/_driver.py`, with its
  types in `reglo_icc_pump/types.py`;
- the older single-file `reglo_icc_pump.py`.

A session sends ASCII commands. Each command ends in `\r`. Every command is
followed by exactly one read:

- `_run_cmd` reads one acknowledgement byte: `*` for success, `#` or `-` for a
  refusal, `+` for "running".
- `_run_query` reads one `\r\n`-terminated line. It strips the line, splits it
  from the right into exactly as many fields as it has converters, and
  converts each field.

Volumes and flow rates go out in the pump's "type-2" text. That is the four
significant digits of `f"{v:.3e}"` followed by the signed exponent, so
2.5e-3 becomes `2500-3`.

The package driver adds stall detection. A channel that keeps answering
"running" while its odometer does not move for two seconds is stopped. The
driver then shows an alert on the display and raises
`StallDetectionDetected`.

Module layout:

- `PumpTypes`: the direction enum, `opposite`, the error family.
- `Numerals`: `str(n)` and `format(n, "04d")`.
- `Codec`: the type-2 encoder and its decoder.
- `Commands`: the exact command texts.
- `Transport`: the port, `_send_cmd`, `_run_cmd`, and `_run_query` with `strip` and `rsplit`.
- `StallTracker`: the per-channel odometer and time-stamp entry.
- `Session`: runs of exchanges and the dispense-direction set-up, shared by both drivers.
- `Setup`: `set_tubing_id`, the identification queries, and the package constructor's opening.
- `Polling`: `is_running` and `wait_for_stop` of the package, as functions of the replies and clock readings to come.
- `Driver`: the package class `Pump`, with a `Clock`.
- `LegacyDriver`: the older class `LegacyPump`.

How I/O is modelled:

- The serial port is a class `Port`. It holds every frame written so far and
  the scripted replies the pump will give.
- A read past the end of the script is a timeout.
- `time.monotonic()` is a class `Clock` over a scripted, non-decreasing list
  of millisecond readings.

Each imperative method is proved against a function of the script. The
properties the source promises are proved about those functions as lemmas.

Notes on what the source does:

- `_run_query` splits from the right (`rsplit(None, n - 1)`). So the FIRST
  field keeps any extra words (`RSplit("A B C D", 2) == ["A B", "C", "D"]`).
- The type-2 exponent is printed with `{exp:+1d}`, with as many digits as
  it needs: an exponent of 10 or more gives two.
- `types.py` does not define `DeviceNotFound`, `SerialNoMismatch` or
  `StallDetectionDetected`, which the package driver raises. The class body
  of `RegloIccPump` reads all three from `types` (`_driver.py:22-28`), so
  the package module as written fails with `AttributeError` when it is
  imported. The model describes the driver with the three classes it
  evidently intends, and gives each of them its own error variant.

## Model

| member | source | states |
|---|---|---|
| PumpTypes.DirectionFromValue | reglo_icc_pump/types.py:29-36 | looking up a literal succeeds exactly when some member carries that value, and the member found carries it |
| PumpTypes.DirectionValueInjective | reglo_icc_pump/types.py:32-36 | the two members carry distinct values |
| PumpTypes.Opposite | reglo_icc_pump/types.py:38-40 | `opposite` never returns the direction it was given |
| PumpTypes.OppositeInvolution | reglo_icc_pump.py:23-25 | taking the opposite twice gives back the original direction |
| PumpTypes.ToDirection | reglo_icc_pump/_driver.py:343 | `PumpDirection(x)` keeps a member as it is; it accepts a literal exactly when the literal names a direction, and otherwise raises InvalidDirection with the text |
| PumpTypes.ProtocolErrorsAreRegloErrors | reglo_icc_pump/types.py:4-26 | timeouts, invalid responses, remote errors and invalid tubing IDs all belong to the RegloIccPumpError family |
| Numerals.NatToString | reglo_icc_pump/_driver.py:500 | `str(n)` is non-empty decimal digits that read back as n, with no leading zero |
| Numerals.Pad04Value | reglo_icc_pump/_driver.py:313 | `{h:04d}` gives four digits reading back as h for 0..9999, `str(h)` above that, and a minus sign before at least three digits below 0 |
| Codec.MantissaText | reglo_icc_pump/_driver.py:497-498 | the mantissa is exactly four digits and reads back as the mantissa value, leading zeros kept |
| Codec.FormatVolType2 | reglo_icc_pump/_driver.py:495-500 | the text's length is the sign, four digits, the exponent sign and the exponent's digits; one-digit exponents give 6 characters (7 when negative) |
| Codec.ParseFormatted | reglo_icc_pump/_driver.py:495-500 | decoding the type-2 text of any value gives back that value (round trip) |
| Codec.FormattedParse | reglo_icc_pump/_driver.py:495-500 | any text that decodes re-encodes to the same text, so only encoder output is accepted |
| Codec.FormatInjective | reglo_icc_pump.py:367-372 | two values with the same type-2 text are equal |
| Codec.FormatDiscreteType2 | reglo_icc_pump/_driver.py:502-507 | the discrete encoder's output also decodes back to its input |
| Codec.QuotedEncodings | docs/usage_example.py:19 | 2.500e-3 encodes as `2500-3` and 1.000e0 as `1000+0` |
| Commands.TubingSetCmdShape | reglo_icc_pump/_driver.py:312-317 | for a diameter of 0 to 9999 hundredths, the tubing-setting command is the tubing query followed by exactly four digits, which read back as the diameter |
| Commands.DisplayCmd | reglo_icc_pump/_driver.py:463 | the display command is `{addr}DA` followed by a prefix of the message at most 15 long; a message of 15 characters or fewer is sent whole |
| Commands.AlertIsDisplayed | reglo_icc_pump/_driver.py:251 | the stall alert is the display command for the four characters 0x46 0x55 0x43 0x4B |
| Commands.PumpVolCmds | reglo_icc_pump/_driver.py:346-353 | a pumping run is six commands, starting with the direction command and ending with the start command |
| Commands.DirectionCmdInjective | reglo_icc_pump/_driver.py:344-346 | the clockwise and counter-clockwise commands differ (`J` versus `K`) |
| Commands.VolumeCmdReadsBack | reglo_icc_pump/_driver.py:349-350 | the volume command is its prefix followed by text that decodes to the volume sent |
| Commands.RateCmdReadsBack | reglo_icc_pump/_driver.py:351-352 | the rate command is its prefix followed by text that decodes to the rate sent |
| Transport.Port.Write | reglo_icc_pump/_driver.py:259 | a write appends the bytes to what was written and leaves the pending replies as they were |
| Transport.Port.Read | reglo_icc_pump/_driver.py:263 | a read returns the next reply (a timeout when there is none) and consumes it |
| Transport.SendCmd | reglo_icc_pump/_driver.py:257-259 | `_send_cmd` writes exactly the command followed by `\r` and reads nothing |
| Transport.ClassifyAck | reglo_icc_pump.py:161-170 | the ack check gives CommandTimeout exactly when no byte came, and InvalidResponse exactly for a byte outside `*#-+`; it gives RemoteError exactly for a valid byte other than `*` when success is checked, and otherwise returns the byte |
| Transport.RunCmd | reglo_icc_pump/_driver.py:261-270 | `_run_cmd` writes one frame, consumes one reply and classifies its first byte |
| Transport.TrimRightSpec | reglo_icc_pump/_driver.py:276 | right-trimming removes only whitespace, and all the trailing whitespace |
| Transport.TrimLeftSpec | reglo_icc_pump/_driver.py:276 | left-trimming removes only whitespace, and all the leading whitespace |
| Transport.StripSpec | reglo_icc_pump/_driver.py:276 | a stripped line neither starts nor ends with whitespace |
| Transport.RSplitAgainstWords | reglo_icc_pump/_driver.py:279 | `rsplit(None, k)` equals the full split when there are at most k+1 words; otherwise it keeps the last k words and puts all earlier words in the first field |
| Transport.QueryFieldsAreRightSplit | reglo_icc_pump.py:179-185 | a query for n fields succeeds only on a line of at least n words; its last n-1 fields are the last n-1 words, and the first field holds all the words before them |
| Transport.RSplitKeepsHeadTogether | reglo_icc_pump/_driver.py:279 | three fields from `A B C D` are `A B`, `C`, `D` |
| Transport.ParseIntOfString | reglo_icc_pump/_driver.py:224 | the `int` converter reads `str(n)` back as n |
| Transport.ParseFloatOfNat | reglo_icc_pump/_driver.py:317 | the `float` converter reads the digits of n back as n |
| Transport.Convert | reglo_icc_pump/_driver.py:289 | a converted value has its converter's type, and `str` accepts any field unchanged |
| Transport.ConvertFrom | reglo_icc_pump/_driver.py:287-293 | converting succeeds exactly when every field converts, and gives each field's value in order; otherwise it names the first field that fails, every earlier field having converted |
| Transport.ParseQueryReply | reglo_icc_pump/_driver.py:276-294 | a parsed reply has one value per converter, each of its converter's type; a failure is a timeout or an invalid response |
| Transport.QueryReplyMeaning | reglo_icc_pump.py:176-194 | a blank stripped line, and only that, is a timeout; a wrong field count is reported with expected and actual counts; with the count right the outcome is the in-order conversion of the fields (the first failing field's error, or every value converted) |
| Transport.RunQuery | reglo_icc_pump/_driver.py:272-294 | `_run_query` writes one frame, consumes one reply and returns that line parsed |
| Transport.ParseLine | reglo_icc_pump/_driver.py:276-285 | the strip, count check and conversion steps compute the parsed reply |
| Transport.ConvertFields | reglo_icc_pump/_driver.py:286-294 | the conversion loop returns the values in order, or stops at the first field that fails, naming its index |
| StallTracker.Observe | reglo_icc_pump/_driver.py:425-433 | a "running" poll stalls exactly when the reading equals the stored one and 2000 ms or more have passed since the stored time; a changed reading is stored with the current time, an unchanged one leaves the entry as it was |
| StallTracker.FreshFirstPoll | reglo_icc_pump/_driver.py:239-241 | after a reset (reading -1, time 0), the first real reading never stalls, and is stored with its time |
| StallTracker.StallIsJustified | reglo_icc_pump/_driver.py:430-433 | a reported stall comes only after polls that all kept watching; at the stall, the reading equalled the stored one and the threshold had passed |
| StallTracker.AdvancingNeverStalls | reglo_icc_pump/_driver.py:430-431 | an odometer that changes at every poll never trips the detector, and the entry ends at the last reading and its time |
| StallTracker.NoStallWithinThreshold | reglo_icc_pump/_driver.py:432 | polls that all fall within 2000 ms of a time no later than the stored one never stall |
| StallTracker.HeldReadingStalls | reglo_icc_pump/_driver.py:432-433 | while the reading stays at the stored value, a stall is reported no later than the first poll 2000 ms or more after the stored time |
| StallTracker.FrozenOdometerStalls | reglo_icc_pump/_driver.py:426-433 | a freshly reset channel whose odometer holds one real reading for two seconds stalls at some poll after the first, and no later than the poll at which those two seconds have passed |
| Session.CommandError | reglo_icc_pump/_driver.py:264-269 | a checked command succeeds exactly when the byte read back is `*`; otherwise the error is a timeout, an invalid response or a remote error |
| Session.RunAll | reglo_icc_pump/_driver.py:345-353 | a run of exchanges succeeds exactly when every exchange gets an accepted reply; otherwise it stops at the first failure and reports that exchange's error |
| Session.RunExchanges | reglo_icc_pump.py:245-252 | the exchanges go out in order up to and including the first failure; exactly the frames counted by RunAll are written and the same number of replies consumed |
| Session.Perform | reglo_icc_pump/_driver.py:349-350 | one exchange writes its frame, consumes one reply and reports that reply's check |
| Session.Channels | reglo_icc_pump/_driver.py:93 | `list(range(1, n + 1))` holds 1..n in order, and is empty for n < 1 |
| Session.DefaultDirs | reglo_icc_pump/_driver.py:95-96 | every channel, and only the channels, start with the clockwise dispense direction |
| Session.ConvertDirs | reglo_icc_pump/_driver.py:97-99 | the caller's directions convert exactly when every value names a direction |
| Session.ConvertDirsFirstError | reglo_icc_pump/_driver.py:98-99 | a failed conversion reports the first value that names no direction |
| Session.ConvertDirsEntries | reglo_icc_pump/_driver.py:98-99 | a successful conversion has one entry per caller key, holding that key's converted direction |
| Session.ConfiguredDirs | reglo_icc_pump.py:111-115 | after construction a channel has a direction exactly when it is a channel or a caller key; caller entries override, and other channels stay clockwise |
| Setup.SettledParts | reglo_icc_pump/_driver.py:93-105 | a start-up built from channels 1..n, the defaults updated by the caller's directions, and diameters for known channels satisfies the object invariant |
| Setup.TubingReply | reglo_icc_pump/_driver.py:316-317 | the tubing read-back succeeds exactly when the line parses as a float and a string; its value is the first field as `float` converts it, and a failure passes the parse's error on |
| Setup.AskTubingId | reglo_icc_pump/_driver.py:316-317 | the tubing query writes `{ch}++{addr}`, consumes one reply and returns the diameter read |
| Setup.TubingOutcome | reglo_icc_pump/_driver.py:311-317 | InvalidTubingId comes exactly from a `#`, `-` or `+` to the setting command (a RemoteError); silence is a timeout and an invalid byte an InvalidResponse; after `*` the result is the read-back, whose value is the diameter the pump reports |
| Setup.Stored | reglo_icc_pump/_driver.py:318 | a diameter read back is stored for its channel only; a failure leaves the diameters unchanged |
| Setup.TubingExchange | reglo_icc_pump/_driver.py:311-319 | the two exchanges of `set_tubing_id` write the setting, then the query only when the setting was acknowledged; they consume one reply per command |
| Setup.SetTubingEntry | reglo_icc_pump.py:210-218 | an unknown channel is refused with InvalidChannel before anything is written; otherwise the two exchanges run |
| Setup.TubingAllKeys | reglo_icc_pump/_driver.py:100-103 | when the constructor's tubing loop completes, every channel it names is known, and the channels with a diameter are the earlier ones plus exactly the channels it names |
| Setup.SetTubingIds | reglo_icc_pump.py:116-119 | the tubing loop writes the commands of each entry in dictionary order, up to the first failure, which it reports |
| Setup.InfoReply | reglo_icc_pump/_driver.py:229-230 | the pump information succeeds exactly when the line parses as three string fields, and is those three fields (model, software version, head code) in order |
| Setup.AskPumpInfo | reglo_icc_pump/_driver.py:229-230 | `_ask_pump_info` writes `{addr}#`, consumes one reply and parses it |
| Setup.SerialReply | reglo_icc_pump/_driver.py:226-227 | the serial number succeeds exactly when the line parses as one string field |
| Setup.SerialIsWholeLine | reglo_icc_pump.py:147-148 | the serial number is the whole stripped line, inner spaces included; only a blank line is refused, as a timeout |
| Setup.AskSerialNo | reglo_icc_pump/_driver.py:226-227 | `_ask_serial_no` writes `{addr}xS`, consumes one reply and parses it |
| Setup.CountReply | reglo_icc_pump/_driver.py:223-224 | the channel count succeeds exactly when the line parses as one integer field, and is that integer |
| Setup.AskNumChannels | reglo_icc_pump/_driver.py:223-224 | `_ask_num_channels` writes `{addr}xA`, consumes one reply and parses it |
| Setup.SelectChannelAddressing | reglo_icc_pump/_driver.py:92 | `{addr}~1` is written and checked like any command |
| Setup.Identify | reglo_icc_pump/_driver.py:86-92 | construction opens with `xS`, `xA`, `~1`, in that order, up to the first failure; on success the serial number is the first reply stripped and equals the expected one when given, and the channel count is the integer in the reply to `xA`; a mismatch raises SerialNoMismatch after `xS` only |
| Setup.IdentifyPump | reglo_icc_pump/_driver.py:86-92 | the opening exchanges write exactly the identification commands and consume one reply each |
| Polling.OdometerReading | reglo_icc_pump/_driver.py:236-237 | the odometer reading succeeds exactly when the line parses as one integer field, and is that integer; an error is a timeout or an invalid response |
| Polling.ProbeCmds | reglo_icc_pump/_driver.py:422-434 | a poll starts with the status query; "not running" costs one exchange and "running" exactly two; stop and alert go out only after a stall |
| Polling.ProbeRunning | reglo_icc_pump/_driver.py:422-434 | "running" is answered exactly when the byte was `+`, the odometer parsed and no stall was seen; "not running" exactly for a valid byte other than `+`; the tracker entry changes only on "running" |
| Polling.ProbeStall | reglo_icc_pump/_driver.py:249-255 | a poll that read the odometer fails to answer "running" exactly on a stall; StallDetectionDetected comes only after the stop and the alert were written |
| Polling.RunningReadsTwo | reglo_icc_pump/_driver.py:423-428 | a "running" answer consumed two replies that were really there |
| Polling.WaitStep | reglo_icc_pump/_driver.py:450-451 | the wait is one poll, followed by the rest of the wait when that poll said "running", and ends with that poll otherwise |
| Polling.WaitStartsWithStatus | reglo_icc_pump/_driver.py:450 | `wait_for_stop(ch)` starts with a status query |
| Polling.WaitCmds | reglo_icc_pump/_driver.py:450-451 | when the wait returns normally, its last exchange was a status query |
| Polling.WaitEndsStopped | reglo_icc_pump/_driver.py:450-451 | when the wait returns normally, the last reply it read was a valid acknowledgement other than `+` |
| Polling.WaitReplay | reglo_icc_pump/_driver.py:426-433 | the polls of a wait, replayed through the detector: it returns normally only while the detector keeps watching, leaving the detector's entry; a stall is always the last poll and ends the wait in an error; a stop or StallDetectionDetected happens only on a stall |
| Polling.WaitClock | reglo_icc_pump/_driver.py:429 | each poll that read the odometer read the clock exactly once, in order, and nothing else read the clock |
| Polling.FrozenWaitFails | reglo_icc_pump/_driver.py:450-451 | a wait from a fresh entry whose odometer holds one real reading across two seconds of "running" polls ends in an error, never in "stopped" |
| Driver.Clock.Monotonic | reglo_icc_pump/_driver.py:429 | a reading is the next scripted value, and never exceeds any later reading |
| Driver.ReadOdometer | reglo_icc_pump/_driver.py:236-237 | `_ask_odometer_val` writes `{ch}xXX{addr}`, consumes one reply and parses it |
| Driver.CheckStall | reglo_icc_pump/_driver.py:429-433 | after a `+` and a reading: one clock reading and the stall check; on a stall, the stop and the alert are written before the error |
| Driver.PollRunning | reglo_icc_pump/_driver.py:426-434 | after a `+`: the odometer query, then the clock and the stall check only if the reading parsed |
| Driver.PollChannel | reglo_icc_pump/_driver.py:422-434 | one poll writes and consumes exactly what the poll function says, and reads the clock only when it read the odometer |
| Driver.WaitChannel | reglo_icc_pump/_driver.py:450-451 | the polling loop returns the wait's result and tracker entry; it writes the wait's commands, consumes one reply per command and uses the wait's clock readings |
| Driver.PumpVolExchanges | reglo_icc_pump/_driver.py:345-353 | `pump_vol` makes seven exchanges; LegacyDriver.PackageStopsFirst gives them as the stop of the channel followed by the six older ones |
| Driver.AspirateMirrorsDispense | reglo_icc_pump/_driver.py:376-392 | aspirating makes the same exchanges as dispensing except the direction command, which differs |
| Driver.StopAllExchanges | reglo_icc_pump/_driver.py:403-406 | `stop(None)` is one stop per channel, in the order of the channel list |
| Driver.WaitAll | reglo_icc_pump/_driver.py:446-449 | waiting for all channels keeps the set of tracked channels, changes only the channels polled, and reads one reply per frame |
| Driver.WaitAllFirstFailure | reglo_icc_pump/_driver.py:445-448 | against the per-channel waits taken in list order (`ChannelWaits`), waiting for all channels returns normally only when every channel's wait did; otherwise it ends with the first failing channel's error and waits for no later channel; it reads the replies those waits read |
| Driver.WaitAllInOrder | reglo_icc_pump/_driver.py:445-450 | the frames are each channel's wait in list order; each channel's frames start with its status query, and a wait that returned normally ended on a "not running" status reply before the next channel's first frame |
| Driver.WaitChannels | reglo_icc_pump/_driver.py:446-449 | the loop over the channels gives exactly the result, tracker entries, frames, replies and clock readings of the all-channels wait |
| Driver.ResetAndWait | reglo_icc_pump/_driver.py:354-356 | the channel's tracker entry is reset; when blocking, the wait starts from that fresh entry |
| Driver.RunAndWait | reglo_icc_pump/_driver.py:345-356 | the exchanges run up to the first failure, and only a full run resets the entry and waits |
| Driver.ConfigureParts | reglo_icc_pump/_driver.py:93-105 | a successful configuration is the channels, the defaults overridden by the caller's directions, the tubing loop's diameters and the pump information, after the tubing commands and `#` |
| Driver.StartupSettled | reglo_icc_pump/_driver.py:46-105 | a successful start-up leaves channels 1..n, n being the integer in the reply to `xA`, each with a direction; the serial number is the first reply stripped, equal to the expected one when given; the directions are the defaults updated by the caller's; the diameters are exactly for the caller's channels, all of them known |
| Driver.StartupCommands | reglo_icc_pump/_driver.py:86-105 | a successful start-up wrote `xS`, `xA`, `~1` first and `#` last |
| Driver.ConfigurePump | reglo_icc_pump/_driver.py:93-105 | the method makes exactly the configuration's exchanges and returns its result |
| Driver.StartPump | reglo_icc_pump/_driver.py:85-105 | the method makes exactly the start-up's exchanges and returns its result, which satisfies the object invariant |
| Driver.Pump.constructor | reglo_icc_pump/_driver.py:80-85 | the new object holds the port and address, with no channels, directions, diameters or tracker entries |
| Driver.Pump.Init | reglo_icc_pump/_driver.py:46-105 | on success the object holds the start-up's settings and diameters with fresh tracker entries; on failure nothing of the object changes; either way exactly the start-up's exchanges happened |
| Driver.Pump.StopChannel | reglo_icc_pump/_driver.py:407-408 | an unknown channel is refused with nothing written; otherwise `{ch}I{addr}` is sent and checked |
| Driver.Pump.StopAll | reglo_icc_pump/_driver.py:403-406 | every channel is stopped in order, up to the first failure |
| Driver.Pump.Stop | reglo_icc_pump/_driver.py:394-408 | `stop(ch)` refuses an unknown channel with nothing written, and otherwise sends one checked stop and consumes one reply; `stop(None)` stops every channel in order up to the first failure |
| Driver.Pump.IsRunning | reglo_icc_pump/_driver.py:410-434 | an unknown channel is refused with nothing written; otherwise the answer, tracker entry, frames, replies and clock are those of one poll; settings and diameters never change |
| Driver.Pump.WaitForStopChannel | reglo_icc_pump/_driver.py:450-451 | an unknown channel is refused at once; otherwise the result, the channel's entry, frames, replies and clock are those of the wait |
| Driver.Pump.WaitForStopAll | reglo_icc_pump/_driver.py:446-449 | the result, entries, frames, replies and clock are those of waiting for every channel in order |
| Driver.Pump.AwaitStop | reglo_icc_pump/_driver.py:436-452 | `wait_for_stop(ch)` waits for one channel and `wait_for_stop(None)` for all |
| Driver.Pump.RunOnChannel | reglo_icc_pump/_driver.py:345-356 | the exchanges, the reset and the optional wait on a known channel, with settings and diameters unchanged |
| Driver.Pump.PumpVol | reglo_icc_pump/_driver.py:321-356 | a bad direction raises first, then an unknown channel, both before anything is written; otherwise the seven exchanges, the reset and the optional wait |
| Driver.Pump.DispenseVol | reglo_icc_pump/_driver.py:358-374 | an unknown channel is refused first; otherwise it pumps in the channel's dispense direction |
| Driver.Pump.AspirateVol | reglo_icc_pump/_driver.py:376-392 | an unknown channel is refused first; otherwise it pumps opposite to the channel's dispense direction |
| Driver.Pump.ShowMsg | reglo_icc_pump/_driver.py:454-463 | one display command with the message cut to 15 characters, checked like any command |
| Driver.Pump.SetTubingId | reglo_icc_pump/_driver.py:296-319 | the tubing entry's result and commands; the diameter is stored for that channel only on success; settings and tracker entries are unchanged |
| LegacyDriver.StatusAnswer | reglo_icc_pump.py:304-307 | the status succeeds exactly for a valid acknowledgement, and is "running" exactly for `+`; otherwise it is a timeout or an invalid response |
| LegacyDriver.StatusPolls | reglo_icc_pump.py:323-324 | n polls are n copies of the status command |
| LegacyDriver.LegacyWaitMeaning | reglo_icc_pump.py:323-324 | every status answer before the last was "running", the last was not, and the wait's result follows from the last answer |
| LegacyDriver.WaitStopped | reglo_icc_pump.py:323-324 | the loop writes one status command per poll of the wait, consumes one reply per poll and returns the wait's result |
| LegacyDriver.LegacyWaitAllPolls | reglo_icc_pump.py:319-322 | a completed all-channels wait polled every channel, and every command it wrote is the status query of some channel |
| LegacyDriver.LegacyWaitAllFirstFailure | reglo_icc_pump.py:318-321 | against the per-channel waits taken in list order (`LegacyWaits`), waiting for all channels returns normally only when every channel's wait did; otherwise it ends with the first failing channel's error and polls no later channel; one command is written per poll |
| LegacyDriver.LegacyWaitAllInOrder | reglo_icc_pump.py:318-323 | the commands are each channel's status polls in list order; every reply but the last in a channel's run said "running" and the last did not, before the next channel's first poll; each wait's result is its last reply's error, or success |
| LegacyDriver.WaitChannels | reglo_icc_pump.py:319-322 | the loop over the channels makes exactly the all-channels wait's exchanges and returns its result |
| LegacyDriver.LegacyVolExchanges | reglo_icc_pump.py:245-252 | the older `pump_vol` makes six exchanges |
| LegacyDriver.PackageStopsFirst | reglo_icc_pump/_driver.py:345 | the package's `pump_vol` exchanges are the older ones with a stop of the channel in front |
| LegacyDriver.LegacyOpening | reglo_icc_pump.py:108-109 | the older constructor opens with `~1` then `xA`, up to the first failure; on success its result is the integer in the reply to `xA` |
| LegacyDriver.OpenPump | reglo_icc_pump.py:108-109 | the opening method makes exactly the opening's exchanges |
| LegacyDriver.LegacyClosing | reglo_icc_pump.py:120-122 | the older constructor closes with `xS` then `#`, up to the first failure; on success the serial number is the stripped reply to `xS` |
| LegacyDriver.ClosePump | reglo_icc_pump.py:120-122 | the closing method makes exactly the closing's exchanges |
| LegacyDriver.LegacyConfigureParts | reglo_icc_pump.py:110-122 | a successful configuration is the channels, the caller's directions, the tubing loop's diameters, then the serial number and pump information |
| LegacyDriver.LegacyStartupSettled | reglo_icc_pump.py:74-122 | a successful start-up satisfies the object invariant; its channels are 1..n, n being the integer in the reply to `xA`; its serial number is the reply to the next-to-last command; the directions are the defaults updated by the caller's; the diameters are exactly for the caller's channels |
| LegacyDriver.LegacyStartupCommands | reglo_icc_pump.py:108-122 | a successful start-up wrote `~1`, `xA` first and `xS`, `#` last |
| LegacyDriver.ConfigurePump | reglo_icc_pump.py:110-122 | the method makes exactly the configuration's exchanges and returns its result |
| LegacyDriver.StartPump | reglo_icc_pump.py:107-122 | the method makes exactly the start-up's exchanges; its result satisfies the object invariant |
| LegacyDriver.LegacyPump.constructor | reglo_icc_pump.py:102-107 | the new object holds the port and address, with no channels, directions or diameters |
| LegacyDriver.LegacyPump.Init | reglo_icc_pump.py:74-122 | on success the object holds the start-up's settings and diameters; on failure nothing of the object changes; either way exactly the start-up's exchanges happened |
| LegacyDriver.LegacyPump.SetTubingId | reglo_icc_pump.py:196-219 | the tubing entry's result and commands; the diameter is stored for that channel only on success |
| LegacyDriver.LegacyPump.IsRunning | reglo_icc_pump.py:292-307 | an unknown channel is refused with nothing written; otherwise one status exchange without the success check |
| LegacyDriver.LegacyPump.WaitForStopChannel | reglo_icc_pump.py:323-324 | an unknown channel is refused at once; otherwise the result, frames and replies of the wait |
| LegacyDriver.LegacyPump.AwaitStop | reglo_icc_pump.py:309-325 | one channel's wait, or every channel's in order |
| LegacyDriver.LegacyPump.PumpVol | reglo_icc_pump.py:221-254 | a bad direction raises before anything is written; the channel is not checked before the six exchanges, only by the wait's first `is_running` when blocking |
| LegacyDriver.LegacyPump.DispenseVol | reglo_icc_pump.py:256-272 | an unknown channel is refused first; otherwise it pumps in the channel's dispense direction |
| LegacyDriver.LegacyPump.AspirateVol | reglo_icc_pump.py:274-290 | an unknown channel is refused first; otherwise it pumps opposite to the channel's dispense direction |
| LegacyDriver.LegacyPump.ShowMsg | reglo_icc_pump.py:327-336 | one display command with the message cut to 15 characters, checked like any command |

## Left out

- Device discovery and port opening are not modelled: `list_connected_devices`, `open_first_device`, `from_usb_location` and `from_serial_portname`. They depend on the operating system's USB enumeration and on pySerial. So is closing the port when construction fails.
- Setting the port's `timeout` and `baudrate` attributes is not modelled. A read that gets nothing is a timeout by construction.
- Codec.FormatVolType2 starts from the value already rounded to four significant digits (`Sci`), because the binary floating-point rounding of `f"{v:.3e}"` is not modelled. NaN and infinities are not modelled either.
- Driver.Pump.SetTubingId and LegacyDriver.LegacyPump.SetTubingId take the diameter already converted with `round(inner_diam * 100.)`. InvalidTubingId carries those hundredths, not the float.
- Transport.Convert models `int()` as an optional sign followed by digits. It models `float()` as an optional sign, digits, and an optional fraction. Python's other accepted spellings are not modelled: underscores, exponents, `inf`/`nan` and surrounding spaces.
- Transport.LineText takes the reply as text. ASCII decode errors and the difference between a line that ends in `\r\n` and one cut off by the timeout are not modelled.
- Every read consumes exactly one scripted reply, and unread bytes never carry over to the next read. `read(1)` of a line reply keeps its first character and drops the rest; `read_until` of a one-byte reply returns that byte. pySerial leaves unread bytes in its buffer, so the model does not capture a reply stream that falls out of step with the commands.
- Python's `dict` arguments are modelled as sequences of distinct-key items, in insertion order. `None` for a dictionary is the same as an empty one.
- `ValueError` is modelled as the InvalidChannel and InvalidDirection variants of the error type.
- Driver.Pump.DispenseVol and LegacyDriver.LegacyPump.DispenseVol take `blocking` explicitly. The source's extra `*args` are accepted and ignored, so a positional fourth argument has no effect; that is not modelled.
- Driver.Pump.Init and LegacyDriver.LegacyPump.Init are split from the object's constructor. The source raises out of `__init__`; the model leaves the object unchanged on failure, so a failed object is never used.
- `time.monotonic()` returns seconds as a float. The model uses integer milliseconds, so the two-second threshold is `>= 2000`.
- A wait for a channel that never stops is not modelled as an infinite loop. The scripted replies are finite, and a read past them is a timeout, so every modelled wait ends.
- The legacy `_format_vol_type2` and `_format_discrete_type2`, and the package `_format_discrete_type2`, repeat the body of the package `_format_vol_type2`. Codec.FormatVolType2 and Codec.FormatDiscreteType2 stand for all of them.
- The read-only properties (`pump_addr`, `channel_nos`, `serial_no`, `model_no`, `sw_ver`, `head_code`) are the fields of Driver.Pump and LegacyDriver.LegacyPump. They are read directly.
