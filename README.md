# Khepera 4 remote-control client, modelled in Dafny

The repository holds two variants of one program, `prog-template.c` and
`client.c`: a client for a Khepera 4 robot that connects to a command
server over TCP and, in a blocking loop, receives a text token, compares
it with `strcmp` against a fixed vocabulary, drives the motors or the
RGB LEDs through the vendor library (`kh4_*`), and replies. Two commands
are two-phase exchanges ("speed": reply, receive a number; "diode": reply,
receive a colour name, reply again) and "file" streams a sensor report
to the server in fixed-size blocks.

The model keeps the program's structure:

- `CStd` (cstd.dfy) states the C semantics the loop depends on: the
  NUL-terminated view `strcmp` and `strlen` take of a buffer, the
  truncation of a double converted to int (section 6.3.1.4 of ISO/IEC
  9899:2011), truncating integer division, the reduction of an int into a
  `short`, and the `%d` conversions of `sprintf` (section 7.21.6.1) and
  `sscanf` (section 7.21.6.2), with the round trip between them.
- `Gateway` (gateway.dfy) is the robot as the client sees it: drive mode
  (idle or speed regulation), the two wheel speeds, the nine LED
  channels. The `Device` class stands for the `dsPic` handle. Its methods
  `SetMode`, `SetSpeed` and `SetRGBLeds` update those fields and log each
  call, so that the order and arguments of a command's calls can be
  stated. `Valid()` says the state is the initial state with the log
  applied. `CtrlcHandler` is the body of `ctrlc_handler`. Neither file
  ever installs that handler with `signal()`, so in the program as
  written a Ctrl-C kills the process with no cleanup.
- `Net` (net.dfy) is the socket: a script of what the coming `recv` calls
  return (a token, a negative return, or silence), which coming `send`
  calls fail, and what the server has received.
- `FileStream` (filestream.dfy) is the `fread`/`send` loop that streams
  the report in blocks of `LENGTH` bytes (4096 in `prog-template.c`, 512
  in `client.c`).
- `Timeval` (timeval.dfy) is `timeval_diff` with its borrow loop.
- `Sensors` (sensors.dfy) is the little-endian decoding of the
  proximity, ultrasonic and ambient buffers and the infrared bar drawn by
  `client.c`, with a small terminal model (the ECMA-48 Cursor Forward
  sequence) that gives each bar's meaning.
- `Session` (session.dfy) holds what both loops share: how a pass and a
  session end, the wheel-speed scaling of `go()`, the shutdown after
  the loop.
- `ProgTemplate` and `Client` (prog_template.dfy, client.dfy) are the two
  dispatch loops. Each has a function that specifies one pass
  (`Iteration`) and a whole session (`RunFrom`), and methods (`Run`,
  `Iterate`, `Handle`, `Dispatch` and one per command branch) that run the
  loop over the `Device` and `Socket` objects and are proved to match them.
  `ProgTemplateProperties` and `ClientProperties` prove what each command
  does. `Variants` compares the two variants' moves.

Inputs the program reads from the hardware or the file system are
parameters. The battery byte is the `Device.battery` field. The
proximity buffer decoded by `client.c` is a sequence of bytes. The
contents of the report file, or its absence when `fopen` fails, are an
`Option<seq<byte>>`. A `recv` on a server that never answers blocks
for ever, and the model ends such a session with the outcome `Blocked`.

Behaviour of the code worth knowing:

- Only a negative `recv` result ends the loop. A zero-byte read is an
  empty token that matches nothing and is answered like any other.
- A failed `send` returns 1 at once, with no cleanup.
- After the loop, `prog-template.c` lights the back LED's red channel and
  `client.c` the left LED's red channel. `ctrlc_handler` would turn all
  LEDs off and leave the socket open, but it is never installed.
- Turns always use the factor 0.5.
- `client.c` stores the address of the reply buffer into `motorSpeed`
  instead of parsing the reply (modelled as a fixed int `address`).
- A report that cannot be opened for reading breaks out of the loop in
  `prog-template.c` and exits the process in `client.c`.
- A pass that sends a reply never sets the exit LED pattern, and a pass
  of `client.c` makes no LED call at all. So a session ended by a failed
  send (return 1) or by `exit(1)` does no robot cleanup.

## Model

| member | source | states |
|---|---|---|
| `CStd.CStr` | prog-template.c:221 | what strcmp compares is a prefix of the buffer with no NUL in it, ending at the first NUL |
| `CStd.TruncToInt` | prog-template.c:514 | converting a double to int discards the fraction toward zero: the result lies between 0 and the value, within 1 of it |
| `CStd.HalfIsTruncDiv` | prog-template.c:34 | multiplying an int by ROTATE_HIGH_SPEED_FACT (0.5) and converting back is truncating division by 2, odd in sign |
| `CStd.ToShort` | prog-template.c:396 | storing into a short yields a value in -32768..32767 congruent to the int modulo 65536, and leaves values already in range unchanged |
| `CStd.FormatDecimal` | prog-template.c:211 | sprintf "%d" writes a minus sign for negative values and then the decimal digits without leading zeros, never a NUL |
| `CStd.ScanInt` | prog-template.c:261 | sscanf "%d" stores the scanned value, and on a matching failure leaves the variable as it was |
| `CStd.ScanFormatRoundTrip` | prog-template.c:261 | scanning the "%d" rendering of any int, followed by any non-digit text, yields that int |
| `CStd.NoDigitNoScan` | prog-template.c:261 | a reply with no decimal digit in it is a matching failure and leaves motorSpeed unchanged |
| `CStd.ScanDecimal` | prog-template.c:261 | after leading white space, sscanf "%d" fails on empty input and on a first character that is neither digit nor sign, and always succeeds on a digit |
| `CStd.ScanSkipsSpace` | prog-template.c:261 | leading white space does not change what "%d" scans |
| `Gateway.Device.SetMode` | prog-template.c:224 | kh4_SetMode changes the mode only, and is logged |
| `Gateway.Device.SetSpeed` | prog-template.c:223 | kh4_set_speed sets both wheel speeds only, and is logged |
| `Gateway.Device.SetRGBLeds` | prog-template.c:285 | kh4_SetRGBLeds sets the nine LED channels only, and is logged |
| `Gateway.Device.Shutdown` | prog-template.c:380-382 | the exit sequence logs stop, idle, LEDs in this order and leaves the robot stopped, idle, with the given LEDs |
| `Gateway.ShutdownState` | prog-template.c:380-382 | from any state, the stop, idle, LED calls reach wheels 0, mode idle and the given LEDs |
| `Gateway.CtrlcHandler` | prog-template.c:54-65 | the body of the (never installed) Ctrl-C handler stops the wheels, idles the motors, turns every LED off and exits with 0 |
| `Net.ReceiveOn` | prog-template.c:213 | recv takes the next token or failure off the connection; a silent server leaves it unchanged |
| `Net.SendOn` | prog-template.c:368 | send reaches the server exactly when it succeeds, and never touches the inbound data |
| `Net.Socket.Receive` | prog-template.c:256 | the socket's recv agrees with ReceiveOn |
| `Net.Socket.Send` | prog-template.c:251 | the socket's send agrees with SendOn |
| `Net.Socket.Close` | prog-template.c:377 | close marks the socket closed and changes nothing else |
| `Session.ScaleFactors` | prog-template.c:511-514 | go() passes speeds unchanged at factor 1 and halved toward zero at factor 0.5, so a turn's two wheels have equal magnitude |
| `Session.EndsShutDown` | prog-template.c:377-384 | whatever calls a session made, the shutdown after the loop leaves the robot stopped, idle, with the exit LEDs |
| `Timeval.TimevalDiff` | prog-template.c:77-97 | the borrow loop keeps the microsecond total, stops with tv_usec >= 0, returns end minus start in microseconds, and normalises two normal times (client.c:77-97 is the same code) |
| `FileStream.ChunksConcat` | prog-template.c:352-360 | the blocks fread returns, put back together, are the whole file |
| `FileStream.ChunksSized` | prog-template.c:36 | every block holds 1 to LENGTH bytes, and all but the last are full |
| `FileStream.SendChunksDelivers` | prog-template.c:352-358 | the server receives the blocks before the first failed send, in order; `sent` logs the send calls, whose boundaries the server cannot see on a stream socket |
| `FileStream.StreamedPrefix` | prog-template.c:342-363 | what is streamed is a prefix of the file in blocks of 1 to LENGTH bytes, and the whole file when no send fails |
| `FileStream.Fread` | prog-template.c:352 | fread copies min(LENGTH, bytes left) bytes from the read position into the buffer, returns that count and leaves the rest of the buffer as it was |
| `FileStream.Chunks` | prog-template.c:352-360 | the fread loop yields no block exactly when the file is empty, and never more blocks than bytes |
| `FileStream.Bzero` | prog-template.c:350 | bzero zeroes the whole buffer |
| `FileStream.StreamFile` | prog-template.c:342-360 | the send loop leaves the connection exactly as sending the file's blocks until the first failure does |
| `Sensors.Le16` | prog-template.c:396 | Buffer[2i] \| Buffer[2i+1] << 8 is the low byte plus 256 times the high byte, in 0..65535 |
| `Sensors.Channel` | prog-template.c:396 | a decoded channel stored into a short lies in the short range |
| `Sensors.DecodeEncode` | prog-template.c:395-398 | decoding reads back every short the robot encoded little-endian |
| `Sensors.EncodeDecode` | prog-template.c:443-446 | every raw buffer is the encoding of the channels decoded from it: decoding loses nothing |
| `Sensors.DecodeInto` | prog-template.c:395-398 | the decode loop fills the first count entries with the channels and leaves the rest untouched |
| `Sensors.ProximitySensor` | prog-template.c:394-398 | the twelve proximity channels are decoded into sensors |
| `Sensors.UaSensor` | prog-template.c:421-425 | the five ultrasonic channels are decoded into usvalues |
| `Sensors.AmbientSensor` | prog-template.c:442-446 | the twelve ambient channels are decoded into sensors |
| `Sensors.IrLevel` | client.c:279 | the bar level is the product sensor * 15 divided by 1024 truncated toward zero |
| `Sensors.TruncQuotient` | client.c:279 | dividing an int by 1024.0 and converting to int equals truncating integer division |
| `Sensors.LevelRange` | client.c:279 | a 10-bit proximity reading gives a level of 0 to 14 |
| `Sensors.IrBar` | client.c:281-287 | every bar begins and ends with '\|' |
| `Sensors.BarText` | client.c:281-285 | level 0 gives "\|ESC[14C>\|" and any level >= 14 gives "\|>ESC[14C\|" |
| `Sensors.BarLayout` | client.c:281-287 | every bar shows '\|' at column 0, one '>' at column 15 - min(n, 14) and '\|' at column 16: the two cursor moves 14-n and n add up with the marks to the fixed width |
| `Sensors.ReadingBar` | client.c:279-287 | a reading's bar puts its marker at column 15 - trunc(15 s / 1024), at 15 below 69 and at 1 from 956 on |
| `Sensors.ProximityBars` | client.c:275-289 | the for loop decodes the twelve channels and stores each channel's bar, leaving the rest of both arrays untouched |
| `ProgTemplate.Go` | prog-template.c:511-519 | go() sets speed regulation and the scaled wheel speeds, and stops there |
| `ProgTemplate.Motion` | prog-template.c:221-246 | the independent stop/up/down/left/right ifs make exactly the calls of the one word that matches |
| `ProgTemplate.SpeedExchange` | prog-template.c:247-265 | "speed" sends the reply, receives, scans the new motorSpeed and clears the token, or returns 1 on a failed send, or breaks on a failed recv |
| `ProgTemplate.ColourLeds` | prog-template.c:282-321 | exactly the eight colour names select an LED pattern, and each lights the left LED only |
| `ProgTemplate.SetColour` | prog-template.c:282-321 | the colour branches make one LED call for a known colour name and none otherwise |
| `ProgTemplate.DiodeExchange` | prog-template.c:268-327 | "diode" sends, receives a colour name, sets the LEDs, sends again, and leaves the colour name in the buffer |
| `ProgTemplate.FileCommand` | prog-template.c:332-363 | "file" makes no library call, keeps motorSpeed and never reads from the connection |
| `ProgTemplate.FileTransfer` | prog-template.c:344-363 | "file" breaks out of the loop when the report cannot be opened, and otherwise streams it in 4096-byte blocks |
| `ProgTemplate.Iterate` | prog-template.c:205-216 | one pass of the loop formats the battery reply, receives, and agrees with the Iteration specification |
| `ProgTemplate.Handle` | prog-template.c:218-246 | a pass on a received token makes its motion calls and then the exchanges, as OnToken specifies |
| `ProgTemplate.Dispatch` | prog-template.c:247-373 | the speed, diode and file branches and the final reply, in order, as FromSpeed specifies |
| `ProgTemplate.Run` | prog-template.c:205-385 | the loop from motorSpeed 100, and the shutdown after it, agree with the RunFrom specification taken at the battery the device started with, which the session keeps |
| `ProgTemplateProperties.MotionEffect` | prog-template.c:221-246 | stop gives idle with wheels 0; up gives speed mode with both wheels at +motorSpeed, down at -motorSpeed; left gives (-trunc(ms/2), trunc(ms/2)) and right the mirror; the motors keep running; other words call nothing |
| `ProgTemplateProperties.StopIdempotent` | prog-template.c:221-225 | "stop" repeated leaves the robot as one "stop" does |
| `ProgTemplateProperties.PlainIteration` | prog-template.c:205-246 | a pass on any word but speed, diode and file makes that word's calls, keeps motorSpeed and sends exactly one reply, the battery byte in decimal |
| `ProgTemplateProperties.EmptyReadContinues` | prog-template.c:213-216 | a zero-byte read does not end the loop |
| `ProgTemplateProperties.SpeedSendFails` | prog-template.c:251-254 | a failed send in "speed" returns 1 with nothing sent and motorSpeed kept |
| `ProgTemplateProperties.SpeedRecvFails` | prog-template.c:256-259 | a failed recv in "speed" breaks out of the loop after the first reply |
| `ProgTemplateProperties.SpeedIteration` | prog-template.c:247-265 | "speed" sends the reply, scans the next token into motorSpeed (kept when it holds no number), clears the buffer so no later branch fires, and sends the reply again |
| `ProgTemplateProperties.SpeedRoundTrip` | prog-template.c:256-261 | a number the server sends in decimal becomes motorSpeed |
| `ProgTemplateProperties.ColourEffect` | prog-template.c:282-321 | each of the eight colour names sets its fixed nine-channel tuple; any other name leaves the LEDs unchanged |
| `ProgTemplateProperties.DiodeIteration` | prog-template.c:268-327 | "diode" makes three sends of the battery reply, sets the LEDs from the colour name, and keeps motorSpeed |
| `ProgTemplateProperties.DiodeFailures` | prog-template.c:266-327 | in "diode", a failed first send returns 1 with nothing sent, a failed recv breaks after one reply, and a failed second send returns 1 after the LEDs were set; motorSpeed is kept |
| `ProgTemplateProperties.DiodeSendFails` | prog-template.c:270-273 | a failed first send in "diode" returns 1 with no call and nothing sent |
| `ProgTemplateProperties.DiodeRecvFails` | prog-template.c:275-278 | a failed recv of the colour name breaks out of the loop after the first reply, with no call |
| `ProgTemplateProperties.DiodeReplyFails` | prog-template.c:280-326 | a failed second send returns 1 after the colour's LED call, with one reply sent |
| `ProgTemplateProperties.DiodeThenFile` | prog-template.c:268-348 | the colour token is left in the buffer: a colour name "file" falls through to the file branch |
| `ProgTemplateProperties.FileIteration` | prog-template.c:332-371 | "file" breaks out when the report cannot be opened, and otherwise streams it and sends the battery reply |
| `ProgTemplateProperties.PassEnds` | prog-template.c:205-375 | a pass never closes the socket and leaves main only with 1 or by blocking |
| `ProgTemplateProperties.SessionEnds` | prog-template.c:205-385 | a session returns 0 only after breaking out of the loop, with the socket closed and the robot stopped, idle, LEDs (0,0,0,0,0,0,1,0,0); a failed send returns 1 with the socket open and no call setting the exit LEDs |
| `ProgTemplateProperties.PassAvoidsExitLeds` | prog-template.c:205-375 | no pass of the loop sets the exit LED pattern (0,0,0,0,0,0,1,0,0) |
| `ProgTemplateProperties.FromSpeedAvoidsExitLeds` | prog-template.c:247-373 | the speed, diode and file branches never set the exit LED pattern |
| `ProgTemplateProperties.DiodeAvoidsExitLeds` | prog-template.c:268-327 | no colour name selects the exit LED pattern, so "diode" never sets it |
| `ProgTemplateProperties.RecvFailureShutsDown` | prog-template.c:213-216 | a failed first recv shuts down at once and sends nothing |
| `Client.Go` | client.c:359-367 | go() sets speed regulation and the scaled speeds, then stops and idles: it always ends stopped and idle |
| `Client.Motion` | client.c:221-239 | the independent up/down/left/right ifs make exactly the calls of the one word that matches |
| `Client.SpeedExchange` | client.c:240-259 | "speed" sends message, receives, and stores the buffer's address as motorSpeed, or returns 1 on a failed send, or breaks on a failed recv |
| `Client.FileCommand` | client.c:315-332 | "file" makes no library call, keeps motorSpeed and never reads from the connection |
| `Client.FileTransfer` | client.c:275-332 | "file" decodes the twelve proximity channels and their bars, exits with 1 when the report cannot be opened, and otherwise streams it in 512-byte blocks; any other token leaves both arrays as they were, and no token touches them from index 12 on |
| `Client.Iterate` | client.c:201-216 | one pass of the loop receives and agrees with the Iteration specification; the sensor and bar arrays are redrawn exactly when the token is "file" and are otherwise unchanged |
| `Client.Handle` | client.c:218-239 | a pass on a received token makes its motion calls and then the exchanges, as OnToken specifies, redrawing the arrays only for "file" |
| `Client.Dispatch` | client.c:240-344 | the speed and file branches and the final "OK", in order, as FromSpeed specifies, redrawing the arrays only for "file" |
| `Client.Run` | client.c:201-356 | the loop from motorSpeed 100 and an uninitialised message, and the shutdown after it, agree with the RunFrom specification; the arrays end either as drawn from the proximity buffer or as they were, and unchanged from index 12 on |
| `ClientProperties.GoEffect` | client.c:359-367 | during the move the robot is in speed mode with the scaled speeds; after it, it is stopped and idle |
| `ClientProperties.MotionEffect` | client.c:221-239 | up moves both wheels at -motorSpeed and down at +motorSpeed; left moves (trunc(ms/2), -trunc(ms/2)) and right the mirror; every move ends stopped and idle; other words call nothing |
| `ClientProperties.PlainIteration` | client.c:213-239 | a pass on any word but speed and file makes that word's calls, keeps motorSpeed and sends exactly "OK" |
| `ClientProperties.UnhandledWords` | client.c:221-260 | "stop" and "diode" change nothing and are answered "OK" |
| `ClientProperties.SpeedSendFails` | client.c:244-248 | a failed send in "speed" returns 1 with nothing sent and motorSpeed kept |
| `ClientProperties.SpeedRecvFails` | client.c:249-252 | a failed recv in "speed" breaks out of the loop after message was sent |
| `ClientProperties.SpeedIteration` | client.c:240-259 | "speed" sends message, reads a token, sets motorSpeed to the buffer's address whatever the token says, and then sends "OK" |
| `ClientProperties.FileIteration` | client.c:260-342 | "file" exits with 1 when the report cannot be opened, and otherwise streams it and sends "OK" |
| `ClientProperties.PassEnds` | client.c:201-346 | a pass never closes the socket and leaves main only by return 1, exit 1 or blocking |
| `ClientProperties.SessionEnds` | client.c:201-356 | a session returns 0 only after breaking out of the loop, with the socket closed and the robot stopped, idle, LEDs (1,0,0,0,0,0,0,0,0); a failed send or an unopenable report ends it with the socket open and no LED call at all |
| `ClientProperties.PassTouchesNoLeds` | client.c:201-346 | no pass of the loop calls kh4_SetRGBLeds |
| `ClientProperties.PassKeepsIdle` | client.c:359-367 | a robot stopped and idle before a pass is stopped and idle after it |
| `ClientProperties.RecvFailureShutsDown` | client.c:213-216 | a failed first recv shuts down at once and sends nothing |
| `Variants.MirroredMoves` | client.c:221-239 | for each motion word, client.c commands the negated wheel speeds of prog-template.c:228-246 and then adds a stop and a return to idle |

## Left out

- The vendor library (`kh4_*`, `knet_*`) is modelled only by its effect on
  mode, wheel speeds and LEDs. The PID, position-margin and speed-profile
  configuration (prog-template.c:148-163) and the revision read
  (prog-template.c:166-170) are not modelled.
- Sensor and battery reads are inputs. The battery byte is fixed for a
  session, and so is the proximity buffer of `client.c`.
- The start-up calls are not modelled: `kh4_SetMode(kh4RegIdle)` at
  prog-template.c:163 (client.c:159), the red LED and `exit(1)` when
  `socket()` fails (prog-template.c:181-182, client.c:177-178), `exit(1)`
  when `connect` fails, and the green "connected" LED at prog-template.c:199
  (back LED) and client.c:195 (left LED). `Run` starts from a connected
  socket and whatever robot state the caller gives.
- The report is one `Option<seq<byte>>` for a whole session. The program
  rewrites and reopens it on every "file" command, so the model cannot
  express a later "file" whose `fopen` fails after an earlier one
  succeeded, or report contents that change between commands. The stream
  `fs` opened at prog-template.c:344 and client.c:315 is never closed, so
  each "file" command leaks a descriptor; the model has no descriptors.
- Sensors.ProximitySensor, Sensors.UaSensor and Sensors.AmbientSensor
  model the decode loops of prog-template.c:394-446 on their own. They are
  not called from `ProgTemplate.FileTransfer` (prog-template.c:336-338),
  because the hardware reads that fill `Buffer` and the report text they
  write are not modelled, so calling them there would change nothing the
  model observes.
- Socket creation, `connect`, `inet_pton` and `system("./aa.sh &")` are
  not modelled. The session starts connected.
- The report file's text (`fprintf` layouts, the floating-point
  calibration constants of `mottorSensor` and `batterySensor`) is not
  modelled. Its bytes are an input. The decoded integer channels are
  modelled in `Sensors`.
- `fopen` failing while the report is written (prog-template.c:389-393)
  exits the process. This is not modelled, and neither is a failing
  `freopen` in client.c:274.
- `usleep` in client.c:363 is not modelled. The model gives the state
  during the move and after it.
- `printf`, `puts`, `kb_clrscr` and the `freopen` redirection of stdout
  are output only.
- `ctrlc_handler` is never installed (no `signal()` call in either file),
  so a Ctrl-C ends the process without its cleanup. `Gateway.CtrlcHandler`
  models only the handler's body, as a method that can be called as a step.
- `recv` does not NUL-terminate, and `memset` clears only 255 of the 2000
  bytes. Each received token is a whole string, read through its
  NUL-terminated view.
- Client.SpeedExchange: `motorSpeed=server_reply` converts a pointer to
  an int. The result is implementation-defined, so the model uses a fixed
  parameter `address`.
- Client.Run: `message` is uninitialised on the first pass. Its contents
  are a parameter, sent as its NUL-terminated view.
- CStd.ScanInt: does not model values out of `int` range. For those,
  `sscanf` has undefined behaviour.
- Session.ScaleFactors: the double arithmetic of `go()` is exact reals.
  This is exact for every 32-bit int times 1 or 0.5.
- Timeval.TimevalDiff: does not model overflow of `long`.
- A server that never answers makes `recv` block forever. The model ends
  such a session with the outcome `Blocked`.
