# ESP32 doorbell: bring-up, debounce and gated dispatch

This project models the decision logic of the doorbell firmware's `main/main.c` in Dafny and
proves properties of that model. The file holds three small event-driven machines:

- the **Wi-Fi station bring-up retry machine**. A retry counter and the CONNECTED and FAIL
  bits of an event group react to station-start, station-disconnected and got-IP events.
  The start-up thread then classifies the bits, testing CONNECTED first.
- the **doorbell interrupt**. A rising edge at time `now` counts as a ring only when more than
  `BELL_TIMEOUT` seconds have passed since the last accepted ring. A ring records `now` and
  sends the pin number to a relay queue of capacity 10. The send never blocks and drops the
  token when the queue is full.
- the **session gate**. A flag is set by the messaging session's CONNECTED callback and cleared
  by its DISCONNECTED callback. A CONNECTED callback may also announce itself with a message.
  The worker takes tokens from the queue and sends the doorbell message to the configured
  channel only while the flag is set.

Layout, one module per component:

- `numbers.dfy` (`Numbers`): the `Min` helper shared by the other modules.
- `settings.dfy` (`Settings`): the build-time configuration as a value (`Config`).
- `wifi.dfy` (`Wifi`): the handler as a pure step function, its trace functions `Run` and
  `Connects` (the number of connect requests issued), the outcome classification, and
  lemmas over event traces.
- `bell.dfy` (`Bell`): the debounce rule, the trace functions `LastRing` and `Rings` (the
  accepted edge times), and lemmas over edge traces.
- `relay.dfy` (`Relay`): the bounded FIFO with its drop-on-full send, and lemmas over
  interleavings of sends and receives.
- `bot.dfy` (`Bot`): the flag and the log of messages sent, as a step function over session
  events and consumed tokens, with lemmas over traces.
- `device.dfy` (`Device`): one class, `Doorbell`, holding the process-wide state.
  - The fields are `retryNum`, `connectedBit`, `failBit`, `lastRing`, `queue` and `botConnected`.
  - `sent` is a ghost log of the messages handed to the session client.
  - There is one method per callback, the start-up thread's classification, one worker
    iteration, and a bounded run of the worker's loop.
  - Ghost histories record every input: the Wi-Fi events, the edge times, the session events
    and consumed tokens, and the sends and receives on the queue. A ghost counter records the
    connect requests issued to the driver.
  - `Valid()` ties each field to the trace function over its history:
    - the counter, the bits and the connect count to `Wifi.Run` and `Wifi.Connects`;
    - `lastRing` to `Bell.LastRing`;
    - `queue` to `Relay.Replay`, together with "delivered followed by queued equals admitted";
    - the flag and the log to `Bot.Run`.
  - So the trace lemmas of `Wifi`, `Bell`, `Relay` and `Bot` apply to the object. For example,
    the counter stays within `0..MAXIMUM_RETRY`, `lastRing` is the time of the most recent
    ring, and the queue delivers tokens in the order it admitted them.

Configuration constants (`MAXIMUM_RETRY`, `BELL_TIMEOUT`, the messages, the channel, the pin)
are fields of `Config`. The clock reading is the `now` parameter of `OnBellEdge`.

### Debounce behaviour worth knowing

- **Bursts.** One might expect a burst of closely spaced edges to yield exactly one ring.
  The code measures the interval from the last *accepted* ring, not from the
  previous edge, so a long burst rings several times. `Bell.BurstCanRingTwice` shows this:
  with a 5 s timeout, edges at 6, 10 and 14 s ring at 6 and 14 s.
- **Straight after boot.** One might expect edges at 0 s and 3 s, with a 5 s timeout, to
  ring once at 0 s. The last-ring time starts at 0, so an edge at 0 s is suppressed and
  these edges do not ring at all (`Bell.EdgesFromBoot`). After a quiet period the expected
  numbers hold (`Bell.TwoEdges`).
- **Tokens.** A queued token carries the pin number, and the model keeps it.

## Model

| member | source | states |
|---|---|---|
| `Wifi.Step` | main/main.c:48-68 | A connect request is issued iff the event is station-start, or a disconnect while the counter is below MAXIMUM_RETRY. A disconnect below the ceiling increments the counter. A disconnect at the ceiling sets FAIL and leaves the counter alone. Got-IP resets the counter to 0 and sets CONNECTED. Bits are only ever set. Only got-IP changes CONNECTED and only a refused disconnect changes FAIL; a refused disconnect always sets it. The range 0..MAXIMUM_RETRY is preserved |
| `Wifi.Classify` | main/main.c:126-134 | The outcome is Connected exactly when CONNECTED is set, even if FAIL is also set. It is Failed exactly when only FAIL is set. It is Unexpected exactly when neither bit is set, that is, when the wait would not have returned |
| `Wifi.RetryCeiling` | main/main.c:54-56 | From any state in range, including the initial counter 0, no event sequence takes the counter outside 0..MAXIMUM_RETRY (0 when the limit is negative) |
| `Wifi.BitsLatched` | main/main.c:59-66 | Once CONNECTED or FAIL is set, it stays set over every later event sequence |
| `Wifi.GotIpConnects` | main/main.c:62-66 | If got-IP occurs anywhere in the trace, CONNECTED is set at the end and the outcome is Connected |
| `Wifi.DisconnectRun` | main/main.c:53-60 | Take k consecutive disconnects from any state in range. They issue min(k, ceiling - counter) connect requests and raise the counter by that amount. FAIL is set at the end iff it was set before or k exceeds the remaining retries. CONNECTED is left as it was |
| `Wifi.AttemptCount` | main/main.c:51-60 | Station-start followed by k disconnects issues 1 + min(k, MAXIMUM_RETRY) connect requests and leaves the counter at min(k, MAXIMUM_RETRY). FAIL is set iff k > MAXIMUM_RETRY, so first on the (MAXIMUM_RETRY+1)-th disconnect. Until then the outcome is Unexpected (still waiting); after it, Failed |
| `Wifi.RecoverAfterRetries` | main/main.c:51-66 | Station-start, then k <= MAXIMUM_RETRY disconnects, then got-IP: k + 1 connect requests, outcome Connected, counter 0, FAIL never set |
| `Wifi.RunAppend` | main/main.c:48-68 | Handling a trace in two parts is the same as handling it whole, for both the state and the number of connect requests |
| `Bell.Accepts` | main/main.c:191 | The acceptance test `now - lastRing > BELL_TIMEOUT`. An edge exactly BELL_TIMEOUT after the last ring is rejected. With a non-negative timeout an accepted edge is strictly later than the last ring |
| `Bell.Debounce` | main/main.c:191-193 | The kept timestamp becomes `now` iff the edge is accepted (or `now` equals it already); otherwise it is unchanged |
| `Bell.Rings` | main/main.c:188-196 | The rings of an edge trace are among its edges, and there are never more rings than edges |
| `Bell.LastRingIsLatestRing` | main/main.c:191-193 | After any edge trace, the kept timestamp is the time of the most recent ring, or the initial value if no edge rang |
| `Bell.RingSpacing` | main/main.c:191-193 | The first ring is strictly more than BELL_TIMEOUT after the initial timestamp. Any two consecutive rings are strictly more than BELL_TIMEOUT apart |
| `Bell.SpacedEdgesAllRing` | main/main.c:191 | When every edge is more than BELL_TIMEOUT after the previous one (the first after the initial timestamp), every edge rings |
| `Bell.RingsSnoc` | main/main.c:190-195 | One more edge rings iff it is accepted against the timestamp kept so far. It is appended to the rings, and the timestamp moves to it |
| `Bell.FirstEdge` | main/main.c:191 | With the timestamp at its initial 0, the first edge rings iff `now > BELL_TIMEOUT`. An edge exactly BELL_TIMEOUT after the last ring is rejected, and so is an edge earlier than it |
| `Bell.BurstCanRingTwice` | main/main.c:191-193 | With a 5 s timeout the burst 6, 10, 14 s (gaps of 4 s) rings twice, at 6 and 14 s |
| `Bell.TwoEdges` | main/main.c:191-193 | After a quiet period, with a 5 s timeout: edges 3 s apart ring once and edges 6 s apart ring twice |
| `Bell.EdgesFromBoot` | main/main.c:43 | With the timestamp and clock starting at 0 and a 5 s timeout: edges at 0 and 3 s ring never, and edges at 0 and 6 s ring once, at 6 s |
| `Relay.Send` | main/main.c:194 | A send appends the token at the back when the queue is below capacity. When the queue is full it leaves the contents unchanged |
| `Relay.Apply` | main/main.c:175-194 | A send (main/main.c:194) changes the queue as `Relay.Send` does and adds the token to the admitted history iff there was room. A receive (main/main.c:175) on a non-empty queue delivers the front token and leaves the rest queued. A receive on an empty queue changes nothing |
| `Relay.ReplayAppend` | main/main.c:175-194 | Replaying a sequence of queue operations in two parts is the same as replaying it whole |
| `Relay.SendAllKeepsPrefix` | main/main.c:194 | Sends with no receive in between keep exactly the tokens that found room, in order, and drop every later one |
| `Relay.Fifo` | main/main.c:226 | Over any interleaving of sends and receives, the queue never holds more than its capacity. The tokens delivered, followed by those still queued, are exactly the tokens admitted, in admission order |
| `Relay.AdmittedGrows` | main/main.c:175 | The admission and delivery histories only grow |
| `Relay.FifoFromEmpty` | main/main.c:226 | From the empty queue created at start-up, the length never exceeds the capacity and the delivered tokens are a prefix of the admitted ones |
| `Bot.Step` | main/main.c:145-170 | CONNECTED sets the flag and sends the announcement iff it is enabled. DISCONNECTED clears the flag and sends nothing. Any other event id changes nothing. A token (the body of main/main.c:176-182) sends the doorbell message iff the flag is set and never changes the flag. The log only grows, by at most one message |
| `Bot.Deliveries` | main/main.c:176-181 | The messages produced by n tokens under a fixed flag: n doorbell messages if the flag is set, none otherwise |
| `Bot.TokensRun` | main/main.c:174-183 | n consumed tokens leave the flag unchanged. They append exactly n doorbell messages if it is set and nothing otherwise; tokens are never requeued |
| `Bot.SilentWhileDisconnected` | main/main.c:176-182 | From a disconnected state, a trace with no CONNECTED event sends nothing at all, however many tokens arrive |
| `Bot.SentAreConfigured` | main/main.c:153-181 | Every message sent goes to CHANNEL_ID. Each one is the doorbell message, or the connection message when announcements are enabled |
| `Bot.LastWriteWins` | main/main.c:152-165 | The flag equals what the last CONNECTED or DISCONNECTED event wrote, whatever tokens or other event ids follow |
| `Bot.UnflaggedKeepsFlag` | main/main.c:148-169 | Tokens and unhandled event ids never change the flag |
| `Bot.RunAppend` | main/main.c:145-183 | Handling a trace in two parts is the same as handling it whole |
| `Device.Doorbell.constructor` | main/main.c:41-46 | The boot state: counter 0, no bits, last ring 0, empty queue, session down, nothing sent |
| `Device.Doorbell.OnWifiEvent` | main/main.c:48-68 | The counter, the bits and the connect request are exactly those of `Wifi.Step`. The connect count grows by one iff a connect was requested. Nothing else changes, and the counter stays within 0..MAXIMUM_RETRY |
| `Device.Doorbell.BringUpOutcome` | main/main.c:118-134 | The verdict is `Wifi.Classify` of the current bits: Unexpected iff neither bit is set |
| `Device.Doorbell.OnBellEdge` | main/main.c:188-196 | The edge is accepted iff `now - lastRing > BELL_TIMEOUT`. If accepted, the timestamp becomes `now` and the pin is sent to the queue, dropped if it is full. If rejected, the timestamp and queue are unchanged. The ring history grows by this edge iff it was accepted, and so does the queue's operation history, by a send |
| `Device.Doorbell.OnBotEvent` | main/main.c:145-170 | The flag and the log change exactly as `Bot.Step` says for that session event, and nothing else changes |
| `Device.Doorbell.ServiceOnce` | main/main.c:175-183 | A token is received iff the queue is non-empty. If so, the front token is consumed and added to the queue's delivered history, and the doorbell message is logged iff the flag is set. Otherwise nothing changes |
| `Device.Doorbell.RunWorker` | main/main.c:172-185 | n loop iterations consume min(n, queue length) front tokens, in queue order, and add them to the delivered history. They append exactly one doorbell message per consumed token iff the session is up |

## Left out

- Platform bring-up is not modelled: NVS initialisation and erase, network interface and event-loop creation, Wi-Fi driver configuration, handler registration and unregistration, event-group creation and deletion, and GPIO interrupt set-up. These are calls into the platform with no decision logic of their own.
- The SSID, password, WPA2-PSK threshold and PMF settings are not modelled. They are handed unchanged to the Wi-Fi driver.
- Unregistering the Wi-Fi handlers after the verdict is not modelled, so `OnWifiEvent` may still be called after `BringUpOutcome`.
- Device.Doorbell.BringUpOutcome: the blocking wait on the two bits, with no timeout, is not modelled. The method classifies whatever bits are present when it is called, so its Unexpected case stands for "the wait has not returned yet".
- Device.Doorbell.ServiceOnce: the blocking receive is not modelled. On an empty queue the real worker sleeps until a token arrives; the model's iteration does nothing and reports `received == false`.
- Task scheduling and interrupt preemption are not modelled. Callbacks and worker iterations run one at a time, in the order the caller chooses.
- The session client's internals (create, register, login, the session structure read for logging) are not modelled. A send is one entry appended to the ghost log `sent`. Transport failures of a send, which the firmware ignores, are not modelled.
- Logging has no effect on the state and is left out.
- The clock is the `now` parameter, in whole seconds, as an unbounded integer. The firmware subtracts two `time_t` values; for non-negative clock readings that subtraction cannot overflow, so no wrap-around is modelled.
- The retry counter is a C `int` and `MAXIMUM_RETRY` an `int` configuration value. The counter never exceeds the limit (`Wifi.RetryCeiling`), so it cannot overflow; both are unbounded integers here.
- The commented-out restart code is not modelled.
