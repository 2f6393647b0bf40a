/** The doorbell firmware's process-wide state as one object: one method per callback the
    platform invokes (Wi-Fi/IP events, the bell interrupt, the session callback), the
    start-up thread's classification of the bring-up bits, and the worker's loop.
    Callbacks run one at a time; ghost histories record every input seen so far, and Valid()
    ties the fields to the trace functions of the other modules. */
module Device {
  import opened Settings
  import opened Numbers
  import Wifi
  import Bell
  import Relay
  import Bot

  class Doorbell {
    const cfg: Config

    var retryNum: int          // the retry counter
    var connectedBit: bool     // CONNECTED bit of the bring-up event group
    var failBit: bool          // FAIL bit of the bring-up event group
    var lastRing: int          // time of the last accepted ring, in seconds
    var queue: seq<nat>        // the relay queue, front first
    var botConnected: bool     // the session connectivity flag

    ghost var sent: seq<Bot.Message>       // every message handed to the session client
    ghost var wifiEvents: seq<Wifi.Event>  // every Wi-Fi/IP event handled
    ghost var edges: seq<int>              // the time of every bell edge
    ghost var botInputs: seq<Bot.Input>    // every session event and every token consumed
    ghost var relayOps: seq<Relay.Op<nat>> // every send and every successful receive on the queue
    ghost var connectRequests: nat         // the number of connect requests issued to the driver

    function WifiState(): Wifi.State
      reads this
    {
      Wifi.State(retryNum, connectedBit, failBit)
    }

    ghost function BotState(): Bot.State
      reads this
    {
      Bot.State(botConnected, sent)
    }

    /** The queue with its admission and delivery histories. */
    ghost function Channel(): Relay.Channel<nat>
      reads this
    {
      Relay.Replay(Relay.Channel([], [], []), relayOps, Relay.Capacity)
    }

    ghost predicate Valid()
      reads this
    {
      && WifiState() == Wifi.Run(Wifi.Initial, wifiEvents, cfg.maxRetry)
      && connectRequests == Wifi.Connects(Wifi.Initial, wifiEvents, cfg.maxRetry)
      && Wifi.InRange(WifiState(), cfg.maxRetry)
      && lastRing == Bell.LastRing(0, edges, cfg.bellTimeout)
      && |queue| <= Relay.Capacity
      && queue == Channel().queue
      && Channel().delivered + queue == Channel().admitted
      && BotState() == Bot.Run(Bot.Initial, botInputs, cfg)
    }

    /** The state at boot: no retry, no bits, no ring yet, an empty queue, session down. */
    constructor (cfg: Config)
      ensures Valid() && this.cfg == cfg
      ensures WifiState() == Wifi.Initial && lastRing == 0 && queue == [] && BotState() == Bot.Initial
      ensures wifiEvents == [] && edges == [] && botInputs == [] && relayOps == []
      ensures connectRequests == 0
    {
      this.cfg := cfg;
      retryNum, connectedBit, failBit := 0, false, false;
      lastRing, queue, botConnected := 0, [], false;
      sent, wifiEvents, edges, botInputs, relayOps := [], [], [], [], [];
      connectRequests := 0;
    }

    /** The Wi-Fi/IP event handler; `connect` says whether it asked the driver to connect. */
    method OnWifiEvent(e: Wifi.Event) returns (connect: bool)
      requires Valid()
      modifies this`retryNum, this`connectedBit, this`failBit, this`wifiEvents, this`connectRequests
      ensures Valid()
      ensures Wifi.Step(old(WifiState()), e, cfg.maxRetry) == Wifi.Reaction(WifiState(), connect)
      ensures wifiEvents == old(wifiEvents) + [e]
      ensures connectRequests == old(connectRequests) + (if connect then 1 else 0)
    {
      connect := false;
      match e {
        case StaStart =>
          connect := true;
        case StaDisconnected =>
          if retryNum < cfg.maxRetry {
            connect := true;
            retryNum := retryNum + 1;
          } else {
            failBit := true;
          }
        case GotIp =>
          retryNum := 0;
          connectedBit := true;
        case OtherEvent =>
      }
      wifiEvents := wifiEvents + [e];
      if connect {
        connectRequests := connectRequests + 1;
      }
      Wifi.RunAppend(Wifi.Initial, old(wifiEvents), [e], cfg.maxRetry);
      assert [e][1..] == [];
    }

    /** The start-up thread's verdict once its wait on the two bits returns. */
    method BringUpOutcome() returns (o: Wifi.Outcome)
      ensures o == Wifi.Classify(WifiState())
      ensures o == Wifi.Unexpected <==> !connectedBit && !failBit
    {
      if connectedBit {
        o := Wifi.Connected;
      } else if failBit {
        o := Wifi.Failed;
      } else {
        o := Wifi.Unexpected;
      }
    }

    /** The bell's rising-edge interrupt at time `now`: a new ring updates the timestamp and
        sends the pin number to the queue, dropped if the queue is full; any other edge
        changes nothing. */
    method OnBellEdge(now: int) returns (accepted: bool)
      requires Valid()
      modifies this`lastRing, this`queue, this`edges, this`relayOps
      ensures Valid()
      ensures accepted <==> Bell.Accepts(old(lastRing), now, cfg.bellTimeout)
      ensures lastRing == if accepted then now else old(lastRing)
      ensures queue == if accepted then Relay.Send(old(queue), cfg.bellPin, Relay.Capacity) else old(queue)
      ensures edges == old(edges) + [now]
      ensures relayOps == old(relayOps) + (if accepted then [Relay.Put(cfg.bellPin)] else [])
      ensures Bell.Rings(0, edges, cfg.bellTimeout)
                == Bell.Rings(0, old(edges), cfg.bellTimeout) + (if accepted then [now] else [])
    {
      accepted := now - lastRing > cfg.bellTimeout;
      if accepted {
        lastRing := now;
        if |queue| < Relay.Capacity {
          queue := queue + [cfg.bellPin];
        }
        relayOps := relayOps + [Relay.Put(cfg.bellPin)];
        Relay.ReplayAppend(Relay.Channel([], [], []), old(relayOps), [Relay.Put(cfg.bellPin)], Relay.Capacity);
        Relay.Fifo(Relay.Channel([], [], []), relayOps, Relay.Capacity);
      }
      edges := edges + [now];
      Bell.RingsSnoc(0, old(edges), now, cfg.bellTimeout);
    }

    /** The session client's callback. */
    method OnBotEvent(e: Bot.Event)
      requires Valid()
      modifies this`botConnected, this`sent, this`botInputs
      ensures Valid()
      ensures BotState() == Bot.Step(old(BotState()), Bot.Session(e), cfg)
      ensures botInputs == old(botInputs) + [Bot.Session(e)]
    {
      match e {
        case Connected =>
          botConnected := true;
          if cfg.connectionMessageEnabled {
            sent := sent + [Bot.ConnectionMessage(cfg)];
          }
        case Disconnected =>
          botConnected := false;
        case OtherEvent(_) =>
      }
      botInputs := botInputs + [Bot.Session(e)];
      Bot.RunAppend(Bot.Initial, old(botInputs), [Bot.Session(e)], cfg);
      assert [Bot.Session(e)][1..] == [];
    }

    /** One iteration of the worker's loop: take the front token and send the doorbell message
        if the session is up. The token is consumed either way. An empty queue would block the
        worker; here the iteration then does nothing and `received` is false. */
    method ServiceOnce() returns (received: bool, pin: nat)
      requires Valid()
      modifies this`queue, this`sent, this`botInputs, this`relayOps
      ensures Valid()
      ensures received <==> old(queue) != []
      ensures received ==> pin == old(queue)[0] && queue == old(queue)[1..]
                           && BotState() == Bot.Step(old(BotState()), Bot.Token, cfg)
                           && botInputs == old(botInputs) + [Bot.Token]
                           && relayOps == old(relayOps) + [Relay.Take]
                           && Channel().delivered == old(Channel().delivered) + [pin]
      ensures !received ==> queue == old(queue) && sent == old(sent) && botInputs == old(botInputs)
                            && relayOps == old(relayOps)
    {
      received, pin := false, 0;
      if queue != [] {
        received, pin := true, queue[0];
        queue := queue[1..];
        if botConnected {
          sent := sent + [Bot.DoorbellMessage(cfg)];
        }
        botInputs := botInputs + [Bot.Token];
        relayOps := relayOps + [Relay.Take];
        Relay.ReplayAppend(Relay.Channel([], [], []), old(relayOps), [Relay.Take], Relay.Capacity);
        Relay.Fifo(Relay.Channel([], [], []), relayOps, Relay.Capacity);
        Bot.RunAppend(Bot.Initial, old(botInputs), [Bot.Token], cfg);
        assert [Bot.Token][1..] == [];
      }
    }

    /** n iterations of the worker's loop with no other callback in between: the first
        min(n, |queue|) tokens are consumed, and one doorbell message is sent per token
        if and only if the session is up. */
    method RunWorker(n: nat) returns (served: nat)
      requires Valid()
      modifies this`queue, this`sent, this`botInputs, this`relayOps
      ensures Valid()
      ensures served == Min(n, |old(queue)|)
      ensures queue == old(queue)[served..]
      ensures sent == old(sent) + Bot.Deliveries(botConnected, served, cfg)
      ensures botInputs == old(botInputs) + Bot.Tokens(served)
      ensures Channel().delivered == old(Channel().delivered) + old(queue)[..served]
    {
      ghost var q0, d0 := queue, Channel().delivered;
      served := 0;
      var i := 0;
      while i < n
        invariant Valid()
        invariant 0 <= i <= n
        invariant served == Min(i, |q0|)
        invariant queue == q0[served..]
        invariant sent == old(sent) + Bot.Deliveries(botConnected, served, cfg)
        invariant botInputs == old(botInputs) + Bot.Tokens(served)
        invariant Channel().delivered == d0 + q0[..served]
      {
        ghost var before := queue;
        var received, pin := ServiceOnce();
        if received {
          assert pin == q0[served] by { assert before == q0[served..]; }
          assert q0[..served + 1] == q0[..served] + [pin];
          assert Bot.Tokens(served + 1) == Bot.Tokens(served) + [Bot.Token];
          assert Bot.Deliveries(botConnected, served + 1, cfg)
                   == Bot.Deliveries(botConnected, served, cfg)
                      + (if botConnected then [Bot.DoorbellMessage(cfg)] else []);
          served := served + 1;
        }
        i := i + 1;
      }
    }
  }
}
