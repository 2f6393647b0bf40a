/** The messaging-session connectivity flag and the sends gated on it: the session callback
    that sets and clears the flag, and the worker's handling of one token taken from the queue.
    Each send is recorded in a log of the messages handed to the session client. */
module Bot {
  import opened Settings

  datatype Message = Message(content: string, channelId: string)

  /** The session callback's event ids; any id other than the two it handles is ignored. */
  datatype Event = Connected | Disconnected | OtherEvent(id: int)

  /** What the gate reacts to: a session callback, or a token the worker took from the queue. */
  datatype Input = Session(e: Event) | Token

  /** The connectivity flag and the log of messages sent so far. */
  datatype State = State(connected: bool, sent: seq<Message>)

  const Initial: State := State(false, [])

  function DoorbellMessage(cfg: Config): Message { Message(cfg.doorbellMessage, cfg.channelId) }

  function ConnectionMessage(cfg: Config): Message { Message(cfg.connectionMessage, cfg.channelId) }

  /** One session callback or one token. */
  function Step(s: State, i: Input, cfg: Config): (r: State)
    // the log only grows, by at most one message
    ensures s.sent <= r.sent && |r.sent| <= |s.sent| + 1
    // a token sends the doorbell message iff the flag is set, and never changes the flag
    ensures i == Token ==>
              r.connected == s.connected
              && (r.sent == s.sent + [DoorbellMessage(cfg)] <==> s.connected)
              && (!s.connected ==> r.sent == s.sent)
    // the two session events write the flag; only a connection may announce itself
    ensures i == Session(Connected) ==>
              r.connected
              && r.sent == s.sent + (if cfg.connectionMessageEnabled then [ConnectionMessage(cfg)] else [])
    ensures i == Session(Disconnected) ==> !r.connected && r.sent == s.sent
    ensures i.Session? && i.e.OtherEvent? ==> r == s
  {
    match i
    case Token => if s.connected then s.(sent := s.sent + [DoorbellMessage(cfg)]) else s
    case Session(Connected) =>
      State(true, if cfg.connectionMessageEnabled then s.sent + [ConnectionMessage(cfg)] else s.sent)
    case Session(Disconnected) => s.(connected := false)
    case Session(OtherEvent(_)) => s
  }

  function Run(s: State, inputs: seq<Input>, cfg: Config): State
    decreases |inputs|
  {
    if inputs == [] then s else Run(Step(s, inputs[0], cfg), inputs[1..], cfg)
  }

  function Tokens(n: nat): (ts: seq<Input>)
    ensures |ts| == n
    ensures forall i :: 0 <= i < n ==> ts[i] == Token
  {
    seq(n, _ => Token)
  }

  /** The messages n tokens produce when the flag is `connected` throughout. */
  function Deliveries(connected: bool, n: nat, cfg: Config): (ms: seq<Message>)
    ensures |ms| == if connected then n else 0
    ensures forall m :: m in ms ==> m == DoorbellMessage(cfg)
  {
    if connected then seq(n, _ => DoorbellMessage(cfg)) else []
  }

  lemma {:induction false} RunAppend(s: State, a: seq<Input>, b: seq<Input>, cfg: Config)
    ensures Run(s, a + b, cfg) == Run(Run(s, a, cfg), b, cfg)
    decreases |a|
  {
    if a == [] {
      assert a + b == b;
    } else {
      assert (a + b)[0] == a[0];
      assert (a + b)[1..] == a[1..] + b;
      RunAppend(Step(s, a[0], cfg), a[1..], b, cfg);
    }
  }

  /** n tokens: the flag is unchanged, and exactly n doorbell messages are sent if it is set,
      none otherwise; every token is consumed either way. */
  lemma {:induction false} TokensRun(s: State, n: nat, cfg: Config)
    ensures Run(s, Tokens(n), cfg) == State(s.connected, s.sent + Deliveries(s.connected, n, cfg))
    decreases n
  {
    if n > 0 {
      assert Tokens(n)[1..] == Tokens(n - 1);
      var s' := Step(s, Token, cfg);
      TokensRun(s', n - 1, cfg);
      if s.connected {
        assert [DoorbellMessage(cfg)] + Deliveries(true, n - 1, cfg) == Deliveries(true, n, cfg);
      }
    }
  }

  /** While disconnected and with no connection event, nothing at all is sent,
      however many tokens arrive. */
  lemma {:induction false} SilentWhileDisconnected(s: State, inputs: seq<Input>, cfg: Config)
    requires !s.connected
    requires Session(Connected) !in inputs
    ensures Run(s, inputs, cfg) == State(false, s.sent)
    decreases |inputs|
  {
    if inputs != [] {
      SilentWhileDisconnected(Step(s, inputs[0], cfg), inputs[1..], cfg);
    }
  }

  /** Every message sent is addressed to the configured channel and is either the doorbell
      message or, when announcements are enabled, the connection message. */
  lemma {:induction false} SentAreConfigured(s: State, inputs: seq<Input>, cfg: Config)
    ensures var t := Run(s, inputs, cfg);
            s.sent <= t.sent
            && forall k :: |s.sent| <= k < |t.sent| ==>
                 t.sent[k].channelId == cfg.channelId
                 && (t.sent[k] == DoorbellMessage(cfg)
                     || (cfg.connectionMessageEnabled && t.sent[k] == ConnectionMessage(cfg)))
    decreases |inputs|
  {
    if inputs != [] {
      SentAreConfigured(Step(s, inputs[0], cfg), inputs[1..], cfg);
    }
  }

  /** The flag is whatever the last connection or disconnection event wrote: later tokens
      and other event ids leave it alone. */
  lemma {:induction false} LastWriteWins(s: State, pre: seq<Input>, e: Event, post: seq<Input>, cfg: Config)
    requires e == Connected || e == Disconnected
    requires forall i :: 0 <= i < |post| ==> post[i] == Token || post[i].e.OtherEvent?
    ensures Run(s, pre + [Session(e)] + post, cfg).connected == (e == Connected)
  {
    RunAppend(s, pre + [Session(e)], post, cfg);
    RunAppend(s, pre, [Session(e)], cfg);
    UnflaggedKeepsFlag(Run(s, pre + [Session(e)], cfg), post, cfg);
  }

  lemma {:induction false} UnflaggedKeepsFlag(s: State, inputs: seq<Input>, cfg: Config)
    requires forall i :: 0 <= i < |inputs| ==> inputs[i] == Token || inputs[i].e.OtherEvent?
    ensures Run(s, inputs, cfg).connected == s.connected
    decreases |inputs|
  {
    if inputs != [] {
      UnflaggedKeepsFlag(Step(s, inputs[0], cfg), inputs[1..], cfg);
    }
  }
}
