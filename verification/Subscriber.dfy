/** internal/notify/subscriber.go: the receive loop that hands Redis messages to the hub. */
module Subscribers {
  import opened Wrappers
  import opened Messages
  import opened Channel
  import opened WsBus

  /** What a message does to the hub: a nil message or a channel that names no citizen does nothing. */
  function Forwarded<C>(h: HubModel.Hub<C>, msg: Option<Message>): HubModel.Hub<C> {
    if msg.None? then h
    else
      match ParseCitizenChannel(msg.value.channel)
      case None => h
      case Some(citizen) => HubModel.Dispatch(h, citizen, msg.value.payload)
  }

  function ForwardedAll<C>(h: HubModel.Hub<C>, msgs: seq<Option<Message>>): HubModel.Hub<C> {
    if msgs == [] then h else Forwarded(ForwardedAll(h, msgs[..|msgs| - 1]), msgs[|msgs| - 1])
  }

  /** The dispatches a batch of messages gives rise to. */
  function Readable(msgs: seq<Option<Message>>): seq<HubModel.Dispatched> {
    if msgs == [] then []
    else
      var last := msgs[|msgs| - 1];
      Readable(msgs[..|msgs| - 1]) +
      (if last.Some? && ParseCitizenChannel(last.value.channel).Some?
       then [HubModel.Dispatched(ParseCitizenChannel(last.value.channel).value, last.value.payload)] else [])
  }

  /** strings.EqualFold against a text of ASCII letters: besides case, two letters outside ASCII fold to s and k. */
  predicate EqualFold(s: string, ascii: string) {
    |s| == |ascii| && forall i | 0 <= i < |s| :: Folded(s[i]) == Folded(ascii[i])
  }

  function Folded(c: char): char {
    if c == '\U{017F}' then 's' else if c == '\U{212A}' then 'k' else LowerChar(c)
  }

  /** The early `continue` on an empty or "subscribe" channel skips nothing the parser would have accepted. */
  lemma SkippedAnyway(channel: string)
    requires channel == "" || EqualFold(channel, "subscribe")
    ensures ParseCitizenChannel(channel).None?
  {
    assert |CITIZEN_CHANNEL_PREFIX| > |"subscribe"|;
  }

  /** An open hub dispatches every readable message once, in order, and nothing else; a closed one none. */
  lemma {:induction false} ForwardsInOrder<C>(h: HubModel.Hub<C>, msgs: seq<Option<Message>>)
    ensures ForwardedAll(h, msgs).closed == h.closed
    ensures ForwardedAll(h, msgs).log == h.log + if h.closed then [] else Readable(msgs)
    decreases |msgs|
  {
    if msgs != [] {
      ForwardsInOrder(h, msgs[..|msgs| - 1]);
    }
  }

  class Subscriber {
    const hub: Hub

    constructor (hub: Hub)
      ensures this.hub == hub
    {
      this.hub := hub;
    }

    /** The body of the receive loop. */
    method Receive(msg: Option<Message>)
      requires hub.Valid()
      modifies hub`byCitizen, hub`model, hub.Clients()
      ensures hub.Valid() && hub.model == Forwarded(old(hub.model), msg)
    {
      if msg.None? {
        return;
      }
      var channel := msg.value.channel;
      if channel == "" || EqualFold(channel, "subscribe") {
        SkippedAnyway(channel);
        return;
      }
      var citizen := ParseCitizenChannel(channel);
      if citizen.None? {
        return;
      }
      hub.Dispatch(citizen.value, msg.value.payload);
    }

    /** runOnce over the messages received until the channel is closed or the context ends. */
    method RunOnce(msgs: seq<Option<Message>>)
      requires hub.Valid()
      modifies hub`byCitizen, hub`model, hub.Clients()
      ensures hub.Valid() && hub.model == ForwardedAll(old(hub.model), msgs)
    {
      var i := 0;
      assert msgs[..0] == [];
      while i < |msgs|
        invariant 0 <= i <= |msgs| && hub.Valid() && hub.Clients() == old(hub.Clients())
        invariant hub.model == ForwardedAll(old(hub.model), msgs[..i])
      {
        Receive(msgs[i]);
        assert msgs[..i + 1][..i] == msgs[..i];
        i := i + 1;
      }
      assert msgs[..i] == msgs;
    }
  }
}
