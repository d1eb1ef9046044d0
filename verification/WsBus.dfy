/** internal/wsbus: the hub and its clients as objects, one goroutine at a time. HubSteps has the interleavings. */
module WsBus {
  import opened Uuids
  import opened Messages
  import opened TwoLevel
  import HubModel

  function CitizenOf(c: Client): Uuid {
    c.citizenID
  }

  class Client {
    const hub: Hub
    const citizenID: Uuid
    var send: seq<Payload>
    var sendClosed: bool
    var onceDone: bool
    var connClosed: bool
    var pumping: bool

    constructor (hub: Hub, citizenID: Uuid)
      ensures this.hub == hub && this.citizenID == citizenID && IsNew()
    {
      this.hub, this.citizenID := hub, citizenID;
      send, sendClosed, onceDone, connClosed, pumping := [], false, false, false, false;
    }

    ghost predicate IsNew()
      reads this
    {
      send == [] && !sendClosed && !onceDone && !connClosed && !pumping
    }

    /** The fields agree with what the model says of the connection. */
    ghost predicate Shows(conn: HubModel.Conn)
      reads this
    {
      conn.citizen == citizenID && conn.queue == send && conn.open == !sendClosed && conn.pumping == pumping
      && onceDone == sendClosed == connClosed
    }

    /** closeOnce.Do: unregister, close the channel, close the connection. */
    method Shutdown()
      requires hub.Shaped() && this in hub.Clients()
      modifies hub`byCitizen, hub`model, this`sendClosed, this`onceDone, this`connClosed
      ensures hub.Shaped() && hub.model == HubModel.Shutdown(old(hub.model), this)
      ensures onceDone && sendClosed && connClosed
    {
      if !onceDone {
        onceDone := true;
        hub.Unregister(this);
        sendClosed := true;
        connClosed := true;
        hub.model := HubModel.Shutdown(hub.model, this);
      }
    }

    /** The select of Dispatch: queue the message if there is room, else drop the client. */
    method Offer(payload: Payload)
      requires hub.Shaped() && this in hub.Clients() && !sendClosed
      modifies hub`byCitizen, hub`model, this
      ensures hub.Shaped() && hub.model == HubModel.Offer(old(hub.model), this, payload)
      ensures if |old(send)| < 16 then send == old(send) + [payload] && !sendClosed else send == old(send) && sendClosed
    {
      if |send| < HubModel.SEND_BUFFER {
        send := send + [payload];
        hub.model := HubModel.Offer(hub.model, this, payload);
      } else {
        Shutdown();
      }
    }

    /** Run: register, then start the pumps. */
    method Run()
      requires hub.Valid() && IsNew() && this !in hub.Clients()
      modifies hub, this
      ensures hub.Valid() && hub.model == HubModel.Register(old(hub.model), this, citizenID)
      ensures pumping && send == [] && !sendClosed && (this in Flat(hub.byCitizen) <==> !hub.closed)
    {
      HubModel.RegisterInv(hub.model, this, citizenID);
      pumping := true;
      hub.Register(this);
    }

    /** The write pump takes the oldest message from the channel; ok says whether it reaches the socket. */
    method Take(ok: bool)
      requires hub.Shaped() && this in hub.Clients() && pumping && send != []
      modifies hub`model, this`send, this`pumping
      ensures hub.Shaped() && this in hub.Clients() && HubModel.CanWrite(old(hub.model), this)
      ensures hub.model == if ok then HubModel.Write(old(hub.model), this, true)
                           else HubModel.PumpFailed(old(hub.model), this)
    {
      hub.model := if ok then HubModel.Write(hub.model, this, true) else HubModel.PumpFailed(hub.model, this);
      send, pumping := send[1..], ok;
    }

    /** One turn of the write pump with a message; it ends with the first one it cannot write. */
    method WriteMessage(ok: bool)
      requires hub.Valid() && this in hub.Clients() && pumping && send != []
      modifies hub`byCitizen, hub`model, this
      ensures hub.Valid() && HubModel.CanWrite(old(hub.model), this)
      ensures hub.model == HubModel.Write(old(hub.model), this, ok)
      ensures send == old(send)[1..] && pumping == ok && sendClosed == (old(sendClosed) || !ok)
    {
      HubModel.WriteInv(hub.model, this, ok);
      Take(ok);
      if !ok {
        Shutdown();
      }
    }

    /** The write pump ends: a ping failed, or the channel is closed and empty. */
    method EndWritePump()
      requires hub.Valid() && this in hub.Clients() && pumping
      modifies hub`byCitizen, hub`model, this
      ensures hub.Valid() && hub.model == HubModel.StopPump(old(hub.model), this)
      ensures sendClosed && !pumping && this !in Flat(hub.byCitizen) && send == old(send)
    {
      HubModel.StepInv(hub.model, HubModel.DoStopPump(this));
      Stop();
      Shutdown();
      assert HubModel.ConnOk(hub.model, this);
    }

    method Stop()
      requires hub.Shaped() && this in hub.Clients()
      modifies hub`model, this`pumping
      ensures hub.Shaped() && hub.model == HubModel.PumpStopped(old(hub.model), this)
    {
      pumping := false;
      hub.model := HubModel.PumpStopped(hub.model, this);
    }

    /** The read pump ends: a read failed, the connection was closed, or no pong came in time. */
    method EndReadPump()
      requires hub.Valid() && this in hub.Clients()
      modifies hub`byCitizen, hub`model, this
      ensures hub.Valid() && hub.model == HubModel.Shutdown(old(hub.model), this)
      ensures sendClosed && pumping == old(pumping) && this !in Flat(hub.byCitizen) && send == old(send)
    {
      HubModel.ShutdownInv(hub.model, this);
      Shutdown();
      assert HubModel.ConnOk(hub.model, this);
    }
  }

  class Hub {
    var byCitizen: map<Uuid, set<Client>>
    var closed: bool
    ghost var model: HubModel.Hub<Client>

    constructor ()
      ensures Valid() && model == HubModel.Empty<Client>()
    {
      byCitizen, closed, model := map[], false, HubModel.Empty<Client>();
    }

    /** Every client that has run on this hub. */
    ghost function Clients(): set<Client>
      reads this
    {
      model.conns.Keys
    }

    /** The objects show the model's state: the two-level index stands for its flat set of live clients. */
    ghost predicate Shaped()
      reads this, Clients()
    {
      && (forall c {:trigger model.conns[c]} | c in model.conns :: c.hub == this && c.Shows(model.conns[c]))
      && TwoLevel.Shaped(byCitizen, CitizenOf) && Flat(byCitizen) == model.live
      && closed == model.closed && (closed ==> byCitizen == map[])
    }

    ghost predicate Valid()
      reads this, Clients()
    {
      Shaped() && HubModel.Inv(model)
    }

    /** A closed hub takes nobody. A client that has run before goes back in the index, ended or not. */
    method Register(c: Client)
      requires Shaped() && c.hub == this
      requires c !in Clients() ==> c.send == [] && c.pumping && !c.sendClosed && !c.onceDone && !c.connClosed
      modifies this`byCitizen, this`model
      ensures Shaped() && model == HubModel.Register(old(model), c, c.citizenID)
      ensures byCitizen == if closed then old(byCitizen) else With(old(byCitizen), c.citizenID, c)
      ensures Flat(byCitizen) == if closed then Flat(old(byCitizen)) else Flat(old(byCitizen)) + {c}
    {
      model := HubModel.Register(model, c, c.citizenID);
      if closed {
        return;
      }
      WithIsUnion(byCitizen, CitizenOf, c);
      byCitizen := With(byCitizen, c.citizenID, c);
    }

    /** Safe if already removed. */
    method Unregister(c: Client)
      requires TwoLevel.Shaped(byCitizen, CitizenOf)
      modifies this`byCitizen
      ensures TwoLevel.Shaped(byCitizen, CitizenOf)
      ensures Flat(byCitizen) == Flat(old(byCitizen)) - {c}
      ensures c !in Flat(old(byCitizen)) ==> byCitizen == old(byCitizen)
    {
      WithoutIsDifference(byCitizen, CitizenOf, c);
      if c !in Flat(byCitizen) { WithoutAbsent(byCitizen, CitizenOf, c); }
      byCitizen := Without(byCitizen, c.citizenID, c);
    }

    /** Dispatch's loop over the snapshot it took under the lock. */
    method OfferAll(clients: set<Client>, payload: Payload)
      requires Shaped() && model.live <= Clients() && forall c | c in clients :: c in Clients() && !c.sendClosed
      modifies this`byCitizen, this`model, clients
      ensures Shaped() && model == HubModel.Offered(old(model), clients, payload)
    {
      ghost var h := model;
      var todo := clients;
      HubModel.OfferedNone(h, payload);
      assert clients - todo == {};
      while todo != {}
        invariant todo <= clients && Shaped() && model == HubModel.Offered(h, clients - todo, payload)
        decreases |todo|
      {
        var c :| c in todo;
        HubModel.OfferOne(h, clients - todo, c, payload);
        c.Offer(payload);
        OneMore(clients, todo, c);
        todo := todo - {c};
      }
      assert clients - todo == clients;
    }

    method Dispatch(citizenID: Uuid, payload: Payload)
      requires Valid()
      modifies this`byCitizen, this`model, Clients()
      ensures Valid() && model == HubModel.Dispatch(old(model), citizenID, payload)
      ensures Clients() == old(Clients()) && closed == old(closed)
      ensures forall c | c in old(Clients()) ::
                if c in old(Flat(byCitizen)) && c.citizenID == citizenID then
                  if |old(c.send)| < 16 then
                    c.send == old(c.send) + [payload] && !c.sendClosed && c in Flat(byCitizen)
                  else
                    |old(c.send)| == 16 && c.send == old(c.send) && c.sendClosed && c !in Flat(byCitizen)
                else
                  c.send == old(c.send) && c.sendClosed == old(c.sendClosed)
                  && (c in Flat(byCitizen) <==> c in old(Flat(byCitizen)))
    {
      if closed {
        return;
      }
      ghost var h := model;
      var clients := Under(byCitizen, citizenID);
      UnderIsFiltered(byCitizen, CitizenOf, citizenID);
      AllOpen();
      OfferAll(clients, payload);
      HubModel.OfferedAll(h, clients, citizenID, payload);
      HubModel.StepInv(h, HubModel.DoDispatch(citizenID, payload));
      model := HubModel.Dispatch(h, citizenID, payload);
      forall c | c in h.conns { HubModel.DispatchTo(h, citizenID, payload, c); }
    }

    lemma AllOpen()
      requires Valid()
      ensures forall c | c in model.live :: c in Clients() && !c.sendClosed
    {
      forall c | c in model.live ensures c in Clients() && !c.sendClosed {
        assert HubModel.ConnOk(model, c);
      }
    }

    /** Close's loop over the clients it found under the lock. */
    method EndAll(clients: set<Client>)
      requires Shaped() && closed && clients <= Clients() && model.live == {}
      modifies this`byCitizen, this`model, clients
      ensures Shaped() && model == HubModel.Ending(old(model), clients)
    {
      ghost var h := model;
      var todo := clients;
      HubModel.EndedNone(h);
      assert clients - todo == {};
      while todo != {}
        invariant todo <= clients && Shaped() && model == HubModel.Ending(h, clients - todo)
        decreases |todo|
      {
        var c :| c in todo;
        HubModel.EndOne(h, clients - todo, c);
        c.Shutdown();
        OneMore(clients, todo, c);
        todo := todo - {c};
      }
      assert clients - todo == clients;
    }

    /** The part of Close under the lock: empty the index and say who was in it. */
    method Seal() returns (all: set<Client>)
      requires Shaped() && !closed && model.live <= Clients()
      modifies this
      ensures Shaped() && closed && byCitizen == map[]
      ensures all == old(model.live) && model == HubModel.Ending(old(model), {})
    {
      all := set citizen, c | citizen in byCitizen && c in byCitizen[citizen] :: c;
      HubModel.EndedNone(model);
      model := HubModel.Ending(model, {});
      closed, byCitizen := true, map[];
    }

    /** Shuts down all clients and prevents new registrations; the second call does nothing. */
    method Close()
      requires Valid()
      modifies this, Clients()
      ensures Valid() && model == HubModel.Close(old(model)) && closed && byCitizen == map[]
      ensures forall c | c in old(Clients()) ::
                c.send == old(c.send) && c.sendClosed == (old(c.sendClosed) || c in old(Flat(byCitizen)))
    {
      if closed {
        return;
      }
      ghost var h := model;
      HubModel.CloseInv(h);
      var all := Seal();
      EndAll(all);
      HubModel.EndingAgain(h, all);
      HubModel.EndedAll(h);
    }
  }
}
