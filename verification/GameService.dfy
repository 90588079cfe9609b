/** The application service (server/src/game_service.rs): hydrate, decide, append, publish,
    broadcast. */
module Service {
  import opened Types
  import opened Decider
  import opened LogLanguage
  import opened Store
  import opened Ports
  import opened History
  import opened Rules

  /** What `handle` returns. Of the errors only the wrong game keeps its type; a refusal of
      the decider reaches the caller as text. */
  datatype HandleResult =
    | Done
    | WrongGame(expected: GameId, actual: GameId)
    | Refused(error: TicTacTussleError)
    | BroadcastFailed

  /** The effect on the log of handling an envelope, whoever sent it. */
  function HandleEnvelope(gameId: GameId, log: Log, env: CommandEnvelope): Log {
    if env.gameId == gameId then Handle(log, env.command) else log
  }

  /** The results that `handle` may return. */
  ghost predicate Returns(gameId: GameId, log: Log, env: CommandEnvelope, r: HandleResult) {
    if env.gameId != gameId then r == WrongGame(env.gameId, gameId)
    else
      match Decide(Hydrate(log), env.command)
      case Failure(e) => r == Refused(e)
      case Success(_) => r == Done || r == BroadcastFailed
  }

  class GameService {
    const store: EventStore
    const publisher: Publisher
    const broadcaster: Broadcaster

    /** The service is the only writer of its store: the log stays producible. The broker
        has part of it, and all of it unless the publisher is lossy. */
    ghost predicate Valid()
      reads store, publisher, broadcaster
    {
      && store.Valid()
      && PartOf(publisher.published, store.log)
      && (!publisher.lossy ==> publisher.published == store.log)
      && Producible(store.Events())
    }

    constructor (store: EventStore, publisher: Publisher, broadcaster: Broadcaster)
      requires store.Valid() && Producible(store.Events())
      requires PartOf(publisher.published, store.log)
      requires !publisher.lossy ==> publisher.published == store.log
      ensures Valid()
      ensures this.store == store && this.publisher == publisher && this.broadcaster == broadcaster
    {
      this.store := store;
      this.publisher := publisher;
      this.broadcaster := broadcaster;
    }

    /** The last stage of handling: the events are broadcast one by one, up to a failure. */
    method BroadcastAll(events: Log) returns (ok: bool, ghost sent: nat)
      modifies broadcaster
      ensures ok ==> broadcaster.streams == Sent(old(broadcaster.streams), events)
      ensures !ok ==>
                && broadcaster.faulty && sent < |events|
                && broadcaster.streams == Sent(old(broadcaster.streams), events[..sent])
    {
      hide Sent;
      SentNothing(broadcaster.streams);
      sent := 0;
      for i := 0 to |events|
        invariant broadcaster.streams == Sent(old(broadcaster.streams), events[..i])
      {
        ok := broadcaster.Broadcast(events[i]);
        if !ok {
          sent := i;
          return;
        }
        SentTwice(old(broadcaster.streams), events[..i], [events[i]]);
        assert events[..i] + [events[i]] == events[..i + 1];
      }
      assert events[..|events|] == events;
      ok := true;
    }

    method HandleCommand(env: CommandEnvelope) returns (r: HandleResult)
      requires Valid()
      modifies store, publisher, broadcaster
      ensures Valid()
      ensures Returns(store.gameId, old(store.Events()), env, r)
      ensures store.Events() == HandleEnvelope(store.gameId, old(store.Events()), env)
      ensures old(store.log) <= store.log
      ensures forall i :: |old(store.log)| <= i < |store.log| ==> store.log[i].commandId == Some(env.id)
      ensures publisher.commands == old(publisher.commands)
      // the new envelopes are what is published, whether all of them arrive or not
      ensures Reached(old(publisher.published), store.log[|old(store.log)|..], publisher.published, publisher.lossy)
      // a refusal touches nothing
      ensures r.WrongGame? || r.Refused? ==>
                && store.log == old(store.log) && publisher.published == old(publisher.published)
                && broadcaster.streams == old(broadcaster.streams)
      // success: every client has been sent exactly the new events
      ensures r.Done? ==>
                broadcaster.streams == Sent(old(broadcaster.streams), store.Events()[|old(store.log)|..])
      // failure: the batch is appended whole, and broadcast only in part
      ensures r.BroadcastFailed? ==>
                && broadcaster.faulty
                && exists k :: |old(store.log)| <= k < |store.log| &&
                     broadcaster.streams == Sent(old(broadcaster.streams), store.Events()[|old(store.log)|..k])
    {
      hide Decide, Producible, PartOf, Sequenced, Kept, Reached, Sent;
      ReachedNothing(publisher.published, publisher.lossy);
      assert store.log[|store.log|..] == [];
      if env.gameId != store.gameId {
        return WrongGame(env.gameId, store.gameId);
      }
      var state := Hydrate(store.Events());
      var decision := Decide(state, env.command);
      if decision.Failure? {
        return Refused(decision.error);
      }
      var events := decision.value;
      ProducibleStep(store.Events(), env.command);

      var envelopes := store.AppendBatch(events, Some(env.id));
      publisher.Publish(EventBatch(envelopes));
      ReachedKeepsPart(store.gameId, old(publisher.published), old(store.log), envelopes,
                       publisher.published, publisher.lossy);
      assert store.Events()[|old(store.log)|..] == events;

      var ok, sent := BroadcastAll(events);
      if !ok {
        assert store.Events()[|old(store.log)|..|old(store.log)| + sent] == events[..sent];
        return BroadcastFailed;
      }
      return Done;
    }

    /** Sends the whole history to one client. */
    method CatchUp(client: ClientId) returns (ok: bool)
      requires Valid()
      modifies broadcaster
      ensures Valid()
      ensures !broadcaster.faulty ==> ok
      ensures broadcaster.streams.Keys == old(broadcaster.streams.Keys)
      ensures forall c :: c in broadcaster.streams && c != client ==>
                broadcaster.streams[c] == old(broadcaster.streams)[c]
      ensures client in broadcaster.streams ==>
                exists k :: 0 <= k <= |store.log| && (ok ==> k == |store.log|) &&
                  broadcaster.streams[client] == old(broadcaster.streams)[client] + store.Events()[..k]
    {
      var snapshot := store.Snapshot();
      var sent := 0;
      while sent < |snapshot|
        invariant 0 <= sent <= |snapshot|
        invariant broadcaster.streams.Keys == old(broadcaster.streams.Keys)
        invariant forall c :: c in broadcaster.streams && c != client ==>
                    broadcaster.streams[c] == old(broadcaster.streams)[c]
        invariant client in broadcaster.streams ==>
                    broadcaster.streams[client] == old(broadcaster.streams)[client] + store.Events()[..sent]
      {
        ok := broadcaster.SendTo(client, snapshot[sent].event);
        if !ok {
          return false;
        }
        assert store.Events()[..sent] + [snapshot[sent].event] == store.Events()[..sent + 1];
        sent := sent + 1;
      }
      return true;
    }

    /** Publishes by hand. A batch of events published this way need not be in the log, and
        then the broker has more than the log. */
    method Publish(msg: BrokerMessage)
      requires Valid()
      modifies publisher
      ensures msg.Command? ==>
                && Valid() && publisher.published == old(publisher.published)
                && Reached(old(publisher.commands), [msg.envelope], publisher.commands, publisher.lossy)
      ensures msg.EventBatch? ==>
                && publisher.commands == old(publisher.commands)
                && Reached(old(publisher.published), msg.envelopes, publisher.published, publisher.lossy)
    {
      publisher.Publish(msg);
    }
  }

  /** Reading the log and appending to it are two critical sections. With a second writer
      in between, two joins that are each accepted on the empty log leave a log that no
      server produces, with both seats taken and no start. */
  lemma {:induction false} SecondWriterLeavesLanguage(p: PlayerId, q: PlayerId, pn: string, qn: string)
    requires p != NOBODY && q != NOBODY && p != q
    ensures
      var decided := Decide(Hydrate([]), JoinGame(p, pn));
      && decided.Success?
      && Handle([], JoinGame(q, qn)) == [PlayerJoined(q, qn)]
      && !Producible(Handle([], JoinGame(q, qn)) + decided.value)
  {
    var log: seq<GameEvent> := [PlayerJoined(q, qn), PlayerJoined(p, pn)];
    assert Handle([], JoinGame(q, qn)) + Decide(Hydrate([]), JoinGame(p, pn)).value == log;
    assert log[1..] == [PlayerJoined(p, pn)];
    assert ReadBatch(START, log) == Batch(Waiting([q]), 1);
    assert ReadBatch(Waiting([q]), log[1..]) == Malformed;
    assert Parse(Waiting([q]), log[1..]) == None;
    assert Parse(START, log) == None;
    ProducibleIffAccepted(log);
  }
}
