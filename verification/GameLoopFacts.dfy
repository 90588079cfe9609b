/** What the game loop does, told from the log and the queues alone. */
module LoopFacts {
  import opened Types
  import opened BoardLogic
  import opened Rules
  import opened Decider
  import opened LogLanguage
  import opened History
  import opened GameFacts
  import opened Ports
  import opened Service
  import opened GameLoop

  // ── Connections ──

  /** A disconnect is a leave of that very client: during play it abandons the game in the
      client's name, and otherwise it is only recorded. Everybody still connected is told. */
  lemma {:induction false} DisconnectOutcome(v: View, c: ClientId)
    ensures
      var w := Connection(v, ClientDisconnected(c));
      var added: Log :=
        if Hydrate(v.log).stage == InGame then [PlayerLeft(c), GameEnded(Abandoned(c))] else [PlayerLeft(c)];
      && w.log == v.log + added
      && w.streams.Keys == v.streams.Keys
      && forall d :: d in v.streams ==> w.streams[d] == v.streams[d] + added
  {
  }

  /** The join that a connection stands for: the first client to connect takes the first
      seat, the next one the second seat and starts the game, and everybody else watches. */
  function JoinOutcome(log: Log, c: ClientId, name: string): Log {
    if Hydrate(log).stage != Lobby || c == NOBODY || c in Joiners(log) then []
    else if Joiners(log) == [] then [PlayerJoined(c, name)]
    else [PlayerJoined(c, name), GameStarted(Joiners(log)[0])]
  }

  /** A newcomer is sent the history and its own join, in this order; the others are sent
      the join only. */
  lemma {:induction false} ConnectOutcome(v: View, c: ClientId, name: string)
    requires Producible(v.log)
    ensures
      var w := Connection(v, ClientConnected(c, name));
      var added := JoinOutcome(v.log, c, name);
      && w.log == v.log + added
      && w.streams.Keys == v.streams.Keys
      && (forall d :: d in v.streams && d != c ==> w.streams[d] == v.streams[d] + added)
      && (c in v.streams ==> w.streams[c] == v.streams[c] + w.log)
  {
    hide HasLine;
    var g := ProducibleExplained(v.log);
    var log, added := Handle(v.log, JoinGame(c, name)), JoinOutcome(v.log, c, name);
    assert log == v.log + added;
    assert log[|v.log|..] == added;
    if c in v.streams {
      assert v.streams[c] + v.log + added == v.streams[c] + (v.log + added);
    }
  }

  ghost predicate Bystander(c: ClientId, events: seq<ServerEvent>) {
    forall name :: ClientConnected(c, name) !in events
  }

  lemma {:induction false} BystanderBefore(c: ClientId, events: seq<ServerEvent>, n: nat)
    requires n < |events| && Bystander(c, events)
    ensures Bystander(c, events[..n]) && (events[n].ClientConnected? ==> events[n].client != c)
  {
    assert events[n] in events;
    assert events[n].ClientConnected? ==> events[n] == ClientConnected(events[n].client, events[n].name);
  }

  /** When catch-ups and broadcasts may fail: every client that does not connect meanwhile
      is sent the same part of the new events, in order. */
  lemma {:induction false} ConnectFailuresAreShared(v: View, events: seq<ServerEvent>, w: View) returns (lost: set<nat>)
    requires MayConnectAll(v, events, w)
    ensures w.log == HandleAll(v.log, CommandsFor(events)) && v.log <= w.log
    ensures w.streams.Keys == v.streams.Keys
    ensures forall c :: c in v.streams && Bystander(c, events) ==>
              w.streams[c] == v.streams[c] + Kept(w.log[|v.log|..], lost)
    decreases |events|
  {
    hide Handle, HandleAll, Kept, MayConnect, Bystander;
    HandleAllNone(v.log);
    if events == [] {
      lost := {};
      assert Kept(w.log[|v.log|..], lost) == [] by { KeptNone(w.log[|v.log|..]); }
    } else {
      var n := |events| - 1;
      var mid :| MayConnectAll(v, events[..n], mid) && MayConnect(mid, events[n], w);
      var former := ConnectFailuresAreShared(v, events[..n], mid);
      assert CommandsFor(events) == CommandsFor(events[..n]) + [CommandFor(events[n])];
      HandleAllSnoc(v.log, CommandsFor(events[..n]), CommandFor(events[n]));
      LogGrowsByHandle(mid.log, CommandFor(events[n]));
      var k := ConnectStep(mid, events[n], w);
      lost := GapsExtend(v.log, mid.log, w.log, former, k);
      forall c | c in v.streams && Bystander(c, events)
        ensures w.streams[c] == v.streams[c] + Kept(w.log[|v.log|..], lost)
      {
        BystanderBefore(c, events, n);
        assert mid.streams[c] + w.log[|mid.log|..k] ==
               v.streams[c] + (Kept(mid.log[|v.log|..], former) + w.log[|mid.log|..k]);
      }
    }
  }

  lemma {:induction false} KeptNone(xs: Log)
    requires xs == []
    ensures Kept(xs, {}) == []
  {
  }

  lemma {:induction false} ConnectStep(v: View, ev: ServerEvent, w: View) returns (k: nat)
    requires MayConnect(v, ev, w)
    ensures w.log == Handle(v.log, CommandFor(ev)) && |v.log| <= k <= |w.log| && w.streams.Keys == v.streams.Keys
    ensures forall c :: c in v.streams && (ev.ClientConnected? ==> c != ev.client) ==>
              w.streams[c] == v.streams[c] + w.log[|v.log|..k]
    ensures ev.ClientConnected? && ev.client in v.streams ==>
              exists j :: 0 <= j <= |v.log| &&
                w.streams[ev.client] == v.streams[ev.client] + v.log[..j] + w.log[|v.log|..k]
  {
    hide Handle, MayCatchUp;
    var ready :|
      && (if ev.ClientConnected? then MayCatchUp(v, ev.client, ready) else ready == v)
      && MayHandle(ready, CommandFor(ev), w);
    if ev.ClientConnected? {
      CatchUpStep(v, ev.client, ready);
    }
    k :| |ready.log| <= k <= |w.log| && w.streams == Sent(ready.streams, w.log[|ready.log|..k]);
  }

  lemma {:induction false} CatchUpStep(v: View, c: ClientId, w: View)
    requires MayCatchUp(v, c, w)
    ensures w.log == v.log && w.streams.Keys == v.streams.Keys
    ensures forall d :: d in v.streams && d != c ==> w.streams[d] == v.streams[d]
    ensures c in v.streams ==> exists j :: 0 <= j <= |v.log| && w.streams[c] == v.streams[c] + v.log[..j]
  {
  }

  // ── What is published is what is handled ──

  /** Message by message: the envelope that is published has the message's id, this game and
      the command that is handled, in the order of the messages. */
  lemma {:induction false} EnvelopesInOrder(gameId: GameId, ids: seq<CommandId>, messages: seq<Option<GameCommand>>)
    requires |ids| == |messages|
    ensures
      var published := Decoded(Enveloped(gameId, ids, messages));
      && |published| == |Decoded(messages)|
      && forall i :: 0 <= i < |messages| && messages[i].Some? ==>
           var k := |Decoded(messages[..i])|;
           k < |published| && published[k] == CommandEnvelope(ids[i], gameId, messages[i].value)
    decreases |messages|
  {
    if messages != [] {
      var n := |messages| - 1;
      EnvelopesInOrder(gameId, ids[..n], messages[..n]);
      assert Enveloped(gameId, ids, messages)[..n] == Enveloped(gameId, ids[..n], messages[..n]);
      forall i | 0 <= i < n ensures messages[..n][..i] == messages[..i] {
      }
    }
  }

  lemma {:induction false} OursAppend(gameId: GameId, first: seq<CommandEnvelope>, second: seq<CommandEnvelope>)
    ensures Ours(gameId, first + second) == Ours(gameId, first) + Ours(gameId, second)
    decreases |second|
  {
    if second == [] {
      assert first + second == first;
    } else {
      var n := |second| - 1;
      OursAppend(gameId, first, second[..n]);
      assert (first + second)[..|first| + n] == first + second[..n];
    }
  }

  lemma {:induction false} OursOfWrapped(gameId: GameId, ids: seq<CommandId>, cmds: seq<GameCommand>)
    requires |ids| == |cmds|
    ensures Ours(gameId, Wrap(gameId, ids, cmds)) == cmds
    decreases |cmds|
  {
    if cmds != [] {
      var n := |cmds| - 1;
      OursOfWrapped(gameId, ids[..n], cmds[..n]);
      assert Wrap(gameId, ids, cmds)[..n] == Wrap(gameId, ids[..n], cmds[..n]);
    }
  }

  lemma {:induction false} OursOne(gameId: GameId, env: CommandEnvelope)
    ensures Ours(gameId, [env]) == if env.gameId == gameId then [env.command] else []
  {
    assert Ours(gameId, [env][..0]) == [];
  }

  lemma {:induction false} OursOfEnveloped(gameId: GameId, ids: seq<CommandId>, messages: seq<Option<GameCommand>>)
    requires |ids| == |messages|
    ensures Ours(gameId, Decoded(Enveloped(gameId, ids, messages))) == Decoded(messages)
    decreases |messages|
  {
    if messages != [] {
      hide Ours, Decoded;
      var n := |messages| - 1;
      var init, last := Enveloped(gameId, ids[..n], messages[..n]), Enveloped(gameId, ids, messages)[n];
      OursOfEnveloped(gameId, ids[..n], messages[..n]);
      assert Enveloped(gameId, ids, messages) == init + [last];
      assert messages == messages[..n] + [messages[n]];
      DecodedSnoc(init, last);
      DecodedSnoc(messages[..n], messages[n]);
      if last.Some? {
        OursAppend(gameId, Decoded(init), [last.value]);
        OursOne(gameId, last.value);
      }
    }
  }

  /** A turn of the loop publishes, for this game, exactly the commands that it handles from
      its connections and its clients; another game takes none of them. */
  lemma {:induction false} PublishedIsHandled(gameId: GameId, events: seq<ServerEvent>, eventIds: seq<CommandId>,
                           messages: seq<Option<GameCommand>>, messageIds: seq<CommandId>)
    requires |eventIds| == |events| && |messageIds| == |messages|
    ensures
      var published := Wrap(gameId, eventIds, CommandsFor(events)) + Decoded(Enveloped(gameId, messageIds, messages));
      && Ours(gameId, published) == CommandsFor(events) + Decoded(messages)
      && (forall env :: env in published ==> env.gameId == gameId)
      && forall other :: other != gameId ==> Ours(other, published) == []
  {
    var first, second := Wrap(gameId, eventIds, CommandsFor(events)), Decoded(Enveloped(gameId, messageIds, messages));
    OursOfWrapped(gameId, eventIds, CommandsFor(events));
    OursOfEnveloped(gameId, messageIds, messages);
    OursAppend(gameId, first, second);
    forall env: CommandEnvelope | env in first + second ensures env.gameId == gameId {
      DecodedIsIn(Enveloped(gameId, messageIds, messages), env);
    }
    forall other | other != gameId ensures Ours(other, first + second) == [] {
      ForeignToOthers(gameId, other, first + second);
    }
  }

  lemma {:induction false} DecodedIsIn<T>(raw: seq<Option<T>>, x: T)
    ensures x in Decoded(raw) <==> Some(x) in raw
    decreases |raw|
  {
    if raw != [] {
      var n := |raw| - 1;
      DecodedIsIn(raw[..n], x);
      assert raw == raw[..n] + [raw[n]];
    }
  }

  lemma {:induction false} ForeignToOthers(gameId: GameId, other: GameId, queue: seq<CommandEnvelope>)
    requires other != gameId && forall env :: env in queue ==> env.gameId == gameId
    ensures Ours(other, queue) == []
    decreases |queue|
  {
    if queue != [] {
      ForeignToOthers(gameId, other, queue[..|queue| - 1]);
    }
  }
}
