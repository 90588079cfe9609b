/** Single steps of the delivery protocol, told from the decider: what each does to the log,
    the topic, the channel and the groups. */
module DeliverySteps {
  import opened Types
  import opened Decider
  import opened Ports
  import opened Service
  import opened GameLoop
  import opened Delivery

  /** The game loop takes the oldest ticket, whether or not its consumer still waits for it:
      a command for this game is appended if it is accepted; an answer reaches the consumer
      only if it waits for this very ticket, and is an acknowledgement exactly for the wrong
      game and for an accepted command that was broadcast. */
  lemma {:induction false} DrainStep(s: System, fails: bool)
    requires s.channel != []
    ensures Enabled(s, Drain(fails))
    ensures
      var n := Next(s, Drain(fails));
      var t := s.channel[0];
      var ours := t.env.gameId == s.gameId;
      var accepted := ours && Accepted(s.log, t.env.command);
      && n.log == (if accepted then s.log + Decide(Hydrate(s.log), t.env.command).value else s.log)
      && n.calls == (if ours then s.calls + [t.env.command] else s.calls)
      && n.channel == s.channel[1..] && n.topic == s.topic && n.gameId == s.gameId
      && n.nextId == s.nextId && n.commits == s.commits && |n.groups| == |s.groups|
      && (forall g :: 0 <= g < |s.groups| ==>
            var group := s.groups[g];
            n.groups[g] ==
            if g == t.group && group.consumer.Waiting? && group.consumer.ticket == t then
              group.(consumer := Waiting(t, if !ours || (accepted && !fails) then Acked else Dropped))
            else group)
    ensures
      var n := Next(s, Drain(fails));
      var t := s.channel[0];
      exists r :: Returns(s.gameId, s.log, t.env, r) && (r.BroadcastFailed? ==> fails) && (r.Done? ==> !fails) &&
        n.handled == s.handled + [Handling(t, r, Awaited(s, t))]
  {
    var t := s.channel[0];
    var r := ResultOf(s.gameId, s.log, t.env, fails);
    AcknowledgesIff(s.gameId, s.log, t.env, r);
    assert Next(s, Drain(fails)).handled == s.handled + [Handling(t, r, Awaited(s, t))];
  }

  /** A client's command is handled at once, and its copy goes to the end of the topic unless
      the broker loses it; the consumers notice nothing yet. */
  lemma {:induction false} ClientCommandStep(s: System, id: CommandId, cmd: GameCommand, published: bool)
    ensures Enabled(s, ClientCommand(id, cmd, published))
    ensures
      var n := Next(s, ClientCommand(id, cmd, published));
      && n.log == (if Accepted(s.log, cmd) then s.log + Decide(Hydrate(s.log), cmd).value else s.log)
      && n.calls == s.calls + [cmd]
      && n.topic == s.topic + (if published then [Readable(CommandEnvelope(id, s.gameId, cmd))] else [])
      && n == s.(log := n.log, calls := n.calls, topic := n.topic)
  {
    assert s.topic + [] == s.topic;
  }

  /** A timeout gives up the wait and nothing else: the ticket stays where it is, and the
      next message can be fetched, but this one is not committed. */
  lemma {:induction false} TimeoutStep(s: System, g: nat)
    requires g < |s.groups| && s.groups[g].consumer.Waiting? && s.groups[g].consumer.signal == Pending
    ensures Enabled(s, Timeout(g))
    ensures
      var n := Next(s, Timeout(g));
      && n == s.(groups := n.groups) && |n.groups| == |s.groups|
      && n.groups[g] == s.groups[g].(consumer := Idle)
      && forall h :: 0 <= h < |s.groups| && h != g ==> n.groups[h] == s.groups[h]
  {
  }

  /** A rebalance takes one group back to its committed offset; its commits on the way are lost. */
  lemma {:induction false} RebalanceStep(s: System, g: nat)
    requires g < |s.groups| && s.groups[g].consumer.Idle?
    ensures Enabled(s, Rebalance(g))
    ensures
      var n := Next(s, Rebalance(g));
      && n == s.(groups := n.groups) && |n.groups| == |s.groups|
      && n.groups[g] == Group(s.groups[g].committed, s.groups[g].committed, Idle, [])
      && forall h :: 0 <= h < |s.groups| && h != g ==> n.groups[h] == s.groups[h]
  {
  }

  /** A restart begins another game on an empty store. The broker keeps the topic and the
      committed offsets, and everything else is lost. */
  lemma {:induction false} RestartStep(s: System, newGameId: GameId)
    ensures Enabled(s, Restart(newGameId))
    ensures
      var n := Next(s, Restart(newGameId));
      && n.gameId == newGameId && n.log == [] && n.calls == [] && n.channel == [] && n.topic == s.topic
      && n.nextId == s.nextId && n.handled == s.handled && n.commits == s.commits && |n.groups| == |s.groups|
      && forall g :: 0 <= g < |s.groups| ==>
           n.groups[g] == Group(s.groups[g].committed, s.groups[g].committed, Idle, [])
  {
  }

  /** An asynchronous commit is stored, or lost with the offset as it was. */
  lemma {:induction false} CommitEndsStep(s: System, g: nat, stored: bool)
    requires g < |s.groups| && s.groups[g].inFlight != []
    ensures Enabled(s, CommitEnds(g, stored))
    ensures
      var n := Next(s, CommitEnds(g, stored));
      && n == s.(groups := n.groups) && |n.groups| == |s.groups|
      && n.groups[g] == s.groups[g].(
                          committed := if stored then s.groups[g].inFlight[0] else s.groups[g].committed,
                          inFlight := s.groups[g].inFlight[1..])
      && forall h :: 0 <= h < |s.groups| && h != g ==> n.groups[h] == s.groups[h]
  {
  }
}
