/** Runs of the delivery protocol that show what is possible in it: undisturbed, timed-out
    and foreign deliveries, redelivery, and a message that is passed over. */
module DeliveryRuns {
  import opened Types
  import opened Decider
  import opened Ports
  import opened Service
  import opened GameLoop
  import opened Delivery
  import opened DeliverySteps
  import opened DeliveryInvariant
  import opened DeliveryFacts

  lemma {:induction false} ChainAppend(before: seq<System>, first: seq<Action>, after: seq<System>, second: seq<Action>)
    requires IsChain(before, first) && IsChain(after, second) && before[|first|] == after[0]
    ensures IsChain(before + after[1..], first + second)
    ensures (before + after[1..])[0] == before[0]
    ensures (before + after[1..])[|first + second|] == after[|second|]
  {
    hide Enabled, Next;
    var states, actions := before + after[1..], first + second;
    forall i | 0 <= i < |actions|
      ensures Enabled(states[i], actions[i]) && states[i + 1] == Next(states[i], actions[i])
    {
      if i >= |first| {
        var j := i - |first|;
        assert Enabled(after[j], second[j]) && after[j + 1] == Next(after[j], second[j]);
      }
    }
  }

  /** An idle consumer's next message goes to the end of the channel, if there is room. */
  lemma {:induction false} Offered(s: System, g: nat, env: CommandEnvelope)
    requires g < |s.groups| && s.groups[g].consumer.Idle? && |s.channel| < 256
    requires s.groups[g].position < |s.topic| && s.topic[s.groups[g].position] == Readable(env)
    ensures Enabled(s, Fetch(g)) && Enabled(Next(s, Fetch(g)), Send(g))
    ensures
      var group := s.groups[g];
      var t := Ticket(s.nextId, g, group.position, env);
      Next(Next(s, Fetch(g)), Send(g)) == s.(
        groups := s.groups[g := group.(position := group.position + 1, consumer := Waiting(t, Pending))],
        channel := s.channel + [t],
        nextId := s.nextId + 1)
  {
  }

  /** The answered consumer goes on, with a commit under way if it was acknowledged. */
  lemma {:induction false} Answered(s: System, g: nat, t: Ticket)
    requires g < |s.groups| && s.groups[g].consumer.Waiting? && s.groups[g].consumer.ticket == t
    requires s.groups[g].consumer.signal != Pending
    ensures Enabled(s, Resume(g))
    ensures
      var group := s.groups[g];
      Next(s, Resume(g)) ==
      if group.consumer.signal == Acked then
        s.(groups := s.groups[g := group.(consumer := Idle, inFlight := group.inFlight + [t.offset + 1])],
           commits := s.commits + [t])
      else s.(groups := s.groups[g := group.(consumer := Idle)])
  {
  }

  function Cycle(g: nat, fails: bool): seq<Action> {
    [Fetch(g), Send(g), Drain(fails), Resume(g)]
  }

  /** An undisturbed delivery to any group of any system with an empty channel: the message
      is handled once, and its commit is under way exactly if it is for the wrong game or is
      accepted and broadcast; nothing else changes. */
  lemma {:induction false} UndisturbedDelivery(s: System, g: nat, env: CommandEnvelope, fails: bool) returns (states: seq<System>)
    requires g < |s.groups| && s.groups[g].consumer.Idle? && s.channel == []
    requires s.groups[g].position < |s.topic| && s.topic[s.groups[g].position] == Readable(env)
    ensures IsChain(states, Cycle(g, fails)) && states[0] == s
    ensures
      var group := s.groups[g];
      var ours := env.gameId == s.gameId;
      var accepted := ours && Accepted(s.log, env.command);
      var acked := !ours || (accepted && !fails);
      var r := ResultOf(s.gameId, s.log, env, fails);
      var t := Ticket(s.nextId, g, group.position, env);
      states[4] == s.(
        log := if accepted then s.log + Decide(Hydrate(s.log), env.command).value else s.log,
        calls := if ours then s.calls + [env.command] else s.calls,
        groups := s.groups[g := group.(
          position := group.position + 1,
          inFlight := if acked then group.inFlight + [group.position + 1] else group.inFlight)],
        nextId := s.nextId + 1,
        handled := s.handled + [Handling(t, r, true)],
        commits := if acked then s.commits + [t] else s.commits)
  {
    hide ResultOf, Next, Enabled, Accepted;
    Offered(s, g, env);
    var fetched := Next(s, Fetch(g));
    var sent := Next(fetched, Send(g));
    var t := Ticket(s.nextId, g, s.groups[g].position, env);
    assert s.channel + [t] == [t];
    DrainStep(sent, fails);
    DrainRecords(sent, fails);
    var drained := Next(sent, Drain(fails));
    assert drained.groups == sent.groups[g := drained.groups[g]];
    Answered(drained, g, t);
    states := [s, fetched, sent, drained, Next(drained, Resume(g))];
  }

  lemma {:induction false} DrainRecords(s: System, fails: bool)
    requires s.channel != []
    ensures Enabled(s, Drain(fails))
    ensures Next(s, Drain(fails)).handled ==
            s.handled + [Handling(s.channel[0], ResultOf(s.gameId, s.log, s.channel[0].env, fails), Awaited(s, s.channel[0]))]
  {
  }

  /** A delivery whose consumer gives up first: the command is handled all the same when its
      turn comes, but late, so that nothing is committed. */
  lemma {:induction false} TimedOutDelivery(s: System, g: nat, env: CommandEnvelope, fails: bool) returns (states: seq<System>)
    requires g < |s.groups| && s.groups[g].consumer.Idle? && s.channel == []
    requires s.groups[g].position < |s.topic| && s.topic[s.groups[g].position] == Readable(env)
    ensures IsChain(states, [Fetch(g), Send(g), Timeout(g), Drain(fails)]) && states[0] == s
    ensures
      var group := s.groups[g];
      var ours := env.gameId == s.gameId;
      var t := Ticket(s.nextId, g, group.position, env);
      states[4] == s.(
        log := if ours && Accepted(s.log, env.command) then s.log + Decide(Hydrate(s.log), env.command).value else s.log,
        calls := if ours then s.calls + [env.command] else s.calls,
        groups := s.groups[g := group.(position := group.position + 1)],
        nextId := s.nextId + 1,
        handled := s.handled + [Handling(t, ResultOf(s.gameId, s.log, env, fails), false)])
  {
    hide ResultOf, Next, Enabled, Accepted;
    Offered(s, g, env);
    var fetched := Next(s, Fetch(g));
    var sent := Next(fetched, Send(g));
    var t := Ticket(s.nextId, g, s.groups[g].position, env);
    assert s.channel + [t] == [t];
    TimeoutStep(sent, g);
    var given := Next(sent, Timeout(g));
    DrainStep(given, fails);
    DrainRecords(given, fails);
    states := [s, fetched, sent, given, Next(given, Drain(fails))];
    assert states[4].groups == given.groups == s.groups[g := s.groups[g].(position := s.groups[g].position + 1)];
  }

  /** Messages left over from an earlier game are acknowledged and have no effect. */
  lemma {:induction false} LeftoverIsAcknowledged(s: System, newGameId: GameId, g: nat, env: CommandEnvelope, fails: bool)
    returns (states: seq<System>)
    requires g < |s.groups| && s.groups[g].committed < |s.topic| && s.topic[s.groups[g].committed] == Readable(env)
    requires env.gameId != newGameId
    ensures IsChain(states, [Restart(newGameId)] + Cycle(g, fails)) && states[0] == s
    ensures
      var n := states[5];
      && n.gameId == newGameId && n.log == [] && n.calls == [] && |n.groups| == |s.groups|
      && n.groups[g] == Group(s.groups[g].committed + 1, s.groups[g].committed, Idle, [s.groups[g].committed + 1])
  {
    hide ResultOf, Next, Enabled, Accepted;
    RestartStep(s, newGameId);
    var restarted := Next(s, Restart(newGameId));
    var cycle := UndisturbedDelivery(restarted, g, env, fails);
    ChainAppend([s, restarted], [Restart(newGameId)], cycle, Cycle(g, fails));
    states := [s, restarted] + cycle[1..];
    assert [] + [s.groups[g].committed + 1] == [s.groups[g].committed + 1];
  }

  // ── When a message can be delivered again ──

  /** A group that is not past an offset can get there, one undisturbed delivery at a time. */
  lemma {:induction false} ReachFetch(s: System, g: nat, o: nat) returns (states: seq<System>, actions: seq<Action>)
    requires g < |s.groups| && s.groups[g].consumer.Idle? && s.channel == []
    requires s.groups[g].position <= o < |s.topic|
    ensures IsChain(states, actions) && states[0] == s
    ensures actions != [] && FetchesAt(states, actions, g, o, |actions| - 1)
    decreases o - s.groups[g].position
  {
    hide HandleEnvelope, ResultOf, Acknowledges;
    var position := s.groups[g].position;
    if position == o {
      states, actions := [s, Next(s, Fetch(g))], [Fetch(g)];
    } else {
      var first, cycle := [s, Next(s, Fetch(g))], [Fetch(g)];
      if s.topic[position].Readable? {
        cycle := Cycle(g, false);
        first := UndisturbedDelivery(s, g, s.topic[position].env, false);
      }
      hide Next, Enabled;
      var rest, later := ReachFetch(first[|cycle|], g, o);
      ChainAppend(first, cycle, rest, later);
      states, actions := first + rest[1..], cycle + later;
    }
  }

  ghost predicate Continues(states: seq<System>, actions: seq<Action>, more: seq<System>, further: seq<Action>) {
    IsRun(more, further) && states <= more && actions <= further
  }

  /** A restart takes a group back to its committed offset, and it can go on from there. */
  lemma {:induction false} RestartReaches(states: seq<System>, actions: seq<Action>, g: nat, o: nat)
    returns (more: seq<System>, further: seq<Action>, k: nat)
    requires IsRun(states, actions) && g < |states[|actions|].groups|
    requires states[|actions|].groups[g].committed <= o < |states[|actions|].topic|
    ensures Continues(states, actions, more, further) && |actions| <= k && FetchesAt(more, further, g, o, k)
  {
    var s := states[|actions|];
    var restart := Restart(s.gameId);
    var reset := Next(s, restart);
    var rest, later := ReachFetch(reset, g, o);
    hide Next, Enabled, FetchesAt;
    var tail := [s, reset] + rest[1..];
    ChainAppend([s, reset], [restart], rest, later);
    ChainAppend(states, actions, tail, [restart] + later);
    more, further := states + tail[1..], actions + ([restart] + later);
    k := |further| - 1;
    FetchMoves(rest, later, more, further, g, o, |later| - 1, k);
  }

  lemma {:induction false} FetchMoves(states: seq<System>, actions: seq<Action>, more: seq<System>, further: seq<Action>,
                   g: nat, o: nat, j: nat, k: nat)
    requires FetchesAt(states, actions, g, o, j)
    requires k < |further| && k < |more| && further[k] == actions[j] && more[k] == states[j]
    ensures FetchesAt(more, further, g, o, k)
  {
  }

  /** After any run, a message that a group has fetched can be delivered to it again, in
      some continuation, if and only if the group's committed offset has not passed it. The
      acknowledgement of the message itself does not matter. */
  lemma {:induction false} RedeliverableIff(states: seq<System>, actions: seq<Action>, g: nat, o: nat)
    requires IsRun(states, actions) && g < |states[|actions|].groups|
    requires o < states[|actions|].groups[g].position
    ensures
      (exists more, further, k :: Continues(states, actions, more, further) && |actions| <= k &&
         FetchesAt(more, further, g, o, k))
      <==> states[|actions|].groups[g].committed <= o
  {
    hide Next, Enabled;
    var s := states[|actions|];
    RunInv(states, actions, |actions|);
    assert OffsetsOk(s.topic, g, s.groups[g]);
    if s.groups[g].committed <= o {
      var more, further, k := RestartReaches(states, actions, g, o);
    }
    if more, further, k :| Continues(states, actions, more, further) && |actions| <= k && FetchesAt(more, further, g, o, k) {
      assert more[|actions|] == s;
      CommittedIsNeverRefetched(more, further, |actions|, k, g);
    }
  }

  lemma {:induction false} TwoMessages(gameId: GameId, n: nat, first: CommandEnvelope, second: CommandEnvelope)
    returns (states: seq<System>, actions: seq<Action>)
    ensures IsChain(states, actions) && states[0] == Init(gameId, n)
    ensures states[|actions|] == Init(gameId, n).(topic := [Readable(first), Readable(second)])
  {
    actions := [Inject(Readable(first)), Inject(Readable(second))];
    var s0 := Init(gameId, n);
    var s1 := Next(s0, actions[0]);
    var s2 := Next(s1, actions[1]);
    states := [s0, s1, s2];
    assert [] + [Readable(first)] == [Readable(first)];
    assert [Readable(first)] + [Readable(second)] == [Readable(first), Readable(second)];
  }

  lemma {:induction false} CommitStored(s: System, g: nat) returns (states: seq<System>)
    requires g < |s.groups| && s.groups[g].inFlight != []
    ensures IsChain(states, [CommitEnds(g, true)]) && states[0] == s
    ensures states[1] == s.(groups := s.groups[g := s.groups[g].(
                              committed := s.groups[g].inFlight[0], inFlight := s.groups[g].inFlight[1..])])
  {
    states := [s, Next(s, CommitEnds(g, true))];
  }

  /** "Unacknowledged means redelivered" is too strong. For any number of groups and any of
      them there is a run in which its message at offset 0 is refused, so that its
      acknowledgement is dropped, and the commit of the successor passes over it. By
      RedeliverableIff no continuation of the run delivers it to the group again. */
  lemma {:induction false} UnackedMayBePassedOver(gameId: GameId, n: nat, g: nat) returns (states: seq<System>, actions: seq<Action>)
    requires g < n
    ensures IsRun(states, actions)
    ensures var s := states[|actions|];
            && |s.groups| == n && s.groups[g].committed == 2
            && |s.handled| == 2
            && s.handled[0].ticket.group == g && s.handled[0].ticket.offset == 0 && s.handled[0].result.Refused?
            && s.handled[1].ticket.group == g && s.handled[1].ticket.offset == 1 && s.handled[1].result.Done?
            && s.handled[0].ticket !in s.commits
  {
    hide Next, Enabled;
    var place, leave := CommandEnvelope(0, gameId, PlaceTile(1, 0)), CommandEnvelope(1, gameId, LeaveGame(1));
    states, actions := TwoMessages(gameId, n, place, leave);
    var s2 := states[|actions|];
    var first := UndisturbedDelivery(s2, g, place, false);
    ChainAppend(states, actions, first, Cycle(g, false));
    states, actions := states + first[1..], actions + Cycle(g, false);
    var second := UndisturbedDelivery(first[4], g, leave, false);
    ChainAppend(states, actions, second, Cycle(g, false));
    states, actions := states + second[1..], actions + Cycle(g, false);
    var end := CommitStored(second[4], g);
    ChainAppend(states, actions, end, [CommitEnds(g, true)]);
    states, actions := states + end[1..], actions + [CommitEnds(g, true)];
  }
}
