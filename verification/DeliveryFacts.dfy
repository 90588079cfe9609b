/** What holds of every run of the delivery protocol. */
module DeliveryFacts {
  import opened Types
  import opened Decider
  import opened Ports
  import opened Service
  import opened GameLoop
  import opened History
  import opened Redelivery
  import opened Delivery
  import opened DeliverySteps
  import opened DeliveryInvariant

  lemma {:induction false} InitInv(gameId: GameId, n: nat)
    ensures Inv(Init(gameId, n))
  {
  }

  lemma {:induction false} RunInv(states: seq<System>, actions: seq<Action>, i: nat)
    requires IsRun(states, actions) && i < |states|
    ensures Inv(states[i])
  {
    if i == 0 {
      var gameId, n :| states[0] == Init(gameId, n);
      InitInv(gameId, n);
    } else {
      RunInv(states, actions, i - 1);
      NextKeepsInv(states[i - 1], actions[i - 1]);
    }
  }

  // ── What is handled, and when ──

  /** Step `k` passes the command of a ticket to `handle`: an accepted command for this game
      is appended to the log, and any other leaves it as it is. */
  ghost predicate HandledAt(states: seq<System>, actions: seq<Action>, k: nat, t: Ticket) {
    && k < |actions| && |states| == |actions| + 1
    && actions[k].Drain? && states[k].channel != [] && states[k].channel[0] == t
    && states[k + 1].log ==
       if t.env.gameId == states[k].gameId && Accepted(states[k].log, t.env.command) then
         states[k].log + Decide(Hydrate(states[k].log), t.env.command).value
       else states[k].log
  }

  /** The record of handled tickets is a record of such steps, with their results. */
  lemma {:induction false} HandledMeans(states: seq<System>, actions: seq<Action>, i: nat, h: Handling) returns (k: nat)
    requires IsRun(states, actions) && i < |states| && h in states[i].handled
    ensures k < i && HandledAt(states, actions, k, h.ticket)
    ensures Returns(states[k].gameId, states[k].log, h.ticket.env, h.result)
    decreases i
  {
    hide Next, Enabled, Accepted, Awaited;
    if i == 0 {
      InitHandledNothing(states, actions);
      assert false;
    }
    k := i - 1;
    if h in states[k].handled {
      k := HandledMeans(states, actions, k, h);
    } else {
      OnlyDrainsHandle(states[k], actions[k]);
      DrainStep(states[k], actions[k].broadcastFails);
      assert h == states[i].handled[|states[k].handled|];
    }
  }

  lemma {:induction false} InitHandledNothing(states: seq<System>, actions: seq<Action>)
    requires IsRun(states, actions)
    ensures states[0].handled == [] && states[0].calls == [] && states[0].channel == []
  {
  }

  lemma {:induction false} OnlyDrainsHandle(s: System, a: Action)
    requires Enabled(s, a)
    ensures Next(s, a).handled != s.handled ==> a.Drain? && s.channel != []
  {
  }

  /** At least once: in every run, whatever is interleaved, timed out, lost or restarted,
      every decodable message below a group's committed offset has been passed to `handle`
      for that group, at some step of the run. */
  lemma {:induction false} AtLeastOnce(states: seq<System>, actions: seq<Action>, i: nat, g: nat, offset: nat)
    requires IsRun(states, actions) && i < |states| && g < |states[i].groups|
    requires offset < states[i].groups[g].committed
    ensures
      var s := states[i];
      && offset < |s.topic|
      && (s.topic[offset].Readable? ==>
            exists h :: h in s.handled && h.ticket.group == g && h.ticket.offset == offset &&
              h.ticket.env == s.topic[offset].env)
      && (s.topic[offset].Readable? ==>
            exists k, t :: 0 <= k < i && HandledAt(states, actions, k, t) && t.group == g && t.offset == offset &&
              t.env == s.topic[offset].env)
  {
    RunInv(states, actions, i);
    var s := states[i];
    assert OffsetsOk(s.topic, g, s.groups[g]) && CoverageOk(s, g);
    if s.topic[offset].Readable? {
      assert WasHandled(s.handled, g, offset);
      var h :| h in s.handled && h.ticket.group == g && h.ticket.offset == offset;
      assert s.topic[h.ticket.offset] == Readable(h.ticket.env);
      hide HandledAt;
      var k := HandledMeans(states, actions, i, h);
      assert HandledAt(states, actions, k, h.ticket);
    }
  }

  /** Commit safety: a group's committed offset is zero or one past a message whose own
      handling ended in success or the wrong game, acknowledged while the consumer waited. */
  lemma {:induction false} CommitSafety(states: seq<System>, actions: seq<Action>, i: nat, g: nat)
    requires IsRun(states, actions) && i < |states| && g < |states[i].groups|
    ensures
      var s := states[i];
      var committed := s.groups[g].committed;
      committed == 0 ||
      exists h :: h in s.handled && h.ticket.group == g && h.ticket.offset + 1 == committed &&
        (h.result.Done? || h.result.WrongGame?) && h.inTime && h.ticket in s.commits
  {
    RunInv(states, actions, i);
    var s := states[i];
    assert GroupCommitsOk(s, g);
    if s.groups[g].committed != 0 {
      var t :| t in s.commits && t.group == g && t.offset + 1 == s.groups[g].committed;
      var h :| h in s.handled && h.ticket == t && Acknowledges(h.result) && h.inTime;
    }
  }

  /** No acknowledgement is used twice, none that came late or was dropped is ever used,
      and no ticket is handled twice. */
  lemma {:induction false} AcksAreOneShot(states: seq<System>, actions: seq<Action>, i: nat)
    requires IsRun(states, actions) && i < |states|
    ensures var s := states[i];
            && (forall j, k :: 0 <= j < k < |s.commits| ==> s.commits[j].id != s.commits[k].id)
            && (forall j, k :: 0 <= j < k < |s.handled| ==> s.handled[j].ticket.id != s.handled[k].ticket.id)
            && (forall h :: h in s.handled && (!h.inTime || !Acknowledges(h.result)) ==> h.ticket !in s.commits)
  {
    RunInv(states, actions, i);
    var s := states[i];
    forall j, k | 0 <= j < k < |s.commits|
      ensures s.commits[j].id != s.commits[k].id
    {
      assert Justified(s.handled, s.commits[j]) && Justified(s.handled, s.commits[k]);
      var h :| h in s.handled && h.ticket == s.commits[j] && Acknowledges(h.result) && h.inTime;
      var h' :| h' in s.handled && h'.ticket == s.commits[k] && Acknowledges(h'.result) && h'.inTime;
    }
    forall h | h in s.handled && h.ticket in s.commits
      ensures h.inTime && Acknowledges(h.result)
    {
      var h' :| h' in s.handled && h'.ticket == h.ticket && Acknowledges(h'.result) && h'.inTime;
    }
  }

  lemma {:induction false} RunHistoryGrows(states: seq<System>, actions: seq<Action>, i: nat, j: nat)
    requires IsRun(states, actions) && i <= j < |states|
    ensures states[i].handled <= states[j].handled && states[i].commits <= states[j].commits
    decreases j
  {
    if i < j {
      hide Next, Enabled;
      RunHistoryGrows(states, actions, i, j - 1);
      HistoryGrows(states[j - 1], actions[j - 1]);
    }
  }

  /** An acknowledgement that comes when nobody waits for it, or that the game loop drops,
      never becomes a commit, at any point of the run. */
  lemma {:induction false} LateOrDroppedNeverCommits(states: seq<System>, actions: seq<Action>, i: nat, j: nat)
    requires IsRun(states, actions) && i < |actions| && j < |states| && actions[i].Drain?
    requires states[i].channel != []
    requires
      var s := states[i];
      var r := ResultOf(s.gameId, s.log, s.channel[0].env, actions[i].broadcastFails);
      !Awaited(s, s.channel[0]) || r.Refused? || r.BroadcastFailed?
    ensures states[i].channel[0] !in states[j].commits
  {
    var t := states[i].channel[0];
    var next := states[i + 1];
    var h := next.handled[|states[i].handled|];
    assert h.ticket == t && (!h.inTime || !Acknowledges(h.result));
    assert h in next.handled;
    hide Next, Enabled, ResultOf, Acknowledges, Awaited;
    var last := if j <= i + 1 then i + 1 else j;
    RunHistoryGrows(states, actions, i + 1, last);
    RunHistoryGrows(states, actions, j, last);
    assert h in states[last].handled;
    AcksAreOneShot(states, actions, last);
    assert forall u :: u in states[j].commits ==> u in states[last].commits;
  }

  lemma {:induction false} CommittedStep(s: System, a: Action, g: nat)
    requires Inv(s) && Enabled(s, a) && g < |s.groups|
    ensures |Next(s, a).groups| == |s.groups|
    ensures s.groups[g].committed <= Next(s, a).groups[g].committed
  {
    hide Handle, HandleEnvelope, ResultOf;
    assert OffsetsOk(s.topic, g, s.groups[g]);
  }

  /** Commits are cumulative and never go back, not even over a rebalance or a restart. */
  lemma {:induction false} CommittedNeverDecreases(states: seq<System>, actions: seq<Action>, i: nat, j: nat, g: nat)
    requires IsRun(states, actions) && i <= j < |states| && g < |states[i].groups|
    ensures |states[j].groups| == |states[i].groups|
    ensures states[i].groups[g].committed <= states[j].groups[g].committed
    decreases j
  {
    if i < j {
      CommittedNeverDecreases(states, actions, i, j - 1, g);
      RunInv(states, actions, j - 1);
      CommittedStep(states[j - 1], actions[j - 1], g);
    }
  }

  /** Hence a message below a committed offset is never fetched by that group again,
      whether or not its own handling was acknowledged. */
  lemma {:induction false} CommittedIsNeverRefetched(states: seq<System>, actions: seq<Action>, i: nat, j: nat, g: nat)
    requires IsRun(states, actions) && i <= j < |actions| && g < |states[i].groups|
    requires actions[j] == Fetch(g)
    ensures states[i].groups[g].committed <= states[j].groups[g].position
  {
    CommittedNeverDecreases(states, actions, i, j, g);
    RunInv(states, actions, j);
    assert OffsetsOk(states[j].topic, g, states[j].groups[g]);
  }

  // ── When a message is fetched again ──

  predicate Resets(a: Action, g: nat) {
    a == Rebalance(g) || a.Restart?
  }

  /** A position moves by one with a fetch, falls back to the committed offset when the
      group is reset, and stays otherwise. */
  lemma {:induction false} PositionStep(s: System, a: Action, g: nat)
    requires Inv(s) && Enabled(s, a) && g < |s.groups|
    ensures |Next(s, a).groups| == |s.groups|
    ensures s.groups[g].committed <= s.groups[g].position
    ensures Next(s, a).groups[g].position ==
            if a == Fetch(g) then s.groups[g].position + 1
            else if Resets(a, g) then s.groups[g].committed
            else s.groups[g].position
  {
    hide Handle, HandleEnvelope, ResultOf, Acknowledges;
    assert OffsetsOk(s.topic, g, s.groups[g]);
  }

  lemma {:induction false} GroupsStay(states: seq<System>, actions: seq<Action>, i: nat, j: nat)
    requires IsRun(states, actions) && i <= j < |states|
    ensures |states[j].groups| == |states[i].groups|
    decreases j
  {
    if i < j {
      hide Next, Enabled;
      GroupsStay(states, actions, i, j - 1);
      HistoryGrows(states[j - 1], actions[j - 1]);
    }
  }

  /** Group `g` is reset at step `k` with offset `o` not committed. */
  predicate ResetBelow(states: seq<System>, actions: seq<Action>, g: nat, o: nat, k: nat) {
    && k < |actions| && k < |states| && g < |states[k].groups|
    && Resets(actions[k], g) && states[k].groups[g].committed <= o
  }

  predicate FetchesAt(states: seq<System>, actions: seq<Action>, g: nat, o: nat, k: nat) {
    && k < |actions| && k < |states| && g < |states[k].groups|
    && actions[k] == Fetch(g) && states[k].groups[g].position == o
  }

  /** A position falls only by a reset. */
  lemma {:induction false} FallIsReset(states: seq<System>, actions: seq<Action>, i: nat, j: nat, g: nat, o: nat)
    returns (k: nat)
    requires IsRun(states, actions) && i <= j < |states|
    requires g < |states[i].groups| && g < |states[j].groups|
    requires states[j].groups[g].position <= o < states[i].groups[g].position
    ensures i <= k < j && ResetBelow(states, actions, g, o, k)
    decreases j
  {
    hide Next, Enabled;
    k := j - 1;
    GroupsStay(states, actions, i, k);
    RunInv(states, actions, k);
    PositionStep(states[k], actions[k], g);
    if states[k].groups[g].position <= o {
      k := FallIsReset(states, actions, i, k, g, o);
    }
  }

  /** A position rises past an offset only by fetching it. */
  lemma {:induction false} RiseIsFetch(states: seq<System>, actions: seq<Action>, i: nat, j: nat, g: nat, o: nat)
    returns (k: nat)
    requires IsRun(states, actions) && i <= j < |states|
    requires g < |states[i].groups| && g < |states[j].groups|
    requires states[i].groups[g].position <= o < states[j].groups[g].position
    ensures i <= k < j && FetchesAt(states, actions, g, o, k)
    decreases j
  {
    hide Next, Enabled;
    k := j - 1;
    GroupsStay(states, actions, i, k);
    RunInv(states, actions, k);
    PositionStep(states[k], actions[k], g);
    if states[k].groups[g].position > o {
      k := RiseIsFetch(states, actions, i, k, g, o);
    }
  }

  /** Exactly when a message that has been fetched is fetched again: its group is rebalanced
      or the process restarted while its offset is not committed, and the group then gets
      past it. Its own acknowledgement plays no part, and without a reset nothing is ever
      fetched again. */
  lemma {:induction false} RefetchedIff(states: seq<System>, actions: seq<Action>, i: nat, j: nat, g: nat, o: nat)
    requires IsRun(states, actions) && i <= j < |states|
    requires g < |states[i].groups| && o < states[i].groups[g].position
    ensures forall k :: i <= k <= j ==> |states[k].groups| == |states[i].groups|
    ensures (exists k :: i <= k < j && FetchesAt(states, actions, g, o, k)) <==>
            (exists k, l :: i <= k < l <= j && ResetBelow(states, actions, g, o, k) && states[l].groups[g].position > o)
  {
    forall k | i <= k <= j ensures |states[k].groups| == |states[i].groups| {
      GroupsStay(states, actions, i, k);
    }
    hide Next, Enabled, IsRun;
    if k :| i <= k < j && FetchesAt(states, actions, g, o, k) {
      var r := RefetchNeedsReset(states, actions, i, k, g, o);
      assert states[k + 1].groups[g].position > o;
    }
    if k, l :| i <= k < l <= j && ResetBelow(states, actions, g, o, k) && states[l].groups[g].position > o {
      var f := ResetIsRefetched(states, actions, k, l, g, o);
    }
  }

  lemma {:induction false} RefetchNeedsReset(states: seq<System>, actions: seq<Action>, i: nat, k: nat, g: nat, o: nat) returns (r: nat)
    requires IsRun(states, actions) && i <= k < |actions| && g < |states[i].groups|
    requires o < states[i].groups[g].position && FetchesAt(states, actions, g, o, k)
    ensures i <= r < k && ResetBelow(states, actions, g, o, r)
    ensures g < |states[k + 1].groups| && states[k + 1].groups[g].position > o
  {
    hide Next, Enabled;
    r := FallIsReset(states, actions, i, k, g, o);
    RunInv(states, actions, k);
    PositionStep(states[k], actions[k], g);
  }

  lemma {:induction false} ResetIsRefetched(states: seq<System>, actions: seq<Action>, k: nat, l: nat, g: nat, o: nat) returns (f: nat)
    requires IsRun(states, actions) && k < l < |states| && g < |states[l].groups|
    requires ResetBelow(states, actions, g, o, k) && states[l].groups[g].position > o
    ensures k < f < l && FetchesAt(states, actions, g, o, f)
  {
    hide Next, Enabled;
    RunInv(states, actions, k);
    PositionStep(states[k], actions[k], g);
    f := RiseIsFetch(states, actions, k + 1, l, g, o);
  }

  // ── The domain under this protocol ──

  /** The commands handled since the last restart, read off the steps of the run: those of
      clients as they come, and those at the head of the channel that are for this game. */
  function CallsOf(states: seq<System>, actions: seq<Action>, i: nat): seq<GameCommand>
    requires i <= |actions| < |states|
  {
    if i == 0 then []
    else
      var before := CallsOf(states, actions, i - 1);
      var s := states[i - 1];
      match actions[i - 1]
      case ClientCommand(_, cmd, _) => before + [cmd]
      case Drain(_) =>
        if s.channel != [] && s.channel[0].env.gameId == s.gameId then before + [s.channel[0].env.command] else before
      case Restart(_) => []
      case _ => before
  }

  lemma {:induction false} CallsAreTheDeliveries(states: seq<System>, actions: seq<Action>, i: nat)
    requires IsRun(states, actions) && i < |states|
    ensures states[i].calls == CallsOf(states, actions, i)
  {
    hide Accepted, Handle, Awaited, ResultOf, HandleEnvelope;
    if i == 0 {
      InitHandledNothing(states, actions);
    } else {
      CallsAreTheDeliveries(states, actions, i - 1);
    }
  }

  /** The log is at all times what these commands produce on an empty store, in the order of
      handling, under every interleaving. */
  lemma {:induction false} LogIsARun(states: seq<System>, actions: seq<Action>, i: nat)
    requires IsRun(states, actions) && i < |states|
    ensures states[i].log == HandleAll([], CallsOf(states, actions, i))
    ensures Producible(states[i].log)
  {
    RunInv(states, actions, i);
    CallsAreTheDeliveries(states, actions, i);
  }

  /** A broker copy of a join or placement that has been accepted since the last restart is
      refused, changes nothing, and its acknowledgement is dropped. */
  lemma {:induction false} BrokerCopyIsRefused(states: seq<System>, actions: seq<Action>, i: nat, fails: bool, j: nat)
    requires IsRun(states, actions) && i < |states| && states[i].channel != []
    requires j < |CallsOf(states, actions, i)| && AcceptedAt(CallsOf(states, actions, i), j)
    requires states[i].channel[0].env.gameId == states[i].gameId
    requires Repeats(CallsOf(states, actions, i)[j], states[i].channel[0].env.command)
    ensures
      var s := states[i];
      var n := Next(s, Drain(fails));
      && n.log == s.log
      && |n.handled| == |s.handled| + 1
      && n.handled[|s.handled|].ticket == s.channel[0]
      && n.handled[|s.handled|].result.Refused?
      && (Awaited(s, s.channel[0]) ==> n.groups[s.channel[0].group].consumer.signal == Dropped)
  {
    RunInv(states, actions, i);
    CallsAreTheDeliveries(states, actions, i);
    var s := states[i];
    var copy := s.channel[0].env.command;
    var all := s.calls + [copy];
    assert all[..|s.calls|] == s.calls && all[..j] == s.calls[..j];
    AcceptedAtMostOnce(all, j, |s.calls|);
    assert !Accepted(s.log, copy);
    hide HandleAll, Handle, AcceptedAt, Repeats, Inv;
    DrainStep(s, fails);
  }

  /** Duplicates that the three deliveries bring do not show in the log. */
  lemma {:induction false} DeliveryIsEffectivelyOnce(states: seq<System>, actions: seq<Action>, i: nat, lost: set<nat>)
    requires IsRun(states, actions) && i < |states|
    requires forall j :: 0 <= j < |CallsOf(states, actions, i)| && j in lost ==> Duplicate(CallsOf(states, actions, i), j)
    ensures states[i].log == HandleAll([], Kept(CallsOf(states, actions, i), lost))
  {
    LogIsARun(states, actions, i);
    DuplicatesDoNotMatter(CallsOf(states, actions, i), lost);
  }

  // ── A client's command and its copies ──

  lemma {:induction false} TopicGrows(states: seq<System>, actions: seq<Action>, i: nat, j: nat)
    requires IsRun(states, actions) && i <= j < |states|
    ensures states[i].topic <= states[j].topic
    decreases j
  {
    if i < j {
      hide Next, Enabled;
      TopicGrows(states, actions, i, j - 1);
      HistoryGrows(states[j - 1], actions[j - 1]);
    }
  }

  /** A client's command that the broker has kept reaches every group: once the group's
      committed offset has passed it, that very command has been handled for the group,
      after the client's own delivery. */
  lemma {:induction false} PublishedReachesEveryGroup(states: seq<System>, actions: seq<Action>, k: nat, i: nat, g: nat)
    requires IsRun(states, actions) && k < i < |states| && g < |states[i].groups|
    requires actions[k].ClientCommand? && actions[k].published
    requires |states[k].topic| < states[i].groups[g].committed
    ensures exists d, t :: k < d < i && HandledAt(states, actions, d, t) && t.group == g &&
              t.env == CommandEnvelope(actions[k].id, states[k].gameId, actions[k].cmd)
  {
    var offset := |states[k].topic|;
    ClientCommandStep(states[k], actions[k].id, actions[k].cmd, true);
    TopicGrows(states, actions, k + 1, i);
    hide Next, Enabled;
    AtLeastOnce(states, actions, i, g, offset);
    var d, t :| 0 <= d < i && HandledAt(states, actions, d, t) && t.group == g && t.offset == offset &&
      t.env == states[i].topic[offset].env;
    RunInv(states, actions, d);
    assert t.offset < |states[d].topic|;
    if d <= k {
      TopicGrows(states, actions, d, k);
    }
  }

  /** Between two states of a run without a restart, the log grows by some commands. */
  lemma {:induction false} LogBetween(states: seq<System>, actions: seq<Action>, i: nat, j: nat)
    returns (cmds: seq<GameCommand>)
    requires IsRun(states, actions) && i <= j < |states|
    requires forall k :: i <= k < j ==> !actions[k].Restart?
    ensures states[j].log == HandleAll(states[i].log, cmds) && states[j].gameId == states[i].gameId
    decreases j
  {
    hide Handle, ResultOf, Acknowledges, Awaited;
    if i == j {
      cmds := [];
      HandleAllNone(states[i].log);
    } else {
      var s, a := states[j - 1], actions[j - 1];
      cmds := LogBetween(states, actions, i, j - 1);
      if a.ClientCommand? {
        HandleAllSnoc(states[i].log, cmds, a.cmd);
        cmds := cmds + [a.cmd];
      } else if a.Drain? && s.channel[0].env.gameId == s.gameId {
        HandleAllSnoc(states[i].log, cmds, s.channel[0].env.command);
        cmds := cmds + [s.channel[0].env.command];
      }
    }
  }

  /** Effectively once, for one command: when a client's join or placement was accepted at
      its own delivery, every later copy of it leaves the log as it is, in any run, until
      the process is restarted; and so does the copy of a leave given outside the lobby
      leave the state. */
  lemma {:induction false} CopiesChangeNothing(states: seq<System>, actions: seq<Action>, k: nat, d: nat)
    requires IsRun(states, actions) && k < d < |actions|
    requires forall j :: k <= j < d ==> !actions[j].Restart?
    requires actions[k].ClientCommand? && Accepted(states[k].log, actions[k].cmd)
    requires actions[d].Drain? && states[d].channel != []
    requires states[d].channel[0].env == CommandEnvelope(actions[k].id, states[k].gameId, actions[k].cmd)
    ensures !actions[k].cmd.LeaveGame? ==> states[d + 1].log == states[d].log
    ensures actions[k].cmd.LeaveGame? && Hydrate(states[k].log).stage != Lobby ==>
              Hydrate(states[d + 1].log) == Hydrate(states[d].log)
  {
    var cmd := actions[k].cmd;
    LogIsARun(states, actions, k);
    var cmds := LogBetween(states, actions, k + 1, d);
    assert states[k + 1].log == Handle(states[k].log, cmd) && states[k + 1].gameId == states[k].gameId;
    assert states[d + 1].log == Handle(states[d].log, cmd);
    hide Next, Enabled, Handle, HandleAll;
    if cmd.LeaveGame? {
      if Hydrate(states[k].log).stage != Lobby {
        LeaveRedeliverableIff(states[k].log, cmd.player);
      }
    } else {
      AcceptedThenRefusedForever(states[k].log, cmd, cmds, cmd);
      RefusedLeavesLog(states[d].log, cmd);
    }
  }

  lemma {:induction false} RefusedLeavesLog(log: Log, cmd: GameCommand)
    requires !Accepted(log, cmd)
    ensures Handle(log, cmd) == log
  {
  }

  /** The channel never holds more than the 256 tickets it has room for. */
  lemma {:induction false} ChannelIsBounded(states: seq<System>, actions: seq<Action>, i: nat)
    requires IsRun(states, actions) && i < |states|
    ensures |states[i].channel| <= 256
  {
    if i == 0 {
      InitHandledNothing(states, actions);
    } else {
      hide Handle, HandleEnvelope, ResultOf, Acknowledges, Awaited;
      ChannelIsBounded(states, actions, i - 1);
    }
  }
}
