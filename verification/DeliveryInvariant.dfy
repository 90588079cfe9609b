/** The invariant of the delivery protocol, and that every step keeps it. */
module DeliveryInvariant {
  import opened Types
  import opened Decider
  import opened Ports
  import opened Service
  import opened GameLoop
  import opened Delivery

  // ── The invariant, in five parts ──

  /** Offsets: what is committed or about to be lies behind the message in hand. */
  predicate OffsetsOk(topic: seq<Message>, g: nat, group: Group) {
    var floor := if group.consumer.Idle? then group.position else group.position - 1;
    && group.committed <= floor && group.position <= |topic|
    && (forall i :: 0 <= i < |group.inFlight| ==> group.committed < group.inFlight[i] <= floor)
    && (forall i, j :: 0 <= i < j < |group.inFlight| ==> group.inFlight[i] < group.inFlight[j])
    && (group.consumer.Sending? ==>
          group.consumer.offset + 1 == group.position && topic[group.consumer.offset] == Readable(group.consumer.env))
    && (group.consumer.Waiting? ==>
          var t := group.consumer.ticket;
          t.group == g && t.offset + 1 == group.position && topic[t.offset] == Readable(t.env))
  }

  /** The last ticket of a group in the channel. */
  function LastOf(channel: seq<Ticket>, g: nat): Option<Ticket> {
    if channel == [] then None
    else
      var last := LastOf(channel[1..], g);
      if last.Some? then last else if channel[0].group == g then Some(channel[0]) else None
  }

  /** First in, first out: while a ticket is awaited it is the last of its group, and once
      it is answered its group has nothing left in the channel. */
  predicate OrderOk(channel: seq<Ticket>, g: nat, group: Group) {
    group.consumer.Waiting? ==>
      LastOf(channel, g) == if group.consumer.signal == Pending then Some(group.consumer.ticket) else None
  }

  ghost predicate WasHandled(handled: seq<Handling>, g: nat, offset: nat) {
    exists h :: h in handled && h.ticket.group == g && h.ticket.offset == offset
  }

  ghost predicate IsQueued(channel: seq<Ticket>, g: nat, offset: nat) {
    exists t :: t in channel && t.group == g && t.offset == offset
  }

  /** Every readable message below `limit` has been handled for the group. */
  ghost predicate Covered(topic: seq<Message>, handled: seq<Handling>, g: nat, limit: nat) {
    forall o :: 0 <= o < limit && o < |topic| && topic[o].Readable? ==> WasHandled(handled, g, o)
  }

  /** Nothing fetched is lost, and nothing is committed before it is handled. */
  ghost predicate CoverageOk(s: System, g: nat)
    requires g < |s.groups|
  {
    var group := s.groups[g];
    && (forall o :: 0 <= o < group.position && o < |s.topic| && s.topic[o].Readable? ==>
          || WasHandled(s.handled, g, o) || IsQueued(s.channel, g, o)
          || (group.consumer.Sending? && group.consumer.offset == o))
    && Covered(s.topic, s.handled, g, group.committed)
    && forall c :: c in group.inFlight ==> Covered(s.topic, s.handled, g, c)
  }

  /** Tickets: each is numbered once, carries its message, and is handled at most once. */
  predicate TicketsOk(s: System) {
    && (forall i :: 0 <= i < |s.channel| ==>
          s.channel[i].id < s.nextId && s.channel[i].offset < |s.topic| &&
          s.topic[s.channel[i].offset] == Readable(s.channel[i].env))
    && (forall i, j :: 0 <= i < j < |s.channel| ==> s.channel[i].id != s.channel[j].id)
    && (forall i :: 0 <= i < |s.handled| ==>
          s.handled[i].ticket.id < s.nextId && s.handled[i].ticket.offset < |s.topic| &&
          s.topic[s.handled[i].ticket.offset] == Readable(s.handled[i].ticket.env))
    && (forall i, j :: 0 <= i < j < |s.handled| ==> s.handled[i].ticket.id != s.handled[j].ticket.id)
    && (forall i, j :: 0 <= i < |s.handled| && 0 <= j < |s.channel| ==> s.handled[i].ticket.id != s.channel[j].id)
  }

  /** The handling that justifies a commit: acknowledged, while the consumer was waiting. */
  ghost predicate Justified(handled: seq<Handling>, t: Ticket) {
    exists h :: h in handled && h.ticket == t && Acknowledges(h.result) && h.inTime
  }

  /** Commits: each is justified by a handling of its own, each offset in the broker or on
      its way there is one of them, and a ticket still awaited has not been used. */
  ghost predicate CommitsOk(s: System) {
    && (forall i :: 0 <= i < |s.commits| ==> Justified(s.handled, s.commits[i]))
    && (forall i, j :: 0 <= i < j < |s.commits| ==> s.commits[i] != s.commits[j])
    && (forall g :: 0 <= g < |s.groups| ==> GroupCommitsOk(s, g))
  }

  ghost predicate CommitFor(commits: seq<Ticket>, g: nat, offset: nat) {
    exists t :: t in commits && t.group == g && t.offset + 1 == offset
  }

  ghost predicate GroupCommitsOk(s: System, g: nat)
    requires g < |s.groups|
  {
    var group := s.groups[g];
    && (group.committed != 0 ==> CommitFor(s.commits, g, group.committed))
    && (forall c :: c in group.inFlight ==> CommitFor(s.commits, g, c))
    && (group.consumer.Waiting? ==>
          && group.consumer.ticket !in s.commits
          && (group.consumer.signal == Acked ==> Justified(s.handled, group.consumer.ticket)))
  }

  ghost predicate Inv(s: System) {
    && (forall g :: 0 <= g < |s.groups| ==> OffsetsOk(s.topic, g, s.groups[g]))
    && (forall g :: 0 <= g < |s.groups| ==> OrderOk(s.channel, g, s.groups[g]))
    && (forall g :: 0 <= g < |s.groups| ==> CoverageOk(s, g))
    && TicketsOk(s)
    && CommitsOk(s)
    && s.log == HandleAll([], s.calls)
  }

  // ── Every step keeps it ──

  lemma {:induction false} HistoryGrows(s: System, a: Action)
    requires Enabled(s, a)
    ensures var n := Next(s, a);
            && s.topic <= n.topic && s.handled <= n.handled && s.commits <= n.commits
            && s.nextId <= n.nextId && |n.groups| == |s.groups|
  {
  }

  lemma {:induction false} OffsetsKept(s: System, a: Action, g: nat)
    requires Enabled(s, a) && g < |s.groups| && OffsetsOk(s.topic, g, s.groups[g])
    ensures OffsetsOk(Next(s, a).topic, g, Next(s, a).groups[g])
  {
    hide Handle, HandleEnvelope, ResultOf, Acknowledges;
  }

  lemma {:induction false} LastOfIsIn(channel: seq<Ticket>, g: nat)
    ensures LastOf(channel, g).None? ==> forall t :: t in channel ==> t.group != g
    ensures LastOf(channel, g).Some? ==> LastOf(channel, g).value in channel && LastOf(channel, g).value.group == g
  {
    if channel != [] {
      LastOfIsIn(channel[1..], g);
    }
  }

  lemma {:induction false} LastOfPush(channel: seq<Ticket>, t: Ticket, g: nat)
    ensures LastOf(channel + [t], g) == if t.group == g then Some(t) else LastOf(channel, g)
  {
    if channel == [] {
      assert channel + [t] == [t] && [t][1..] == [];
    } else {
      LastOfPush(channel[1..], t, g);
      assert (channel + [t])[1..] == channel[1..] + [t];
    }
  }

  lemma {:induction false} LastOfPop(channel: seq<Ticket>, g: nat)
    requires channel != []
    requires forall i, j :: 0 <= i < j < |channel| ==> channel[i].id != channel[j].id
    ensures LastOf(channel[1..], g) == if LastOf(channel, g) == Some(channel[0]) then None else LastOf(channel, g)
  {
    LastOfIsIn(channel[1..], g);
  }

  lemma {:induction false} OrderKept(s: System, a: Action, g: nat)
    requires Enabled(s, a) && g < |s.groups| && TicketsOk(s)
    requires OffsetsOk(s.topic, g, s.groups[g]) && OrderOk(s.channel, g, s.groups[g])
    ensures OrderOk(Next(s, a).channel, g, Next(s, a).groups[g])
  {
    hide Handle, HandleEnvelope, ResultOf, Acknowledges;
    match a {
      case Send(g') => LastOfPush(s.channel, Next(s, a).channel[|s.channel|], g);
      case Drain(_) => LastOfPop(s.channel, g);
      case _ =>
    }
  }

  lemma {:induction false} HandledStays(handled: seq<Handling>, more: seq<Handling>, g: nat, o: nat)
    requires handled <= more && WasHandled(handled, g, o)
    ensures WasHandled(more, g, o)
  {
  }

  lemma {:induction false} CoveredStays(s: System, n: System, g: nat, limit: nat)
    requires s.topic <= n.topic && s.handled <= n.handled && limit <= |s.topic|
    requires Covered(s.topic, s.handled, g, limit)
    ensures Covered(n.topic, n.handled, g, limit)
  {
    forall o | 0 <= o < limit && n.topic[o].Readable? ensures WasHandled(n.handled, g, o) {
      HandledStays(s.handled, n.handled, g, o);
    }
  }

  /** The acknowledged ticket of a waiting consumer: all its group has fetched is handled. */
  lemma {:induction false} AckedCovers(s: System, g: nat)
    requires g < |s.groups| && OrderOk(s.channel, g, s.groups[g]) && CoverageOk(s, g)
    requires s.groups[g].consumer.Waiting? && s.groups[g].consumer.signal == Acked
    ensures Covered(s.topic, s.handled, g, s.groups[g].position)
  {
    LastOfIsIn(s.channel, g);
  }

  /** What is fetched is, after any step, still handled, queued or in hand. */
  lemma {:induction false} FetchedKept(s: System, a: Action, g: nat, o: nat)
    requires Enabled(s, a) && g < |s.groups| && OffsetsOk(s.topic, g, s.groups[g]) && CoverageOk(s, g)
    requires o < Next(s, a).groups[g].position && o < |Next(s, a).topic| && Next(s, a).topic[o].Readable?
    ensures
      var n := Next(s, a);
      || WasHandled(n.handled, g, o) || IsQueued(n.channel, g, o)
      || (n.groups[g].consumer.Sending? && n.groups[g].consumer.offset == o)
  {
    hide Handle, HandleEnvelope, ResultOf, Acknowledges;
    var n := Next(s, a);
    HistoryGrows(s, a);
    if o < s.groups[g].position {
      if WasHandled(s.handled, g, o) {
        HandledStays(s.handled, n.handled, g, o);
      } else if IsQueued(s.channel, g, o) {
        var t :| t in s.channel && t.group == g && t.offset == o;
        if a.Drain? {
          if t == s.channel[0] {
            assert n.handled[|s.handled|].ticket == t;
          } else {
            assert t in s.channel[1..];
          }
        } else if a.Send? {
          assert t in s.channel + [n.channel[|s.channel|]];
        }
      } else if a.Send? && a.group == g {
        assert n.channel[|s.channel|].offset == o && n.channel[|s.channel|] in n.channel;
      }
    }
  }

  lemma {:induction false} CoverageKept(s: System, a: Action, g: nat)
    requires Enabled(s, a) && g < |s.groups|
    requires OffsetsOk(s.topic, g, s.groups[g]) && OrderOk(s.channel, g, s.groups[g]) && CoverageOk(s, g)
    ensures CoverageOk(Next(s, a), g)
  {
    var n := Next(s, a);
    HistoryGrows(s, a);
    forall o | 0 <= o < n.groups[g].position && o < |n.topic| && n.topic[o].Readable?
      ensures WasHandled(n.handled, g, o) || IsQueued(n.channel, g, o)
              || (n.groups[g].consumer.Sending? && n.groups[g].consumer.offset == o)
    {
      FetchedKept(s, a, g, o);
    }
    hide Handle, HandleEnvelope, ResultOf, Acknowledges, WasHandled, IsQueued, Covered;
    forall c | c == n.groups[g].committed || c in n.groups[g].inFlight
      ensures Covered(n.topic, n.handled, g, c)
    {
      if c == s.groups[g].committed || c in s.groups[g].inFlight {
        CoveredStays(s, n, g, c);
      } else {
        AckedCovers(s, g);
        CoveredStays(s, n, g, c);
      }
    }
  }

  /** A step sends one fresh ticket, moves the first one to the history, empties the
      channel, or leaves the tickets alone. */
  lemma {:induction false} TicketsMove(s: System, a: Action)
    requires Enabled(s, a)
    requires forall g :: 0 <= g < |s.groups| ==> OffsetsOk(s.topic, g, s.groups[g])
    ensures
      var n := Next(s, a);
      || (n.channel == s.channel && n.handled == s.handled)
      || (n.channel == [] && n.handled == s.handled)
      || (n.handled == s.handled && n.nextId == s.nextId + 1 &&
          exists t :: n.channel == s.channel + [t] && t.id == s.nextId && t.offset < |s.topic| &&
            s.topic[t.offset] == Readable(t.env))
      || (s.channel != [] && n.channel == s.channel[1..] &&
          exists h :: n.handled == s.handled + [h] && h.ticket == s.channel[0])
  {
    hide Handle, HandleEnvelope, ResultOf, Acknowledges;
    if a.Send? {
      assert OffsetsOk(s.topic, a.group, s.groups[a.group]);
    }
  }

  lemma {:induction false} TicketsKept(s: System, a: Action)
    requires Enabled(s, a) && TicketsOk(s)
    requires forall g :: 0 <= g < |s.groups| ==> OffsetsOk(s.topic, g, s.groups[g])
    ensures TicketsOk(Next(s, a))
  {
    hide Next, Enabled, OffsetsOk;
    HistoryGrows(s, a);
    TicketsMove(s, a);
  }

  lemma {:induction false} JustifiedStays(handled: seq<Handling>, more: seq<Handling>, t: Ticket)
    requires handled <= more && Justified(handled, t)
    ensures Justified(more, t)
  {
  }

  lemma {:induction false} CommitForStays(commits: seq<Ticket>, more: seq<Ticket>, g: nat, c: nat)
    requires commits <= more && CommitFor(commits, g, c)
    ensures CommitFor(more, g, c)
  {
  }

  /** The answer to a group's own ticket justifies the commit that may follow. */
  lemma {:induction false} GroupCommitsKept(s: System, a: Action, g: nat)
    requires Enabled(s, a) && g < |s.groups| && TicketsOk(s) && CommitsOk(s)
    requires forall g' :: 0 <= g' < |s.groups| ==> OffsetsOk(s.topic, g', s.groups[g'])
    ensures GroupCommitsOk(Next(s, a), g)
  {
    hide Handle, HandleEnvelope, ResultOf, CommitFor;
    var n := Next(s, a);
    HistoryGrows(s, a);
    assert GroupCommitsOk(s, g);
    forall c | (c == n.groups[g].committed && c != 0) || c in n.groups[g].inFlight
      ensures CommitFor(n.commits, g, c)
    {
      if (c == s.groups[g].committed && c != 0) || c in s.groups[g].inFlight {
        CommitForStays(s.commits, n.commits, g, c);
      } else {
        OwnCommit(n.commits, g, c, s.groups[g].consumer.ticket);
      }
    }
    if n.groups[g].consumer.Waiting? {
      WaitingKept(s, a, g);
    }
  }

  lemma {:induction false} OwnCommit(commits: seq<Ticket>, g: nat, c: nat, t: Ticket)
    requires t in commits && t.group == g && t.offset + 1 == c
    ensures CommitFor(commits, g, c)
  {
  }

  lemma {:induction false} WaitingKept(s: System, a: Action, g: nat)
    requires Enabled(s, a) && g < |s.groups| && TicketsOk(s) && CommitsOk(s)
    requires forall g' :: 0 <= g' < |s.groups| ==> OffsetsOk(s.topic, g', s.groups[g'])
    requires Next(s, a).groups[g].consumer.Waiting?
    ensures
      var n := Next(s, a);
      var consumer := n.groups[g].consumer;
      && consumer.ticket !in n.commits
      && (consumer.signal == Acked ==> Justified(n.handled, consumer.ticket))
  {
    hide Handle, HandleEnvelope, ResultOf, CommitFor;
    var n := Next(s, a);
    var t := n.groups[g].consumer.ticket;
    HistoryGrows(s, a);
    if s.groups[g].consumer.Waiting? && s.groups[g].consumer.ticket == t {
      assert GroupCommitsOk(s, g);
      if s.groups[g].consumer.signal == Acked {
        JustifiedStays(s.handled, n.handled, t);
      } else if n.groups[g].consumer.signal == Acked {
        assert n.handled[|s.handled|].ticket == t && n.handled[|s.handled|] in n.handled;
      }
    } else {
      FreshIsUnused(s, t);
    }
  }

  lemma {:induction false} FreshIsUnused(s: System, t: Ticket)
    requires TicketsOk(s) && CommitsOk(s) && t.id >= s.nextId
    ensures t !in s.commits
  {
  }

  lemma {:induction false} CommitsGrowUnused(s: System, a: Action)
    requires Enabled(s, a) && CommitsOk(s)
    ensures
      var n := Next(s, a);
      n.commits == s.commits ||
      exists t :: n.commits == s.commits + [t] && t !in s.commits && Justified(n.handled, t)
  {
    hide Handle, HandleEnvelope, ResultOf, CommitFor, Justified;
    if a.Resume? {
      assert GroupCommitsOk(s, a.group);
      assert Next(s, a).handled == s.handled;
    }
  }

  lemma {:induction false} CommitsKept(s: System, a: Action)
    requires Enabled(s, a) && TicketsOk(s) && CommitsOk(s)
    requires forall g :: 0 <= g < |s.groups| ==> OffsetsOk(s.topic, g, s.groups[g])
    ensures CommitsOk(Next(s, a))
  {
    hide Next, Enabled, Justified, GroupCommitsOk, TicketsOk, OffsetsOk;
    var n := Next(s, a);
    HistoryGrows(s, a);
    CommitsGrowUnused(s, a);
    forall i | 0 <= i < |n.commits|
      ensures Justified(n.handled, n.commits[i])
    {
      if i < |s.commits| {
        JustifiedStays(s.handled, n.handled, s.commits[i]);
      }
    }
    forall g | 0 <= g < |n.groups| ensures GroupCommitsOk(n, g) {
      GroupCommitsKept(s, a, g);
    }
  }

  lemma {:induction false} CallsKept(s: System, a: Action)
    requires Enabled(s, a) && s.log == HandleAll([], s.calls)
    ensures Next(s, a).log == HandleAll([], Next(s, a).calls)
  {
    hide Handle;
    match a {
      case ClientCommand(_, cmd, _) => HandleAllSnoc([], s.calls, cmd);
      case Drain(_) => HandleAllSnoc([], s.calls, s.channel[0].env.command);
      case _ =>
    }
  }

  lemma {:induction false} NextKeepsInv(s: System, a: Action)
    requires Inv(s) && Enabled(s, a)
    ensures Inv(Next(s, a))
  {
    HistoryGrows(s, a);
    forall g | 0 <= g < |s.groups|
      ensures OffsetsOk(Next(s, a).topic, g, Next(s, a).groups[g])
      ensures OrderOk(Next(s, a).channel, g, Next(s, a).groups[g])
      ensures CoverageOk(Next(s, a), g)
    {
      OffsetsKept(s, a, g);
      OrderKept(s, a, g);
      CoverageKept(s, a, g);
    }
    TicketsKept(s, a);
    CommitsKept(s, a);
    CallsKept(s, a);
  }
}
