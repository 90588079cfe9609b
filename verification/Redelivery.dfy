/** Every client command reaches the service three times: handled locally, then once from
    each consumer group. No table of seen commands exists; the domain rules alone make the
    repetitions of an accepted join or placement harmless. */
module Redelivery {
  import opened Types
  import opened BoardLogic
  import opened Rules
  import opened Decider
  import opened LogLanguage
  import opened History
  import opened GameFacts

  /** `d` asks again for what `c` asked: the same player to join, or the same cell. */
  predicate Repeats(c: GameCommand, d: GameCommand) {
    || (c.JoinGame? && d.JoinGame? && c.player == d.player)
    || (c.PlaceTile? && d.PlaceTile? && c.at == d.at)
  }

  /** Why a join or placement can no longer be accepted. */
  predicate Spent(s: GameState, cmd: GameCommand) {
    match cmd
    case JoinGame(p, _) => s.stage != Lobby || p == s.playerX || p == s.playerO
    case PlaceTile(_, at) => s.stage == Ended || (s.stage == InGame && at < 9 && s.board[at] != Empty)
    case LeaveGame(_) => false
  }

  /** Between batches a lobby has its second seat free. */
  predicate SeatFree(s: GameState) {
    s.stage == Lobby ==> s.playerO == NOBODY
  }

  lemma {:induction false} AcceptedIsSpent(s: GameState, c: GameCommand, d: GameCommand)
    requires Decide(s, c).Success? && Repeats(c, d)
    ensures Spent(Fold(s, Decide(s, c).value), d)
  {
    FoldBatch(s, Decide(s, c).value);
  }

  lemma {:induction false} SpentStaysSpent(s: GameState, c: GameCommand, d: GameCommand)
    requires SeatFree(s) && Decide(s, c).Success?
    ensures var after := Fold(s, Decide(s, c).value);
            SeatFree(after) && (Spent(s, d) ==> Spent(after, d))
  {
    FoldBatch(s, Decide(s, c).value);
  }

  lemma {:induction false} SpentForever(log: Log, cmds: seq<GameCommand>, d: GameCommand)
    requires SeatFree(Hydrate(log)) && Spent(Hydrate(log), d)
    ensures !Accepted(HandleAll(log, cmds), d)
    ensures Spent(Hydrate(HandleAll(log, cmds)), d)
    decreases |cmds|
  {
    if cmds != [] {
      if Accepted(log, cmds[0]) {
        SpentStaysSpent(Hydrate(log), cmds[0], d);
        HydrateAppend(log, Decide(Hydrate(log), cmds[0]).value);
      }
      SpentForever(Handle(log, cmds[0]), cmds[1..], d);
    }
  }

  /** Once accepted, a join or placement is refused in every later state, whatever is
      handled in between. */
  lemma {:induction false} AcceptedThenRefusedForever(log: Log, c: GameCommand, cmds: seq<GameCommand>, d: GameCommand)
    requires Producible(log) && Accepted(log, c) && Repeats(c, d)
    ensures !Accepted(HandleAll(Handle(log, c), cmds), d)
  {
    ReachableStatesKeepInvariant(log);
    AcceptedIsSpent(Hydrate(log), c, d);
    SpentStaysSpent(Hydrate(log), c, d);
    HydrateAppend(log, Decide(Hydrate(log), c).value);
    SpentForever(Handle(log, c), cmds, d);
  }

  // ── Whole runs ──

  /** The log before delivery `i` of a run. */
  function Before(cmds: seq<GameCommand>, i: nat): Log
    requires i <= |cmds|
  {
    HandleAll([], cmds[..i])
  }

  predicate AcceptedAt(cmds: seq<GameCommand>, i: nat)
    requires i < |cmds|
  {
    Accepted(Before(cmds, i), cmds[i])
  }

  lemma {:induction false} BeforeIsProducible(cmds: seq<GameCommand>, i: nat)
    requires i <= |cmds|
    ensures Producible(Before(cmds, i))
  {
  }

  /** Of all the deliveries of one join or placement, at most one is accepted. */
  lemma {:induction false} AcceptedAtMostOnce(cmds: seq<GameCommand>, i: nat, j: nat)
    requires i < j < |cmds| && Repeats(cmds[i], cmds[j]) && AcceptedAt(cmds, i)
    ensures !AcceptedAt(cmds, j)
  {
    hide Handle, HandleAll, Accepted, Repeats;
    BeforeIsProducible(cmds, i);
    var between := cmds[i + 1..j];
    AcceptedThenRefusedForever(Before(cmds, i), cmds[i], between, cmds[j]);
    assert cmds[..i + 1] == cmds[..i] + [cmds[i]];
    assert cmds[..j] == cmds[..i + 1] + between;
    HandleAllSnoc([], cmds[..i], cmds[i]);
    HandleAllAppend([], cmds[..i + 1], between);
  }

  /** Delivery `i` repeats a join or placement that an earlier delivery got accepted. */
  ghost predicate Duplicate(cmds: seq<GameCommand>, i: nat)
    requires i < |cmds|
  {
    exists j: nat | j < i :: Repeats(cmds[j], cmds[i]) && AcceptedAt(cmds, j)
  }

  lemma {:induction false} DuplicateChangesNothing(cmds: seq<GameCommand>, i: nat)
    requires i < |cmds| && Duplicate(cmds, i)
    ensures Handle(Before(cmds, i), cmds[i]) == Before(cmds, i)
  {
    var j: nat :| j < i && Repeats(cmds[j], cmds[i]) && AcceptedAt(cmds, j);
    AcceptedAtMostOnce(cmds, j, i);
  }

  lemma {:induction false} DuplicateInPrefix(cmds: seq<GameCommand>, n: nat, i: nat)
    requires i < n <= |cmds| && Duplicate(cmds, i)
    ensures Duplicate(cmds[..n], i)
  {
    var j: nat :| j < i && Repeats(cmds[j], cmds[i]) && AcceptedAt(cmds, j);
    assert cmds[..n][..j] == cmds[..j];
    assert AcceptedAt(cmds[..n], j);
  }

  /** Deleting any set of duplicate deliveries from any run leaves its log identical. */
  lemma {:induction false} DuplicatesDoNotMatter(cmds: seq<GameCommand>, lost: set<nat>)
    requires forall i :: 0 <= i < |cmds| && i in lost ==> Duplicate(cmds, i)
    ensures HandleAll([], Kept(cmds, lost)) == HandleAll([], cmds)
    decreases |cmds|
  {
    hide Duplicate, Handle, HandleAll;
    if cmds != [] {
      var n := |cmds| - 1;
      var init := cmds[..n];
      forall i | 0 <= i < n && i in lost ensures Duplicate(init, i) {
        DuplicateInPrefix(cmds, n, i);
      }
      DuplicatesDoNotMatter(init, lost);
      assert cmds == init + [cmds[n]];
      HandleAllSnoc([], init, cmds[n]);
      if n !in lost {
        HandleAllSnoc([], Kept(init, lost), cmds[n]);
      } else {
        DuplicateChangesNothing(cmds, n);
        assert Kept(init, lost) + [] == Kept(init, lost);
      }
    }
  }

  // ── The copies of one command ──

  /** A player who has joined is refused a seat ever after, under any name. */
  lemma {:induction false} JoinedOnce(log: Log, p: PlayerId, name: string, cmds: seq<GameCommand>, again: string)
    requires Producible(log) && Accepted(log, JoinGame(p, name))
    ensures !Accepted(HandleAll(Handle(log, JoinGame(p, name)), cmds), JoinGame(p, again))
  {
    AcceptedThenRefusedForever(log, JoinGame(p, name), cmds, JoinGame(p, again));
  }

  /** A cell that has been marked is refused ever after, to anybody. */
  lemma {:induction false} MarkedOnce(log: Log, p: PlayerId, at: U64, cmds: seq<GameCommand>, q: PlayerId)
    requires Producible(log) && Accepted(log, PlaceTile(p, at))
    ensures !Accepted(HandleAll(Handle(log, PlaceTile(p, at)), cmds), PlaceTile(q, at))
  {
    AcceptedThenRefusedForever(log, PlaceTile(p, at), cmds, PlaceTile(q, at));
  }

  lemma {:induction false} KeptButOne(a: seq<GameCommand>, c: GameCommand, b: seq<GameCommand>)
    ensures Kept(a + [c] + b, {|a|}) == a + b
  {
    KeptPrefix(a, {|a|}, |a|);
    KeptSnoc(a, {|a|}, c);
    KeptPrefix(b, {}, |b|);
    KeptJoin(a + [c], {|a|}, b, {}, {|a|});
    assert a[..|a|] == a && b[..|b|] == b && a + [] == a;
  }

  /** A join or placement that was accepted at its first delivery may be delivered again,
      at any later time, or not: the log is the same. */
  lemma {:induction false} CopyDoesNotMatter(before: seq<GameCommand>, c: GameCommand, between: seq<GameCommand>, after: seq<GameCommand>)
    requires Accepted(HandleAll([], before), c) && !c.LeaveGame?
    ensures HandleAll([], before + [c] + between + [c] + after) == HandleAll([], before + [c] + between + after)
  {
    hide HandleAll, Handle, Accepted;
    var first := before + [c] + between;
    var run := first + [c] + after;
    KeptButOne(first, c, after);
    assert run[..|before|] == before && run[|before|] == c && run[|first|] == c;
    assert AcceptedAt(run, |before|);
    assert Duplicate(run, |first|);
    DuplicatesDoNotMatter(run, {|first|});
  }

  /** The three deliveries of a client's command: its own, and one for each consumer group. */
  lemma {:induction false} TripleDelivery(before: seq<GameCommand>, c: GameCommand,
                       a: seq<GameCommand>, b: seq<GameCommand>, after: seq<GameCommand>)
    requires Accepted(HandleAll([], before), c) && !c.LeaveGame?
    ensures HandleAll([], before + [c] + a + [c] + b + [c] + after) == HandleAll([], before + [c] + a + b + after)
  {
    hide HandleAll, Handle, Accepted;
    CopyDoesNotMatter(before, c, a + [c] + b, after);
    CopyDoesNotMatter(before, c, a, b + after);
    assert before + [c] + (a + [c] + b) + [c] + after == before + [c] + a + [c] + b + [c] + after;
    assert before + [c] + (a + [c] + b) + after == before + [c] + a + [c] + (b + after);
    assert before + [c] + a + (b + after) == before + [c] + a + b + after;
  }

  // ── Leaves ──

  /** Handling a leave again keeps the state unless a game is on. */
  lemma {:induction false} LeaveChangesStateIffInGame(log: Log, p: PlayerId)
    ensures Hydrate(Handle(log, LeaveGame(p))) == Hydrate(log) <==> Hydrate(log).stage != InGame
  {
    var events := Decide(Hydrate(log), LeaveGame(p)).value;
    HydrateAppend(log, events);
    FoldBatch(Hydrate(log), events);
  }

  lemma {:induction false} TwoJoinsStart(log: Log) returns (cmds: seq<GameCommand>)
    requires Producible(log) && Hydrate(log).stage == Lobby
    ensures Hydrate(HandleAll(log, cmds)).stage == InGame
  {
    hide HasLine;
    var g := ProducibleTells(log);
    var a, b := JoinGame(1, ""), JoinGame(2, "");
    HandleTells(log, g, a);
    var next := if Play(g, a).Success? then Play(g, a).value else g;
    HandleTells(Handle(log, a), next, b);
    cmds := [a] + ([b] + []);
    HandleAllCons(log, a, [b] + []);
    HandleAllCons(Handle(log, a), b, []);
  }

  /** A leave can be redelivered at any later time without changing the state exactly
      when it was first handled outside the lobby. */
  lemma {:induction false} LeaveRedeliverableIff(log: Log, p: PlayerId)
    requires Producible(log)
    ensures
      (forall cmds: seq<GameCommand> ::
         var later := HandleAll(Handle(log, LeaveGame(p)), cmds);
         Hydrate(Handle(later, LeaveGame(p))) == Hydrate(later))
      <==> Hydrate(log).stage != Lobby
  {
    var left := Handle(log, LeaveGame(p));
    var events := Decide(Hydrate(log), LeaveGame(p)).value;
    HydrateAppend(log, events);
    FoldBatch(Hydrate(log), events);
    ProducibleStep(log, LeaveGame(p));
    if Hydrate(log).stage == Lobby {
      var cmds := TwoJoinsStart(left);
      LeaveChangesStateIffInGame(HandleAll(left, cmds), p);
    } else {
      forall cmds: seq<GameCommand>
        ensures var later := HandleAll(left, cmds);
                Hydrate(Handle(later, LeaveGame(p))) == Hydrate(later)
      {
        StageNeverGoesBack(left, cmds);
        LeaveChangesStateIffInGame(HandleAll(left, cmds), p);
      }
    }
  }

  /** Delivery `i` is a leave that finds the game already over. */
  predicate LateLeave(cmds: seq<GameCommand>, i: nat)
    requires i < |cmds|
  {
    cmds[i].LeaveGame? && Hydrate(Before(cmds, i)).stage == Ended
  }

  lemma {:induction false} SameStateSameStep(a: Log, b: Log, cmd: GameCommand)
    requires Hydrate(a) == Hydrate(b)
    ensures Hydrate(Handle(a, cmd)) == Hydrate(Handle(b, cmd))
  {
    if Accepted(a, cmd) {
      HydrateAppend(a, Decide(Hydrate(a), cmd).value);
      HydrateAppend(b, Decide(Hydrate(b), cmd).value);
    }
  }

  lemma {:induction false} DropsInPrefix(cmds: seq<GameCommand>, n: nat, i: nat)
    requires i < n <= |cmds| && (Duplicate(cmds, i) || LateLeave(cmds, i))
    ensures Duplicate(cmds[..n], i) || LateLeave(cmds[..n], i)
  {
    if Duplicate(cmds, i) {
      DuplicateInPrefix(cmds, n, i);
    } else {
      assert cmds[..n][..i] == cmds[..i];
    }
  }

  /** Effectively once: of any run, duplicate joins and placements and leaves after the
      end may be delivered or not, in any combination, and the state is the same. */
  lemma {:induction false} EffectivelyOnce(cmds: seq<GameCommand>, lost: set<nat>)
    requires forall i :: 0 <= i < |cmds| && i in lost ==> Duplicate(cmds, i) || LateLeave(cmds, i)
    ensures Hydrate(HandleAll([], Kept(cmds, lost))) == Hydrate(HandleAll([], cmds))
    decreases |cmds|
  {
    hide Duplicate, Handle, HandleAll, Hydrate;
    if cmds != [] {
      var n := |cmds| - 1;
      var init, kept := cmds[..n], Kept(cmds[..n], lost);
      forall i | 0 <= i < n && i in lost ensures Duplicate(init, i) || LateLeave(init, i) {
        DropsInPrefix(cmds, n, i);
      }
      EffectivelyOnce(init, lost);
      assert cmds == init + [cmds[n]];
      HandleAllSnoc([], init, cmds[n]);
      if n !in lost {
        HandleAllSnoc([], kept, cmds[n]);
        SameStateSameStep(HandleAll([], kept), HandleAll([], init), cmds[n]);
      } else {
        assert kept + [] == kept;
        if Duplicate(cmds, n) {
          DuplicateChangesNothing(cmds, n);
        } else {
          LeaveChangesStateIffInGame(HandleAll([], init), cmds[n].player);
        }
      }
    }
  }

  /** A leave after the end of the game may be delivered or not: the state is the same. */
  lemma {:induction false} LateLeaveDoesNotMatter(before: seq<GameCommand>, p: PlayerId, after: seq<GameCommand>)
    requires Hydrate(HandleAll([], before)).stage == Ended
    ensures Hydrate(HandleAll([], before + [LeaveGame(p)] + after)) == Hydrate(HandleAll([], before + after))
  {
    hide HandleAll, Handle, Hydrate;
    var run := before + [LeaveGame(p)] + after;
    KeptButOne(before, LeaveGame(p), after);
    assert run[..|before|] == before && run[|before|] == LeaveGame(p);
    assert LateLeave(run, |before|);
    EffectivelyOnce(run, {|before|});
  }

  // ── Refusals ──

  /** Of a placement refused out of turn: it is accepted when it is delivered again after
      the opponent has moved elsewhere without ending the game. */
  lemma {:induction false} RefusedMayBeAcceptedLater(log: Log, pos: Position, first: U64, second: U64)
    requires Tells(log, Playing(pos)) && Settle(pos.Mark(first)).Playing?
    requires first in CELLS && first !in pos.xs + pos.os
    requires second in CELLS && second !in pos.xs + pos.os && second != first
    ensures
      var early := PlaceTile(pos.Player(pos.turn.Other()), second);
      var move := PlaceTile(pos.Player(pos.turn), first);
      && !Accepted(log, early)
      && Accepted(Handle(Handle(log, early), move), early)
  {
    hide HasLine;
    var early := PlaceTile(pos.Player(pos.turn.Other()), second);
    var move := PlaceTile(pos.Player(pos.turn), first);
    HandleTells(log, Playing(pos), early);
    HandleTells(log, Playing(pos), move);
    HandleTells(Handle(log, move), Settle(pos.Mark(first)), early);
  }

  /** The opponent of the player to move can be made to wait: some cell other than `at` can
      be marked without ending the game. */
  predicate CanPassTurn(pos: Position, at: nat) {
    exists c :: c in CELLS && c !in pos.xs + pos.os && c != at && Settle(pos.Mark(c)).Playing?
  }

  /** A placement that can be accepted now or later: before the game, by anybody; during
      it, on a free cell, by the player to move, or by the other one if the turn can pass. */
  predicate Live(g: Game, p: PlayerId, at: nat) {
    at in CELLS &&
    match g
    case Waiting(_) => p != NOBODY
    case Playing(pos) =>
      at !in pos.xs + pos.os &&
      (p == pos.Player(pos.turn) || (p == pos.Player(pos.turn.Other()) && CanPassTurn(pos, at)))
    case Over(_, _) => false
  }

  lemma {:induction false} DeadStaysDead(g: Game, p: PlayerId, at: nat, cmd: GameCommand)
    requires g.WellFormed() && Play(g, cmd).Success? && !Live(g, p, at)
    ensures !Live(Play(g, cmd).value, p, at)
  {
    hide HasLine;
    if cmd.PlaceTile? {
      if Settle(g.pos.Mark(cmd.at)).Playing? {
        PlacementKeepsDead(g.pos, p, at, cmd.at);
      }
    } else {
      hide Settle;
    }
  }

  lemma {:induction false} PlacementKeepsDead(pos: Position, p: PlayerId, at: nat, c: nat)
    requires c in CELLS && c !in pos.xs + pos.os && Settle(pos.Mark(c)).Playing?
    requires !Live(Playing(pos), p, at)
    ensures !Live(Playing(pos.Mark(c)), p, at)
  {
    hide HasLine, Settle;
  }

  lemma {:induction false} DeadForever(log: Log, g: Game, p: PlayerId, at: U64, cmds: seq<GameCommand>)
    requires Tells(log, g) && !Live(g, p, at)
    ensures !Accepted(HandleAll(log, cmds), PlaceTile(p, at))
    decreases |cmds|
  {
    hide Live, Tells, Handle;
    if cmds == [] {
      DeadIsRefused(log, g, p, at);
    } else {
      HandleTells(log, g, cmds[0]);
      TellsWellFormed(log, g);
      if Play(g, cmds[0]).Success? {
        DeadStaysDead(g, p, at, cmds[0]);
        DeadForever(Handle(log, cmds[0]), Play(g, cmds[0]).value, p, at, cmds[1..]);
      } else {
        DeadForever(log, g, p, at, cmds[1..]);
      }
    }
  }

  lemma {:induction false} DeadIsRefused(log: Log, g: Game, p: PlayerId, at: U64)
    requires Tells(log, g) && !Live(g, p, at)
    ensures !Accepted(log, PlaceTile(p, at))
  {
    hide Handle, Decide;
    HandleTells(log, g, PlaceTile(p, at));
  }

  lemma {:induction false} LiveInPlay(log: Log, pos: Position, p: PlayerId, at: U64) returns (cmds: seq<GameCommand>)
    requires Tells(log, Playing(pos)) && Live(Playing(pos), p, at)
    ensures Accepted(HandleAll(log, cmds), PlaceTile(p, at))
  {
    hide HasLine, Tells;
    if p == pos.Player(pos.turn) {
      cmds := [];
      HandleTells(log, Playing(pos), PlaceTile(p, at));
    } else {
      var c :| c in CELLS && c !in pos.xs + pos.os && c != at && Settle(pos.Mark(c)).Playing?;
      RefusedMayBeAcceptedLater(log, pos, c, at);
      var move := PlaceTile(pos.Player(pos.turn), c);
      cmds := [PlaceTile(p, at)] + ([move] + []);
      HandleAllCons(log, PlaceTile(p, at), [move] + []);
      HandleAllCons(Handle(log, PlaceTile(p, at)), move, []);
    }
  }

  lemma {:induction false} OneMarkPlays(x: PlayerId, o: PlayerId, c: nat)
    requires c in CELLS
    ensures Settle(Opening(x, o).Mark(c)).Playing?
  {
    LinesAreThePatterns();
    assert forall k: nat | k < 3 :: 3 * k in Row(k) && 3 * k + 1 in Row(k) && k in Column(k) && k + 3 in Column(k);
    assert Opening(x, o).Mark(c).xs == {c};
    assert 0 in CELLS && 1 in CELLS;
  }

  lemma {:induction false} OpeningIsLive(x: PlayerId, o: PlayerId, p: PlayerId, at: nat)
    requires at in CELLS && (p == x || p == o)
    ensures Live(Playing(Opening(x, o)), p, at)
  {
    hide HasLine, Settle;
    var c := if at == 0 then 1 else 0;
    assert c in CELLS && c != at;
    OneMarkPlays(x, o, c);
  }

  lemma {:induction false} LiveInLobby(log: Log, g: Game, p: PlayerId, at: U64) returns (cmds: seq<GameCommand>)
    requires Tells(log, g) && g.Waiting? && Live(g, p, at)
    ensures Accepted(HandleAll(log, cmds), PlaceTile(p, at))
  {
    hide HasLine, Tells, Handle;
    TellsWellFormed(log, g);
    var a, b := JoinGame(p, ""), JoinGame(if p == 1 then 2 else 1, "");
    HandleTells(log, g, a);
    var next := if Play(g, a).Success? then Play(g, a).value else g;
    var after := Handle(log, a);
    if next.Playing? {
      OpeningIsLive(next.pos.x, next.pos.o, p, at);
      cmds := LiveInPlay(after, next.pos, p, at);
    } else {
      HandleTells(after, next, b);
      var started := Play(next, b).value;
      OpeningIsLive(started.pos.x, started.pos.o, p, at);
      var rest := LiveInPlay(Handle(after, b), started.pos, p, at);
      cmds := [b] + rest;
      HandleAllCons(after, b, rest);
    }
    HandleAllCons(log, a, cmds);
    cmds := [a] + cmds;
  }

  /** When a placement, refused or not, can still be accepted if it is delivered again. */
  lemma {:induction false} PlacementAcceptedLaterIff(log: Log, g: Game, p: PlayerId, at: U64)
    requires Tells(log, g)
    ensures (exists cmds :: Accepted(HandleAll(log, cmds), PlaceTile(p, at))) <==> Live(g, p, at)
  {
    if Live(g, p, at) {
      if g.Waiting? {
        var cmds := LiveInLobby(log, g, p, at);
      } else {
        var cmds := LiveInPlay(log, g.pos, p, at);
      }
    } else {
      forall cmds ensures !Accepted(HandleAll(log, cmds), PlaceTile(p, at)) {
        DeadForever(log, g, p, at, cmds);
      }
    }
  }

  /** A refused join is refused for good. */
  lemma {:induction false} JoinAcceptedLaterIff(log: Log, p: PlayerId, name: string)
    requires Producible(log)
    ensures (exists cmds :: Accepted(HandleAll(log, cmds), JoinGame(p, name))) <==> Accepted(log, JoinGame(p, name))
  {
    HandleAllNone(log);
    if !Accepted(log, JoinGame(p, name)) {
      ReachableStatesKeepInvariant(log);
      forall cmds ensures !Accepted(HandleAll(log, cmds), JoinGame(p, name)) {
        SpentForever(log, cmds, JoinGame(p, name));
      }
    }
  }
}
