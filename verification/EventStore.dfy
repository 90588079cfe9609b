/** The append-only in-process event log (store/src/store.rs). Each method is one critical
    section of the source's mutex. */
module Store {
  import opened Types

  datatype GameEventEnvelope = GameEventEnvelope(
    commandId: Option<CommandId>,
    sequence: nat,
    gameId: GameId,
    event: Event)

  /** The block of envelopes that one call appends at position `start`. */
  function Block(gameId: GameId, start: nat, events: Log, commandId: Option<CommandId>): (r: seq<GameEventEnvelope>)
    ensures |r| == |events|
  {
    seq(|events|, i requires 0 <= i < |events| => GameEventEnvelope(commandId, start + i, gameId, events[i]))
  }

  function EventsIn(log: seq<GameEventEnvelope>): (r: Log)
    ensures |r| == |log| && forall i :: 0 <= i < |log| ==> r[i] == log[i].event
  {
    seq(|log|, i requires 0 <= i < |log| => log[i].event)
  }

  ghost predicate Sequenced(gameId: GameId, log: seq<GameEventEnvelope>) {
    forall i :: 0 <= i < |log| ==> log[i].sequence == i && log[i].gameId == gameId
  }

  lemma {:induction false} EventsInAppend(log: seq<GameEventEnvelope>, gameId: GameId, events: Log, commandId: Option<CommandId>)
    ensures EventsIn(log + Block(gameId, |log|, events, commandId)) == EventsIn(log) + events
  {
  }

  class EventStore {
    const gameId: GameId
    var log: seq<GameEventEnvelope>

    ghost predicate Valid()
      reads this
    {
      Sequenced(gameId, log)
    }

    constructor (gameId: GameId)
      ensures Valid() && log == [] && this.gameId == gameId
    {
      this.gameId := gameId;
      log := [];
    }

    function Events(): Log
      reads this
    {
      EventsIn(log)
    }

    function Snapshot(): seq<GameEventEnvelope>
      reads this
    {
      log
    }

    method Append(event: Event, commandId: Option<CommandId>) returns (envelope: GameEventEnvelope)
      requires Valid()
      modifies this
      ensures Valid()
      ensures [envelope] == Block(gameId, |old(log)|, [event], commandId)
      ensures log == old(log) + [envelope]
      ensures Events() == old(Events()) + [event]
    {
      envelope := GameEventEnvelope(commandId, |log|, gameId, event);
      log := log + [envelope];
    }

    method AppendBatch(events: Log, commandId: Option<CommandId>) returns (envelopes: seq<GameEventEnvelope>)
      requires Valid()
      modifies this
      ensures Valid()
      ensures envelopes == Block(gameId, |old(log)|, events, commandId)
      ensures log == old(log) + envelopes
      ensures Events() == old(Events()) + events
    {
      envelopes := [];
      for n := 0 to |events|
        invariant Valid()
        invariant envelopes == Block(gameId, |old(log)|, events[..n], commandId)
        invariant log == old(log) + envelopes
      {
        var envelope := GameEventEnvelope(commandId, |log|, gameId, events[n]);
        log := log + [envelope];
        envelopes := envelopes + [envelope];
      }
      assert events[..|events|] == events;
      EventsInAppend(old(log), gameId, events, commandId);
    }
  }

  // ── Interleavings of calls through shared handles ──

  /** One call of `append` or `append_batch`; the mutex makes each atomic. */
  datatype Call = Call(events: Log, commandId: Option<CommandId>)

  function Run(gameId: GameId, calls: seq<Call>): seq<GameEventEnvelope> {
    if calls == [] then []
    else
      var before := Run(gameId, calls[..|calls| - 1]);
      var call := calls[|calls| - 1];
      before + Block(gameId, |before|, call.events, call.commandId)
  }

  lemma {:induction false} RunIsSequenced(gameId: GameId, calls: seq<Call>)
    ensures Sequenced(gameId, Run(gameId, calls))
    decreases |calls|
  {
    if calls != [] {
      RunIsSequenced(gameId, calls[..|calls| - 1]);
    }
  }

  lemma {:induction false} RunGrows(gameId: GameId, calls: seq<Call>, i: nat)
    requires i <= |calls|
    ensures Run(gameId, calls[..i]) <= Run(gameId, calls)
    decreases |calls|
  {
    if i == |calls| {
      assert calls[..i] == calls;
    } else {
      RunGrows(gameId, calls[..|calls| - 1], i);
      assert calls[..|calls| - 1][..i] == calls[..i];
    }
  }

  /** Whatever the interleaving: the log stays sequenced, and each call's events stay one
      contiguous block, where and as they were returned to that call. */
  lemma {:induction false} BlocksStay(gameId: GameId, calls: seq<Call>, i: nat)
    requires i < |calls|
    ensures
      var log := Run(gameId, calls);
      var start := |Run(gameId, calls[..i])|;
      var block := Block(gameId, start, calls[i].events, calls[i].commandId);
      && Sequenced(gameId, log)
      && start + |block| <= |log|
      && log[start..start + |block|] == block
  {
    hide Block, Sequenced;
    RunIsSequenced(gameId, calls);
    RunGrows(gameId, calls, i + 1);
    assert calls[..i + 1][..i] == calls[..i];
    var before := Run(gameId, calls[..i]);
    var block := Block(gameId, |before|, calls[i].events, calls[i].commandId);
    assert Run(gameId, calls[..i + 1]) == before + block;
  }
}
