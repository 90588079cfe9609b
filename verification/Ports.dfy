/** The ports of the game and the adapters used here (store/src/ports.rs,
    server/src/adapters/renet.rs). */
module Ports {
  import opened Types
  import opened Store
  import opened History

  datatype BrokerMessage =
    | Command(envelope: CommandEnvelope)
    | EventBatch(envelopes: seq<GameEventEnvelope>)

  /** What reached the broker of a log: envelopes of the log, each at most once and in
      order of their sequence numbers, which are the keys they are published under. */
  ghost predicate PartOf(published: seq<GameEventEnvelope>, log: seq<GameEventEnvelope>) {
    && (forall i :: 0 <= i < |published| ==>
          published[i].sequence < |log| && log[published[i].sequence] == published[i])
    && (forall i, j :: 0 <= i < j < |published| ==> published[i].sequence < published[j].sequence)
  }

  /** `sent` went out after `before`: each record may have been lost by itself, but only by a
      lossy publisher. */
  ghost predicate Reached<T>(before: seq<T>, sent: seq<T>, after: seq<T>, lossy: bool) {
    && (!lossy ==> after == before + sent)
    && exists lost: set<nat> :: after == before + Kept(sent, lost)
  }

  lemma {:induction false} ReachedNothing<T>(before: seq<T>, lossy: bool)
    ensures Reached(before, [], before, lossy)
  {
    assert before + Kept<T>([], {}) == before;
  }

  lemma {:induction false} ReachedOne<T>(before: seq<T>, x: T, arrived: bool, lossy: bool)
    requires arrived || lossy
    ensures Reached(before, [x], if arrived then before + [x] else before, lossy)
  {
    var lost := if arrived then {} else {0};
    KeptSnoc([], lost, x);
    assert [] + [x] == [x] && before + [] == before;
    assert Kept([x], lost) == if arrived then [x] else [];
  }

  lemma {:induction false} ReachedMore<T>(a: seq<T>, first: seq<T>, b: seq<T>, second: seq<T>, c: seq<T>, lossy: bool)
    requires Reached(a, first, b, lossy) && Reached(b, second, c, lossy)
    ensures Reached(a, first + second, c, lossy)
  {
    hide Kept;
    var k: set<nat> :| b == a + Kept(first, k);
    var l: set<nat> :| c == b + Kept(second, l);
    var both := KeptAppend(first, k, second, l);
    assert a + Kept(first, k) + Kept(second, l) == a + (Kept(first, k) + Kept(second, l));
    assert c == a + Kept(first + second, both);
    assert !lossy ==> c == a + (first + second);
  }

  /** A publisher. The lossy one stands for the Redpanda adapter, which logs a failed send
      and goes on; the other is the capturing publisher of the test suite. */
  class Publisher {
    const lossy: bool
    var published: seq<GameEventEnvelope>
    var commands: seq<CommandEnvelope>

    constructor (lossy: bool)
      ensures this.lossy == lossy && published == [] && commands == []
    {
      this.lossy := lossy;
      published, commands := [], [];
    }

    method Publish(msg: BrokerMessage)
      modifies this
      ensures msg.Command? ==>
                published == old(published) && Reached(old(commands), [msg.envelope], commands, lossy)
      ensures msg.EventBatch? ==>
                commands == old(commands) && Reached(old(published), msg.envelopes, published, lossy)
    {
      hide Reached;
      match msg
      case Command(envelope) =>
        var sent := true;
        if lossy {
          sent := *;
        }
        ReachedOne(commands, envelope, sent, lossy);
        if sent {
          commands := commands + [envelope];
        }
      case EventBatch(envelopes) =>
        ReachedNothing(published, lossy);
        for i := 0 to |envelopes|
          invariant commands == old(commands)
          invariant Reached(old(published), envelopes[..i], published, lossy)
        {
          var sent := true;
          if lossy {
            sent := *;
          }
          ghost var before := published;
          ReachedOne(before, envelopes[i], sent, lossy);
          if sent {
            published := published + [envelopes[i]];
          }
          ReachedMore(old(published), envelopes[..i], before, [envelopes[i]], published, lossy);
          assert envelopes[..i + 1] == envelopes[..i] + [envelopes[i]];
        }
        assert envelopes[..|envelopes|] == envelopes;
    }
  }

  lemma {:induction false} PartOfOne(published: seq<GameEventEnvelope>, log: seq<GameEventEnvelope>, next: GameEventEnvelope)
    requires PartOf(published, log) && next.sequence == |log|
    ensures PartOf(published, log + [next]) && PartOf(published + [next], log + [next])
  {
  }

  /** Losing records of a batch that continues the log keeps what was published part of it. */
  lemma {:induction false} PartOfExtends(gameId: GameId, published: seq<GameEventEnvelope>, log: seq<GameEventEnvelope>,
                                         block: seq<GameEventEnvelope>, lost: set<nat>)
    requires PartOf(published, log) && Sequenced(gameId, log + block)
    ensures PartOf(published + Kept(block, lost), log + block)
    decreases |block|
  {
    if block == [] {
      assert published + [] == published && log + [] == log;
    } else {
      hide PartOf;
      var n := |block| - 1;
      assert log + block[..n] == (log + block)[..|log| + n];
      assert log + block == (log + block[..n]) + [block[n]];
      PartOfExtends(gameId, published, log, block[..n], lost);
      var before := published + Kept(block[..n], lost);
      assert block[n] == (log + block)[|log| + n];
      PartOfOne(before, log + block[..n], block[n]);
      assert published + Kept(block, lost) == if n in lost then before else before + [block[n]];
    }
  }

  lemma {:induction false} ReachedKeepsPart(gameId: GameId, before: seq<GameEventEnvelope>, log: seq<GameEventEnvelope>,
                         block: seq<GameEventEnvelope>, after: seq<GameEventEnvelope>, lossy: bool)
    requires PartOf(before, log) && Sequenced(gameId, log + block) && Reached(before, block, after, lossy)
    ensures PartOf(after, log + block)
    ensures !lossy ==> after == before + block
  {
    hide PartOf, Sequenced, Kept;
    var lost: set<nat> :| after == before + Kept(block, lost);
    PartOfExtends(gameId, before, log, block, lost);
  }

  type Streams = map<ClientId, Log>

  /** Every connected client is sent `events`. */
  function Sent(streams: Streams, events: Log): Streams {
    map c | c in streams :: streams[c] + events
  }

  lemma {:induction false} SentNothing(streams: Streams)
    ensures Sent(streams, []) == streams
  {
    forall c | c in streams ensures Sent(streams, [])[c] == streams[c] {
      assert streams[c] + [] == streams[c];
    }
  }

  lemma {:induction false} SentTwice(streams: Streams, a: Log, b: Log)
    ensures Sent(Sent(streams, a), b) == Sent(streams, a + b)
  {
    forall c | c in streams ensures Sent(Sent(streams, a), b)[c] == Sent(streams, a + b)[c] {
      assert streams[c] + a + b == streams[c] + (a + b);
    }
  }

  /** Reliable, ordered streams to the connected clients. Only a faulty broadcaster can
      refuse a message; a message for a client that is not connected is lost. */
  class Broadcaster {
    const faulty: bool
    var streams: Streams

    constructor (faulty: bool)
      ensures this.faulty == faulty && streams == map[]
    {
      this.faulty := faulty;
      streams := map[];
    }

    method Broadcast(event: Event) returns (ok: bool)
      modifies this
      ensures streams == if ok then Sent(old(streams), [event]) else old(streams)
      ensures !faulty ==> ok
    {
      ok := true;
      if faulty {
        ok := *;
      }
      if ok {
        streams := Sent(streams, [event]);
      }
    }

    method SendTo(client: ClientId, event: Event) returns (ok: bool)
      modifies this
      ensures streams ==
              if ok && client in old(streams) then old(streams)[client := old(streams)[client] + [event]]
              else old(streams)
      ensures !faulty ==> ok
    {
      ok := true;
      if faulty {
        ok := *;
      }
      if ok && client in streams {
        streams := streams[client := streams[client] + [event]];
      }
    }
  }

  /** What the receiving end of an acknowledgement sees. */
  datatype Signal = Pending | Acked | Dropped

  /** A one-shot acknowledgement: it is used up by acknowledging or by being dropped. */
  class AckHandle {
    var signal: Signal

    constructor ()
      ensures signal == Pending
    {
      signal := Pending;
    }

    method Ack()
      requires signal == Pending
      modifies this
      ensures signal == Acked
    {
      signal := Acked;
    }

    method Drop()
      requires signal == Pending
      modifies this
      ensures signal == Dropped
    {
      signal := Dropped;
    }
  }
}
