/** What a log records: the joins, starts, placements and endings it contains. */
module History {
  import opened Types

  /** The elements but for those at the positions in `lost`. */
  function Kept<T>(xs: seq<T>, lost: set<nat>): seq<T> {
    if xs == [] then []
    else
      var n := |xs| - 1;
      Kept(xs[..n], lost) + if n in lost then [] else [xs[n]]
  }

  lemma {:induction false} KeptSnoc<T>(xs: seq<T>, lost: set<nat>, x: T)
    ensures Kept(xs + [x], lost) == Kept(xs, lost) + if |xs| in lost then [] else [x]
  {
    assert (xs + [x])[..|xs|] == xs;
  }

  lemma {:induction false} KeptPrefix<T>(xs: seq<T>, lost: set<nat>, k: nat)
    requires k <= |xs| && forall i :: 0 <= i < |xs| ==> (i in lost <==> k <= i)
    ensures Kept(xs, lost) == xs[..k]
  {
    if xs != [] {
      var n := |xs| - 1;
      KeptPrefix(xs[..n], lost, if k <= n then k else n);
      assert k > n ==> xs[..k] == xs[..n] + [xs[n]];
      assert k <= n ==> xs[..n][..k] == xs[..k];
    }
  }

  function Interval(lo: nat, hi: nat): (r: set<nat>)
    requires lo <= hi
    ensures forall i :: i in r <==> lo <= i < hi
    decreases hi - lo
  {
    if lo == hi then {} else {lo} + Interval(lo + 1, hi)
  }

  lemma {:induction false} KeptJoin<T>(xs: seq<T>, lost: set<nat>, ys: seq<T>, more: set<nat>, both: set<nat>)
    requires forall i :: 0 <= i < |xs| ==> (i in both <==> i in lost)
    requires forall i :: 0 <= i < |ys| ==> (|xs| + i in both <==> i in more)
    ensures Kept(xs + ys, both) == Kept(xs, lost) + Kept(ys, more)
    decreases |xs| + |ys|
  {
    if ys != [] {
      var n := |ys| - 1;
      KeptJoin(xs, lost, ys[..n], more, both);
      assert xs + ys == (xs + ys[..n]) + [ys[n]];
      KeptSnoc(xs + ys[..n], both, ys[n]);
    } else if xs != [] {
      var n := |xs| - 1;
      KeptJoin(xs[..n], lost, ys, more, both);
      assert xs + ys == xs && xs[..n] + ys == xs[..n];
    }
  }

  lemma {:induction false} KeptAppend<T>(xs: seq<T>, lost: set<nat>, ys: seq<T>, more: set<nat>) returns (both: set<nat>)
    ensures Kept(xs + ys, both) == Kept(xs, lost) + Kept(ys, more)
  {
    both := (set i | i in lost && i < |xs|) + (set i | i in more :: |xs| + i);
    KeptJoin(xs, lost, ys, more, both);
  }

  /** The values among raw messages; one that does not decode is skipped. */
  function Decoded<T>(raw: seq<Option<T>>): seq<T> {
    if raw == [] then []
    else
      var n := |raw| - 1;
      Decoded(raw[..n]) + if raw[n].Some? then [raw[n].value] else []
  }

  lemma {:induction false} DecodedNone<T>()
    ensures Decoded<T>([]) == []
  {
  }

  lemma {:induction false} DecodedSnoc<T>(raw: seq<Option<T>>, r: Option<T>)
    ensures Decoded(raw + [r]) == if r.Some? then Decoded(raw) + [r.value] else Decoded(raw)
  {
    assert (raw + [r])[..|raw|] == raw;
    assert Decoded(raw) + [] == Decoded(raw);
  }

  /** `filter_map` over a log. */
  function Collect<T>(pick: GameEvent -> seq<T>, log: seq<GameEvent>): seq<T> {
    if log == [] then [] else pick(log[0]) + Collect(pick, log[1..])
  }

  lemma {:induction false} CollectAppend<T>(pick: GameEvent -> seq<T>, a: seq<GameEvent>, b: seq<GameEvent>)
    ensures Collect(pick, a + b) == Collect(pick, a) + Collect(pick, b)
  {
    if a == [] {
      assert a + b == b;
    } else {
      CollectAppend(pick, a[1..], b);
      assert (a + b)[1..] == a[1..] + b && (a + b)[0] == a[0];
      var head, middle, tail := pick(a[0]), Collect(pick, a[1..]), Collect(pick, b);
      assert head + (middle + tail) == head + middle + tail;
    }
  }

  lemma {:induction false} CollectNothing<T>(pick: GameEvent -> seq<T>, log: seq<GameEvent>)
    ensures Collect(pick, log) == [] <==> forall e :: e in log ==> pick(e) == []
  {
    if log != [] {
      CollectNothing(pick, log[1..]);
      assert log == [log[0]] + log[1..];
    }
  }

  function JoinIn(e: GameEvent): seq<(PlayerId, string)> {
    if e.PlayerJoined? then [(e.player, e.name)] else []
  }

  function JoinerIn(e: GameEvent): seq<PlayerId> {
    if e.PlayerJoined? then [e.player] else []
  }

  function StarterIn(e: GameEvent): seq<PlayerId> {
    if e.GameStarted? then [e.goesFirst] else []
  }

  function CellIn(e: GameEvent): seq<nat> {
    if e.TilePlaced? then [e.at] else []
  }

  function PlacerIn(c: nat): GameEvent -> seq<PlayerId> {
    (e: GameEvent) => if e.TilePlaced? && e.at == c then [e.player] else []
  }

  function EndingIn(e: GameEvent): seq<EndGameReason> {
    if e.GameEnded? then [e.reason] else []
  }

  function Joins(log: seq<GameEvent>): seq<(PlayerId, string)> { Collect(JoinIn, log) }
  function Joiners(log: seq<GameEvent>): seq<PlayerId> { Collect(JoinerIn, log) }
  function Starters(log: seq<GameEvent>): seq<PlayerId> { Collect(StarterIn, log) }
  function Placements(log: seq<GameEvent>): seq<nat> { Collect(CellIn, log) }
  function PlacersAt(log: seq<GameEvent>, c: nat): seq<PlayerId> { Collect(PlacerIn(c), log) }
  function Endings(log: seq<GameEvent>): seq<EndGameReason> { Collect(EndingIn, log) }

  lemma {:induction false} JoinsNameJoiners(log: seq<GameEvent>)
    ensures |Joins(log)| == |Joiners(log)|
    ensures forall i :: 0 <= i < |Joins(log)| ==> Joins(log)[i].0 == Joiners(log)[i]
  {
    if log != [] {
      JoinsNameJoiners(log[1..]);
    }
  }
}
