/**
 * The fan-out half of a refresh: once a player's tracked value has changed
 * and been written, one message goes to the channel of every guild that
 * watches the player, skipping channels the client cannot resolve.
 */
module Notify {
  import opened Wrappers
  import opened Store

  /** One observable step of a refresh, in the order it happens. */
  datatype Effect<N> =
    | Persist(player: int)                                          // the store write for a changed player
    | Send(channel: int, player: int, user: Option<int>, note: N)   // one notification message
    | Close                                                         // the API session is closed

  /** What a watch-list command answers, before rendering. */
  datatype Reply =
    | Watching(started: bool, player: Player)
    | Unwatched(stopped: bool, player: Player)
    | Notice(text: string)

  /** The leading words of the answer to an add or remove command. */
  function Action(r: Reply): string {
    match r
    case Watching(started, _) => if started then "Started watching" else "Already watching"
    case Unwatched(stopped, _) => if stopped then "Stopped watching" else "Wasn't watching"
    case Notice(text) => text
  }

  /**
   * The channel loop of `update_player`: one message per joined row whose
   * channel resolves, in row order; rows whose channel does not resolve are
   * skipped.
   */
  function Deliveries<N>(rows: seq<SpectatorChannel>, resolves: set<int>, player: int, note: N): (r: seq<Effect<N>>)
    ensures |r| <= |rows|
    ensures forall e :: e in r ==> e.Send? && e.player == player && e.note == note && e.channel in resolves
  {
    if rows == [] then []
    else
      var row := rows[|rows| - 1];
      Deliveries(rows[..|rows| - 1], resolves, player, note)
        + (if row.channel in resolves then [Send(row.channel, player, row.user, note)] else [])
  }

  lemma {:induction false} DeliveriesAppend<N>(a: seq<SpectatorChannel>, b: seq<SpectatorChannel>, resolves: set<int>, player: int, note: N)
    ensures Deliveries(a + b, resolves, player, note) == Deliveries(a, resolves, player, note) + Deliveries(b, resolves, player, note)
    decreases |b|
  {
    if b == [] {
      assert a + b == a;
    } else {
      var ab := a + b;
      assert ab[..|ab| - 1] == a + b[..|b| - 1];
      assert ab[|ab| - 1] == b[|b| - 1];
      DeliveriesAppend(a, b[..|b| - 1], resolves, player, note);
    }
  }

  /** A row whose channel does not resolve sends nothing and stops nothing: the rows after it are still delivered. */
  lemma DeliveriesSkip<N>(before: seq<SpectatorChannel>, row: SpectatorChannel, after: seq<SpectatorChannel>,
                          resolves: set<int>, player: int, note: N)
    requires row.channel !in resolves
    ensures Deliveries(before + [row] + after, resolves, player, note)
         == Deliveries(before, resolves, player, note) + Deliveries(after, resolves, player, note)
  {
    DeliveriesAppend(before + [row], after, resolves, player, note);
    DeliveriesAppend(before, [row], resolves, player, note);
    assert [row][..0] == [];
  }

  function CountResolving(rows: seq<SpectatorChannel>, resolves: set<int>): nat {
    if rows == [] then 0
    else CountResolving(rows[..|rows| - 1], resolves) + (if rows[|rows| - 1].channel in resolves then 1 else 0)
  }

  /**
   * Exactly the rows whose channel resolves get a message, one each, with
   * that row's owner tag.
   */
  lemma {:induction false} DeliveriesExactly<N>(rows: seq<SpectatorChannel>, resolves: set<int>, player: int, note: N)
    ensures |Deliveries(rows, resolves, player, note)| == CountResolving(rows, resolves)
    ensures forall k :: 0 <= k < |rows| && rows[k].channel in resolves ==>
      Send(rows[k].channel, player, rows[k].user, note) in Deliveries(rows, resolves, player, note)
    ensures forall e :: e in Deliveries(rows, resolves, player, note) ==>
      exists k :: 0 <= k < |rows| && rows[k].channel == e.channel && rows[k].user == e.user
    decreases |rows|
  {
    if rows != [] {
      var front := rows[..|rows| - 1];
      var last := rows[|rows| - 1];
      DeliveriesExactly(front, resolves, player, note);
      var d := Deliveries(rows, resolves, player, note);
      var df := Deliveries(front, resolves, player, note);
      forall k | 0 <= k < |rows| && rows[k].channel in resolves
        ensures Send(rows[k].channel, player, rows[k].user, note) in d
      {
        if k < |rows| - 1 {
          assert rows[k] == front[k];
        }
      }
      forall e | e in d ensures exists k :: 0 <= k < |rows| && rows[k].channel == e.channel && rows[k].user == e.user {
        if e in df {
          var k :| 0 <= k < |front| && front[k].channel == e.channel && front[k].user == e.user;
          assert rows[k] == front[k];
        } else {
          assert rows[|rows| - 1].channel == e.channel;
        }
      }
    }
  }

  /** The channel loop as code: `rows` visited in order, unresolved channels skipped. */
  method DeliverAll<N>(rows: seq<SpectatorChannel>, resolves: set<int>, player: int, note: N) returns (sent: seq<Effect<N>>)
    ensures sent == Deliveries(rows, resolves, player, note)
  {
    sent := [];
    var i := 0;
    while i < |rows|
      invariant 0 <= i <= |rows|
      invariant sent == Deliveries(rows[..i], resolves, player, note)
    {
      assert rows[..i + 1][..i] == rows[..i];
      var row := rows[i];
      if row.channel in resolves {
        sent := sent + [Send(row.channel, player, row.user, note)];
      }
      i := i + 1;
    }
    assert rows[..|rows|] == rows;
  }

  /** The effects of a sweep, one batch per player in order, laid end to end. */
  function Flatten<T>(batches: seq<seq<T>>): seq<T> {
    if batches == [] then []
    else Flatten(batches[..|batches| - 1]) + batches[|batches| - 1]
  }

  lemma {:induction false} FlattenAppend<T>(a: seq<seq<T>>, b: seq<seq<T>>)
    ensures Flatten(a + b) == Flatten(a) + Flatten(b)
    decreases |b|
  {
    if b == [] {
      assert a + b == a;
    } else {
      var ab := a + b;
      assert ab[..|ab| - 1] == a + b[..|b| - 1];
      assert ab[|ab| - 1] == b[|b| - 1];
      FlattenAppend(a, b[..|b| - 1]);
    }
  }

  /** Whatever the flattened batches hold comes from one of the batches. */
  lemma {:induction false} FlattenMembers<T>(batches: seq<seq<T>>, x: T)
    requires x in Flatten(batches)
    ensures exists i :: 0 <= i < |batches| && x in batches[i]
    decreases |batches|
  {
    var n := |batches| - 1;
    if x !in batches[n] {
      FlattenMembers(batches[..n], x);
      var i :| 0 <= i < n && x in batches[..n][i];
      assert x in batches[i];
    }
  }

  lemma AppendAssoc<T>(a: seq<T>, b: seq<T>, c: seq<T>)
    ensures a + b + c == a + (b + c)
  {
  }
}
