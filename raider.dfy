/**
 * The raider.io plugin: players are World of Warcraft characters keyed by
 * region, realm and name, their tracked value is the mythic+ rating, and a
 * refresh sweep notifies watching guilds when a rating changes.
 */
module Raider {
  import opened Wrappers
  import opened Strings
  import opened Schemas
  import opened Store
  import opened Commands
  import opened Notify

  /** What a raider.io lookup yields that the bot keeps: the canonical names and the computed rating. */
  datatype Profile = Profile(region: string, realm: string, name: string, rating: real)

  /** What a rating notification reports: the stored rating and the new one. */
  datatype RatingChange = RatingChange(previous: Value, current: real)

  function Rating(p: Player): Value {
    if "rating" in p.fields then p.fields["rating"] else Null
  }

  /** The keyword arguments of `set_rating`'s UPDATE. */
  function RatingUpdate(rating: real): Fields {
    map["rating" := Float(rating)]
  }

  /** `get_player(region=..., realm=..., name=...)` criteria. */
  function KeyCriteria(region: string, realm: string, name: string): Fields {
    map["region" := Text(region), "realm" := Text(realm), "name" := Text(name)]
  }

  /** The keyword arguments `command_add` creates a player from. */
  function ProfileFields(p: Profile): Fields {
    map["region" := Text(p.region), "realm" := Text(p.realm), "name" := Text(p.name), "rating" := Float(p.rating)]
  }

  lemma RaiderNames()
    ensures RaiderSchema.Names() == {"region", "realm", "name", "rating"}
    ensures RaiderSchema.WellFormed()
  {
    SchemasWellFormed();
    assert RaiderSchema.columns[0].name == "region";
    assert RaiderSchema.columns[1].name == "realm";
    assert RaiderSchema.columns[2].name == "name";
    assert RaiderSchema.columns[3].name == "rating";
  }

  /** A lookup by natural key never fails: the criteria are non-empty and name real columns. */
  lemma KeyLookupOk(players: seq<Player>, region: string, realm: string, name: string)
    ensures Find(RaiderSchema, players, KeyCriteria(region, realm, name)).Ok?
  {
    RaiderNames();
    assert "region" in KeyCriteria(region, realm, name);
  }

  /** Creating from a profile never raises: every column is given, nothing else, each of its kind. */
  lemma ProfileFieldsFit(p: Profile)
    ensures ValuesFit(RaiderSchema, ProfileFields(p))
    ensures ProfileFields(p).Keys == RaiderSchema.Names()
  {
    RaiderNames();
  }

  /**
   * `set_rating(id, rating)` changes only the rating, and only of the row
   * with that id; an unknown id changes nothing.
   */
  lemma SetRatingOnly(players: seq<Player>, id: int, rating: real)
    ensures |Overwrite(players, id, RatingUpdate(rating))| == |players|
    ensures forall k :: 0 <= k < |players| && players[k].id != id ==> Overwrite(players, id, RatingUpdate(rating))[k] == players[k]
    ensures forall k :: 0 <= k < |players| && players[k].id == id ==>
      Overwrite(players, id, RatingUpdate(rating))[k].id == id &&
      Rating(Overwrite(players, id, RatingUpdate(rating))[k]) == Float(rating) &&
      forall f :: f in players[k].fields && f != "rating" ==>
        f in Overwrite(players, id, RatingUpdate(rating))[k].fields &&
        Overwrite(players, id, RatingUpdate(rating))[k].fields[f] == players[k].fields[f]
    ensures id !in Ids(players) ==> Overwrite(players, id, RatingUpdate(rating)) == players
  {
    if id !in Ids(players) {
      var r := Overwrite(players, id, RatingUpdate(rating));
      forall k | 0 <= k < |players| ensures r[k] == players[k] {
        assert players[k] in players;
      }
    }
  }

  /**
   * `update_player(player, rating)`: nothing at all when the rating is
   * unchanged; otherwise the write, then one message per resolving channel.
   */
  function Refresh(rows: seq<SpectatorChannel>, resolves: set<int>, p: Player, rating: real): (r: seq<Effect<RatingChange>>)
    ensures r == [] <==> Float(rating) == Rating(p)
    ensures r != [] ==> r[0] == Persist(p.id) && |r| <= |rows| + 1
    ensures forall e :: e in r ==> (e.Persist? || e.Send?) && e.player == p.id
  {
    if Float(rating) == Rating(p) then []
    else [Persist(p.id)] + Deliveries(rows, resolves, p.id, RatingChange(Rating(p), rating))
  }

  /** The players table after `update_player`. */
  function RefreshPlayers(players: seq<Player>, p: Player, rating: real): (r: seq<Player>)
    ensures Touches(players, r, {p.id})
    ensures Float(rating) == Rating(p) ==> r == players
    ensures forall k :: 0 <= k < |r| && players[k].id == p.id && Float(rating) != Rating(p) ==> Rating(r[k]) == Float(rating)
  {
    SetRatingOnly(players, p.id, rating);
    if Float(rating) == Rating(p) then players else Overwrite(players, p.id, RatingUpdate(rating))
  }

  /**
   * An equal rating writes and sends nothing; a different one is written
   * before any message is sent, and everything after the write is a message.
   */
  lemma RefreshOrder(rows: seq<SpectatorChannel>, resolves: set<int>, p: Player, rating: real)
    ensures Refresh(rows, resolves, p, rating) == [] <==> Float(rating) == Rating(p)
    ensures Float(rating) != Rating(p) ==>
      Refresh(rows, resolves, p, rating)[0] == Persist(p.id) &&
      forall k :: 1 <= k < |Refresh(rows, resolves, p, rating)| ==> Refresh(rows, resolves, p, rating)[k].Send?
  {
    if Float(rating) != Rating(p) {
      var r := Refresh(rows, resolves, p, rating);
      var d := Deliveries(rows, resolves, p.id, RatingChange(Rating(p), rating));
      forall k | 1 <= k < |r| ensures r[k].Send? {
        assert r[k] == d[k - 1] && d[k - 1] in d;
      }
    }
  }

  /** One player of the sweep: a failed fetch (`None`) is skipped. */
  function Step(specs: seq<Spectator>, channels: map<int, int>, resolves: set<int>, p: Player, fetched: Option<real>): (r: seq<Effect<RatingChange>>)
    ensures fetched.None? ==> r == []
    ensures fetched.Some? ==> (r == [] <==> Float(fetched.value) == Rating(p))
    ensures forall e :: e in r ==> (e.Persist? || e.Send?) && e.player == p.id
  {
    match fetched
    case None => []
    case Some(rating) => Refresh(ChannelsOf(specs, channels, p.id), resolves, p, rating)
  }

  /** The per-player batches of effects of `update` over a snapshot, `fetched[i]` being the fetch for `snapshot[i]`. */
  function Steps(specs: seq<Spectator>, channels: map<int, int>, resolves: set<int>,
                 snapshot: seq<Player>, fetched: seq<Option<real>>): (r: seq<seq<Effect<RatingChange>>>)
    requires |snapshot| == |fetched|
    ensures |r| == |snapshot|
  {
    seq(|snapshot|, i requires 0 <= i < |snapshot| => Step(specs, channels, resolves, snapshot[i], fetched[i]))
  }

  /** The effects of `update` over the snapshot of watched players, in player order. */
  function Sweep(specs: seq<Spectator>, channels: map<int, int>, resolves: set<int>,
                 snapshot: seq<Player>, fetched: seq<Option<real>>): (r: seq<Effect<RatingChange>>)
    requires |snapshot| == |fetched|
    ensures forall e :: e in r ==> (e.Persist? || e.Send?) && e.player in FetchedIds(snapshot, fetched)
  {
    StepsConcern(specs, channels, resolves, snapshot, fetched);
    Flatten(Steps(specs, channels, resolves, snapshot, fetched))
  }

  /** Every effect of the batches is a write or a message about a fetched player of the snapshot. */
  lemma StepsConcern(specs: seq<Spectator>, channels: map<int, int>, resolves: set<int>,
                     snapshot: seq<Player>, fetched: seq<Option<real>>)
    requires |snapshot| == |fetched|
    ensures forall e :: e in Flatten(Steps(specs, channels, resolves, snapshot, fetched)) ==>
      (e.Persist? || e.Send?) && e.player in FetchedIds(snapshot, fetched)
  {
    var batches := Steps(specs, channels, resolves, snapshot, fetched);
    forall e: Effect<RatingChange> | e in Flatten(batches)
      ensures (e.Persist? || e.Send?) && e.player in FetchedIds(snapshot, fetched)
    {
      FlattenMembers(batches, e);
      var i :| 0 <= i < |batches| && e in batches[i];
      assert e in Step(specs, channels, resolves, snapshot[i], fetched[i]);
    }
  }

  /** The players table after `update`. */
  function SweepPlayers(players: seq<Player>, snapshot: seq<Player>, fetched: seq<Option<real>>): (r: seq<Player>)
    requires |snapshot| == |fetched|
    ensures Touches(players, r, FetchedIds(snapshot, fetched))
  {
    if snapshot == [] then players
    else
      var n := |snapshot| - 1;
      var before := SweepPlayers(players, snapshot[..n], fetched[..n]);
      match fetched[n]
      case None => before
      case Some(rating) => RefreshPlayers(before, snapshot[n], rating)
  }

  lemma StepsAppend(specs: seq<Spectator>, channels: map<int, int>, resolves: set<int>,
                    s1: seq<Player>, f1: seq<Option<real>>, s2: seq<Player>, f2: seq<Option<real>>)
    requires |s1| == |f1| && |s2| == |f2|
    ensures Steps(specs, channels, resolves, s1 + s2, f1 + f2)
         == Steps(specs, channels, resolves, s1, f1) + Steps(specs, channels, resolves, s2, f2)
  {
  }

  /** The sweep of a longer prefix is the shorter one's followed by the next player's effects. */
  lemma SweepExtend(specs: seq<Spectator>, channels: map<int, int>, resolves: set<int>,
                    players: seq<Player>, snapshot: seq<Player>, fetched: seq<Option<real>>, i: nat)
    requires |snapshot| == |fetched| && i < |snapshot|
    ensures Sweep(specs, channels, resolves, snapshot[..i + 1], fetched[..i + 1])
         == Sweep(specs, channels, resolves, snapshot[..i], fetched[..i]) + Step(specs, channels, resolves, snapshot[i], fetched[i])
    ensures SweepPlayers(players, snapshot[..i + 1], fetched[..i + 1])
         == (match fetched[i]
             case None => SweepPlayers(players, snapshot[..i], fetched[..i])
             case Some(rating) => RefreshPlayers(SweepPlayers(players, snapshot[..i], fetched[..i]), snapshot[i], rating))
  {
    var s := snapshot[..i + 1];
    var f := fetched[..i + 1];
    assert s[..i] == snapshot[..i] && f[..i] == fetched[..i];
    assert s == snapshot[..i] + [snapshot[i]] && f == fetched[..i] + [fetched[i]];
    StepsAppend(specs, channels, resolves, snapshot[..i], fetched[..i], [snapshot[i]], [fetched[i]]);
    var one := Steps(specs, channels, resolves, [snapshot[i]], [fetched[i]]);
    FlattenAppend(Steps(specs, channels, resolves, snapshot[..i], fetched[..i]), one);
    assert Flatten(one) == Flatten(one[..0]) + one[0];
  }

  /** The sweep of two consecutive stretches of the snapshot is the first's effects followed by the second's. */
  lemma SweepAppend(specs: seq<Spectator>, channels: map<int, int>, resolves: set<int>,
                    s1: seq<Player>, f1: seq<Option<real>>, s2: seq<Player>, f2: seq<Option<real>>)
    requires |s1| == |f1| && |s2| == |f2|
    ensures Sweep(specs, channels, resolves, s1 + s2, f1 + f2)
         == Sweep(specs, channels, resolves, s1, f1) + Sweep(specs, channels, resolves, s2, f2)
  {
    StepsAppend(specs, channels, resolves, s1, f1, s2, f2);
    FlattenAppend(Steps(specs, channels, resolves, s1, f1), Steps(specs, channels, resolves, s2, f2));
  }

  /**
   * A failed fetch skips only that player: the sweep with player `i`
   * failing is the sweep of the players before it followed by the sweep
   * of the players after it.
   */
  lemma SweepSkipsFailure(specs: seq<Spectator>, channels: map<int, int>, resolves: set<int>,
                          snapshot: seq<Player>, fetched: seq<Option<real>>, i: nat)
    requires |snapshot| == |fetched| && i < |snapshot|
    ensures Sweep(specs, channels, resolves, snapshot, fetched[i := None])
         == Sweep(specs, channels, resolves, snapshot[..i], fetched[..i])
          + Sweep(specs, channels, resolves, snapshot[i + 1..], fetched[i + 1..])
  {
    var s1, f1 := snapshot[..i], fetched[..i];
    var s2, f2 := snapshot[i + 1..], fetched[i + 1..];
    var none: seq<Option<real>> := [None];
    var one := [snapshot[i]];
    assert Sweep(specs, channels, resolves, one, none) == [] by {
      var b := Steps(specs, channels, resolves, one, none);
      assert b == [[]];
      assert Flatten(b) == Flatten(b[..0]) + [];
    }
    assert snapshot == s1 + one + s2 && fetched[i := None] == f1 + none + f2 by {
      assert snapshot == s1 + one + s2;
      assert fetched[i := None] == f1 + none + f2;
    }
    SweepAppend(specs, channels, resolves, s1 + one, f1 + none, s2, f2);
    SweepAppend(specs, channels, resolves, s1, f1, one, none);
  }

  /** `RaiderTracker.set_rating(id, rating)`. */
  method SetRating(t: Tracker, id: int, rating: real)
    requires t.Valid() && t.schema == RaiderSchema
    modifies t
    ensures t.Valid()
    ensures t.players == Overwrite(old(t.players), id, RatingUpdate(rating))
    ensures t.nextId == old(t.nextId) && t.spectators == old(t.spectators) && t.channels == old(t.channels)
  {
    RaiderNames();
    t.UpdatePlayer(id, RatingUpdate(rating));
  }

  /** The parsed arguments of `add`: region, realm, name and the optional owner. */
  datatype AddArgs = AddArgs(region: string, realm: string, name: string, user: Option<int>)

  /** `add`'s argument handling: three words, or three words and a server member. */
  function ParseAdd(text: string, guild: Guild): (r: Result<AddArgs, string>)
    ensures |SplitMax(text, 3)| != 3 && |SplitMax(text, 3)| != 4 ==>
      r == Err("expected `region`, `realm`, `name`, and optional `server member`!")
  {
    var parts := SplitMax(text, 3);
    if |parts| == 3 then Ok(AddArgs(parts[0], parts[1], parts[2], None))
    else if |parts| == 4 then
      match GetMember(parts[3], guild)
      case Ok(member) => Ok(AddArgs(parts[0], parts[1], parts[2], Some(member as int)))
      case Err(e) => Err(e)
    else Err("expected `region`, `realm`, `name`, and optional `server member`!")
  }

  /** Three typed words are read back as region, realm and name; a fourth is resolved as a member. */
  lemma ParseAddWords(region: string, realm: string, name: string, member: string, guild: Guild)
    requires forall w :: w in [region, realm, name, member] ==> w != [] && NoSpace(w)
    ensures ParseAdd(JoinSpaced([region, realm, name]), guild) == Ok(AddArgs(region, realm, name, None))
    ensures GetMember(member, guild).Err? ==>
      ParseAdd(JoinSpaced([region, realm, name, member]), guild) == Err(GetMember(member, guild).error)
    ensures GetMember(member, guild).Ok? ==>
      ParseAdd(JoinSpaced([region, realm, name, member]), guild) == Ok(AddArgs(region, realm, name, Some(GetMember(member, guild).value as int)))
  {
    var three := [region, realm, name];
    var four := [region, realm, name, member];
    assert forall n :: 0 <= n < 3 ==> three[n] in [region, realm, name, member];
    assert forall n :: 0 <= n < 4 ==> four[n] in [region, realm, name, member];
    SplitJoined(three, 3);
    SplitJoined(four, 3);
  }

  /** `remove`'s argument handling: exactly three words. */
  function ParseRemove(text: string): (r: Result<(string, string, string), string>)
    ensures r.Ok? <==> |SplitMax(text, 2)| == 3
  {
    var parts := SplitMax(text, 2);
    if |parts| == 3 then Ok((parts[0], parts[1], parts[2]))
    else Err("expected `region`, `realm`, and `name`!")
  }

  /**
   * As written, `update_player` resolves each channel through
   * `self.client`, which nothing ever assigns on the plugin: its
   * constructor skips the base class's, and `ready` does not keep its
   * argument. So a changed rating with at least one joined channel row
   * raises AttributeError once the rating is committed.
   */
  predicate ClientCrash(specs: seq<Spectator>, channels: map<int, int>, p: Player, fetched: Option<real>) {
    fetched.Some? && Float(fetched.value) != Rating(p) && ChannelsOf(specs, channels, p.id) != []
  }

  const NoClient := "'RaiderPlugin' object has no attribute 'client'"

  class RaiderPlugin {
    const tracker: Tracker
    var updateRunning: bool
    var outbox: seq<Effect<RatingChange>>

    ghost predicate Valid()
      reads this, tracker
    {
      tracker.Valid() && tracker.schema == RaiderSchema
    }

    constructor ()
      ensures Valid() && fresh(tracker)
      ensures tracker.players == [] && tracker.spectators == [] && tracker.channels == map[]
      ensures !updateRunning && outbox == []
    {
      SchemasWellFormed();
      tracker := new Tracker(RaiderSchema);
      updateRunning := false;
      outbox := [];
    }

    /** `ready` as intended: start the update loop unless it is already running; `cleanup` is not started. */
    method Ready()
      modifies this
      ensures updateRunning
      ensures outbox == old(outbox)
    {
      if !updateRunning {
        updateRunning := true;
      }
    }

    /**
     * `ready` as written: it first awaits `super().ready(client)`, which the
     * plugin base class does not define, so it raises before the update loop
     * is started.
     */
    method ReadyAsWritten() returns (o: Outcome<()>)
      modifies this
      ensures o == Failed("'super' object has no attribute 'ready'")
      ensures updateRunning == old(updateRunning) && outbox == old(outbox)
    {
      o := Failed("'super' object has no attribute 'ready'");
    }

    /** `update_player(player, rating)`; `resolves` is the set of channel ids the client can resolve. */
    method UpdatePlayer(p: Player, rating: real, resolves: set<int>)
      requires Valid()
      modifies this, tracker
      ensures Valid()
      ensures outbox == old(outbox) + Refresh(old(tracker.GetSpectatorChannels(p.id)), resolves, p, rating)
      ensures tracker.players == RefreshPlayers(old(tracker.players), p, rating)
      ensures tracker.nextId == old(tracker.nextId) && tracker.spectators == old(tracker.spectators)
      ensures tracker.channels == old(tracker.channels) && updateRunning == old(updateRunning)
    {
      if Float(rating) != Rating(p) {
        var rows := tracker.GetSpectatorChannels(p.id);
        ghost var before := outbox;
        SetRating(tracker, p.id, rating);
        outbox := outbox + [Persist(p.id)];
        var sent := DeliverAll(rows, resolves, p.id, RatingChange(Rating(p), rating));
        outbox := outbox + sent;
        AppendAssoc(before, [Persist(p.id)], sent);
      }
    }

    /** One player of `update`'s sweep: a failed fetch does nothing. */
    method StepPlayer(p: Player, fetched: Option<real>, resolves: set<int>)
      requires Valid()
      modifies this, tracker
      ensures Valid()
      ensures outbox == old(outbox) + Step(old(tracker.spectators), old(tracker.channels), resolves, p, fetched)
      ensures tracker.players == (match fetched
                                  case None => old(tracker.players)
                                  case Some(rating) => RefreshPlayers(old(tracker.players), p, rating))
      ensures tracker.nextId == old(tracker.nextId) && tracker.spectators == old(tracker.spectators)
      ensures tracker.channels == old(tracker.channels) && updateRunning == old(updateRunning)
    {
      if fetched.Some? {
        UpdatePlayer(p, fetched.value, resolves);
      }
    }

    /**
     * One tick of `update`: every watched player of the snapshot taken at
     * the start, `fetched[i]` being the fetch result for the i-th (`None`
     * for a BotError, which skips that player only).
     */
    method Update(fetched: seq<Option<real>>, resolves: set<int>)
      requires Valid()
      requires |fetched| == |tracker.GetSpectatedPlayers()|
      modifies this, tracker
      ensures Valid()
      ensures outbox == old(outbox) + Sweep(old(tracker.spectators), old(tracker.channels), resolves, old(tracker.GetSpectatedPlayers()), fetched)
      ensures tracker.players == SweepPlayers(old(tracker.players), old(tracker.GetSpectatedPlayers()), fetched)
      ensures tracker.nextId == old(tracker.nextId) && tracker.spectators == old(tracker.spectators)
      ensures tracker.channels == old(tracker.channels) && updateRunning == old(updateRunning)
    {
      var snapshot := tracker.GetSpectatedPlayers();
      SweepSnapshot(snapshot, fetched, resolves);
    }

    /**
     * The state of `update` after the first `i` players of the snapshot:
     * their effects appended to what was sent before, their ratings
     * written, nothing else changed.
     */
    ghost predicate Swept(snapshot: seq<Player>, fetched: seq<Option<real>>, resolves: set<int>, i: nat,
                          specs: seq<Spectator>, channels: map<int, int>, players: seq<Player>, nextId: int,
                          sent: seq<Effect<RatingChange>>, running: bool)
      requires i <= |snapshot| == |fetched|
      reads this, tracker
    {
      && Valid()
      && outbox == sent + Sweep(specs, channels, resolves, snapshot[..i], fetched[..i])
      && tracker.players == SweepPlayers(players, snapshot[..i], fetched[..i])
      && tracker.nextId == nextId && tracker.spectators == specs
      && tracker.channels == channels && updateRunning == running
    }

    /** One iteration of `update`'s loop. */
    method SweepNext(snapshot: seq<Player>, fetched: seq<Option<real>>, resolves: set<int>, i: nat,
                     ghost specs: seq<Spectator>, ghost channels: map<int, int>, ghost players: seq<Player>, ghost nextId: int,
                     ghost sent: seq<Effect<RatingChange>>, ghost running: bool)
      requires i < |snapshot| == |fetched|
      requires Swept(snapshot, fetched, resolves, i, specs, channels, players, nextId, sent, running)
      modifies this, tracker
      ensures Swept(snapshot, fetched, resolves, i + 1, specs, channels, players, nextId, sent, running)
    {
      SweepExtend(specs, channels, resolves, players, snapshot, fetched, i);
      ghost var before := Sweep(specs, channels, resolves, snapshot[..i], fetched[..i]);
      ghost var step := Step(specs, channels, resolves, snapshot[i], fetched[i]);
      StepPlayer(snapshot[i], fetched[i], resolves);
      AppendAssoc(sent, before, step);
    }

    /** The loop of `update` over a snapshot already taken. */
    method SweepSnapshot(snapshot: seq<Player>, fetched: seq<Option<real>>, resolves: set<int>)
      requires Valid()
      requires |fetched| == |snapshot|
      modifies this, tracker
      ensures Valid()
      ensures outbox == old(outbox) + Sweep(old(tracker.spectators), old(tracker.channels), resolves, snapshot, fetched)
      ensures tracker.players == SweepPlayers(old(tracker.players), snapshot, fetched)
      ensures tracker.nextId == old(tracker.nextId) && tracker.spectators == old(tracker.spectators)
      ensures tracker.channels == old(tracker.channels) && updateRunning == old(updateRunning)
    {
      ghost var specs, channels, players, nextId, sent, running :=
        tracker.spectators, tracker.channels, tracker.players, tracker.nextId, outbox, updateRunning;
      assert snapshot[..0] == [] && fetched[..0] == [];
      var i := 0;
      while i < |snapshot|
        invariant 0 <= i <= |snapshot|
        invariant Swept(snapshot, fetched, resolves, i, specs, channels, players, nextId, sent, running)
      {
        SweepNext(snapshot, fetched, resolves, i, specs, channels, players, nextId, sent, running);
        i := i + 1;
      }
      assert snapshot[..|snapshot|] == snapshot && fetched[..|fetched|] == fetched;
    }

    /**
     * `update_player` as written: the changed rating is committed, then the
     * channel loop raises on `self.client` if there is any row to visit.
     */
    method UpdatePlayerAsWritten(p: Player, rating: real) returns (o: Outcome<()>)
      requires Valid()
      modifies this, tracker
      ensures Valid()
      ensures o == if ClientCrash(old(tracker.spectators), old(tracker.channels), p, Some(rating)) then Failed(NoClient) else Done(())
      ensures outbox == old(outbox) + (if Float(rating) == Rating(p) then [] else [Persist(p.id)])
      ensures tracker.players == RefreshPlayers(old(tracker.players), p, rating)
      ensures tracker.nextId == old(tracker.nextId) && tracker.spectators == old(tracker.spectators)
      ensures tracker.channels == old(tracker.channels) && updateRunning == old(updateRunning)
    {
      o := Done(());
      if Float(rating) != Rating(p) {
        SetRating(tracker, p.id, rating);
        outbox := outbox + [Persist(p.id)];
        var rows := tracker.GetSpectatorChannels(p.id);
        if rows != [] {
          o := Failed(NoClient);
        }
      }
    }

    /**
     * `update` as written: the players are refreshed in order until the
     * first one whose changed rating has a channel row to announce; that
     * one's rating is committed, the AttributeError escapes the loop body
     * and the loop task ends. Up to that player the effects are those of
     * the intended sweep, since no message is due before it.
     */
    method UpdateAsWritten(fetched: seq<Option<real>>, resolves: set<int>) returns (stopped: nat)
      requires Valid()
      requires |fetched| == |tracker.GetSpectatedPlayers()|
      modifies this, tracker
      ensures Valid()
      ensures var specs, channels, snapshot := old(tracker.spectators), old(tracker.channels), old(tracker.GetSpectatedPlayers());
        && stopped <= |snapshot|
        && (forall j :: 0 <= j < stopped ==> !ClientCrash(specs, channels, snapshot[j], fetched[j]))
        && (stopped < |snapshot| ==> ClientCrash(specs, channels, snapshot[stopped], fetched[stopped]))
        && var through := if stopped < |snapshot| then stopped + 1 else stopped;
           && outbox == old(outbox) + Sweep(specs, channels, resolves, snapshot[..stopped], fetched[..stopped])
                        + (if stopped < |snapshot| then [Persist(snapshot[stopped].id)] else [])
           && tracker.players == SweepPlayers(old(tracker.players), snapshot[..through], fetched[..through])
           && updateRunning == (old(updateRunning) && stopped == |snapshot|)
      ensures tracker.nextId == old(tracker.nextId) && tracker.spectators == old(tracker.spectators)
      ensures tracker.channels == old(tracker.channels)
    {
      var snapshot := tracker.GetSpectatedPlayers();
      stopped := RunAsWritten(snapshot, fetched, resolves);
    }

    /**
     * The state once the loop as written has ended at `stopped`: no player
     * before it crashed, it is the crashing one unless it is the end, the
     * players before it had their intended effects, the crashing one only
     * its write, and the loop task runs on only if nothing crashed.
     */
    ghost predicate RanAsWritten(snapshot: seq<Player>, fetched: seq<Option<real>>, resolves: set<int>, stopped: nat,
                                 specs: seq<Spectator>, channels: map<int, int>, players: seq<Player>, nextId: int,
                                 sent: seq<Effect<RatingChange>>, running: bool)
      requires |snapshot| == |fetched|
      reads this, tracker
    {
      && Valid()
      && stopped <= |snapshot|
      && (forall j :: 0 <= j < stopped ==> !ClientCrash(specs, channels, snapshot[j], fetched[j]))
      && (stopped < |snapshot| ==> ClientCrash(specs, channels, snapshot[stopped], fetched[stopped]))
      && updateRunning == (running && stopped == |snapshot|)
      && tracker.nextId == nextId && tracker.spectators == specs && tracker.channels == channels
      && outbox == sent + Sweep(specs, channels, resolves, snapshot[..stopped], fetched[..stopped])
                   + (if stopped < |snapshot| then [Persist(snapshot[stopped].id)] else [])
      && var through := if stopped < |snapshot| then stopped + 1 else stopped;
         tracker.players == SweepPlayers(players, snapshot[..through], fetched[..through])
    }

    /** A loop as written that reached the end ran the whole intended sweep. */
    lemma RanToEnd(snapshot: seq<Player>, fetched: seq<Option<real>>, resolves: set<int>,
                   specs: seq<Spectator>, channels: map<int, int>, players: seq<Player>, nextId: int,
                   sent: seq<Effect<RatingChange>>, running: bool)
      requires |snapshot| == |fetched|
      requires Swept(snapshot, fetched, resolves, |snapshot|, specs, channels, players, nextId, sent, running)
      requires forall j :: 0 <= j < |snapshot| ==> !ClientCrash(specs, channels, snapshot[j], fetched[j])
      ensures RanAsWritten(snapshot, fetched, resolves, |snapshot|, specs, channels, players, nextId, sent, running)
    {
      assert outbox == sent + Sweep(specs, channels, resolves, snapshot[..|snapshot|], fetched[..|snapshot|]) + [];
    }

    /** The loop as written reaches a crashing player: its write, then the loop task ends. */
    method CrashAt(snapshot: seq<Player>, fetched: seq<Option<real>>, resolves: set<int>, i: nat,
                   ghost specs: seq<Spectator>, ghost channels: map<int, int>, ghost players: seq<Player>, ghost nextId: int,
                   ghost sent: seq<Effect<RatingChange>>, ghost running: bool)
      requires i < |snapshot| == |fetched|
      requires Swept(snapshot, fetched, resolves, i, specs, channels, players, nextId, sent, running)
      requires forall j :: 0 <= j < i ==> !ClientCrash(specs, channels, snapshot[j], fetched[j])
      requires ClientCrash(specs, channels, snapshot[i], fetched[i])
      modifies this, tracker
      ensures RanAsWritten(snapshot, fetched, resolves, i, specs, channels, players, nextId, sent, running)
    {
      SweepExtend(specs, channels, resolves, players, snapshot, fetched, i);
      var _ := UpdatePlayerAsWritten(snapshot[i], fetched[i].value);
      updateRunning := false;
    }

    /** One iteration of `update`'s loop as written; `crashed` when it raised. */
    method NextAsWritten(snapshot: seq<Player>, fetched: seq<Option<real>>, resolves: set<int>, i: nat,
                         ghost specs: seq<Spectator>, ghost channels: map<int, int>, ghost players: seq<Player>, ghost nextId: int,
                         ghost sent: seq<Effect<RatingChange>>, ghost running: bool) returns (crashed: bool)
      requires i < |snapshot| == |fetched|
      requires Swept(snapshot, fetched, resolves, i, specs, channels, players, nextId, sent, running)
      requires forall j :: 0 <= j < i ==> !ClientCrash(specs, channels, snapshot[j], fetched[j])
      modifies this, tracker
      ensures crashed ==> RanAsWritten(snapshot, fetched, resolves, i, specs, channels, players, nextId, sent, running)
      ensures !crashed ==> Swept(snapshot, fetched, resolves, i + 1, specs, channels, players, nextId, sent, running)
      ensures !crashed ==> forall j :: 0 <= j < i + 1 ==> !ClientCrash(specs, channels, snapshot[j], fetched[j])
    {
      crashed := ClientCrash(tracker.spectators, tracker.channels, snapshot[i], fetched[i]);
      if crashed {
        CrashAt(snapshot, fetched, resolves, i, specs, channels, players, nextId, sent, running);
      } else {
        SweepNext(snapshot, fetched, resolves, i, specs, channels, players, nextId, sent, running);
      }
    }

    /** The loop of `update` as written, over a snapshot already taken. */
    method RunAsWritten(snapshot: seq<Player>, fetched: seq<Option<real>>, resolves: set<int>) returns (stopped: nat)
      requires Valid()
      requires |fetched| == |snapshot|
      modifies this, tracker
      ensures RanAsWritten(snapshot, fetched, resolves, stopped, old(tracker.spectators), old(tracker.channels),
                           old(tracker.players), old(tracker.nextId), old(outbox), old(updateRunning))
    {
      ghost var specs, channels, players, nextId, sent, running :=
        tracker.spectators, tracker.channels, tracker.players, tracker.nextId, outbox, updateRunning;
      assert snapshot[..0] == [] && fetched[..0] == [];
      var i := 0;
      while i < |snapshot|
        invariant 0 <= i <= |snapshot|
        invariant Swept(snapshot, fetched, resolves, i, specs, channels, players, nextId, sent, running)
        invariant forall j :: 0 <= j < i ==> !ClientCrash(specs, channels, snapshot[j], fetched[j])
      {
        var crashed := NextAsWritten(snapshot, fetched, resolves, i, specs, channels, players, nextId, sent, running);
        if crashed {
          return i;
        }
        i := i + 1;
      }
      RanToEnd(snapshot, fetched, resolves, specs, channels, players, nextId, sent, running);
      stopped := |snapshot|;
    }

    /** `cleanup`: drop the players nobody watches. */
    method Cleanup()
      requires Valid()
      modifies tracker
      ensures Valid()
      ensures tracker.players == Retain(old(tracker.players), SubscribedIds(tracker.spectators))
      ensures tracker.spectators == old(tracker.spectators) && tracker.channels == old(tracker.channels)
    {
      var _ := tracker.DeletePlayersWithoutSpectator();
    }

    /**
     * `add`: on good arguments, the guild's default channel is set first;
     * an existing player is reused, or one is created from the fetched
     * profile; then the guild subscribes and the reply says whether the
     * subscription is new.
     */
    method CommandAdd(text: string, guild: Guild, guildId: int, channelId: int, fetched: Result<Profile, string>)
      returns (o: Outcome<Reply>)
      requires Valid()
      modifies tracker
      ensures Valid()
      ensures ParseAdd(text, guild).Err? ==>
        o == Raised(ParseAdd(text, guild).error) &&
        tracker.players == old(tracker.players) && tracker.spectators == old(tracker.spectators) &&
        tracker.channels == old(tracker.channels)
      ensures ParseAdd(text, guild).Ok? ==>
        tracker.channels == DefaultChannel(old(tracker.channels), guildId, channelId)
      ensures o.Done? ==> (o.reply.Watching? && o.reply.player in tracker.players &&
        o.reply.started == !HasPair(old(tracker.spectators), guildId, o.reply.player.id) &&
        tracker.spectators == Subscribe(old(tracker.spectators), guildId, o.reply.player.id, ParseAdd(text, guild).value.user))
      ensures ParseAdd(text, guild).Ok? ==>
        var a := ParseAdd(text, guild).value;
        var found := Find(RaiderSchema, old(tracker.players), KeyCriteria(a.region, a.realm, a.name));
        found.Ok? &&
        (found.value.Some? ==>
           o == Done(Watching(!HasPair(old(tracker.spectators), guildId, found.value.value.id), found.value.value)) &&
           tracker.players == old(tracker.players))
      ensures ParseAdd(text, guild).Ok? ==>
        var a := ParseAdd(text, guild).value;
        var found := Find(RaiderSchema, old(tracker.players), KeyCriteria(a.region, a.realm, a.name));
        found.Ok? && found.value.None? ==>
          (fetched.Err? ==> o == Raised(fetched.error) && tracker.players == old(tracker.players)) &&
          (fetched.Ok? && Collides(RaiderSchema, old(tracker.players), ProfileFields(fetched.value)) ==>
             o == Failed("'NoneType' object has no attribute 'id'") && tracker.players == old(tracker.players)) &&
          (fetched.Ok? && !Collides(RaiderSchema, old(tracker.players), ProfileFields(fetched.value)) ==>
             var row := Player(old(tracker.nextId), ProfileFields(fetched.value));
             tracker.players == old(tracker.players) + [row] && o == Done(Watching(true, row)))
      ensures !o.Done? ==> tracker.spectators == old(tracker.spectators)
      ensures o.Raised? && ParseAdd(text, guild).Ok? ==> fetched.Err? && o.message == fetched.error && tracker.players == old(tracker.players)
    {
      var args := ParseAdd(text, guild);
      if args.Err? {
        return Raised(args.error);
      }
      var a := args.value;
      tracker.SetChannelIfUnset(guildId, channelId);
      KeyLookupOk(tracker.players, a.region, a.realm, a.name);
      var found := tracker.GetPlayer(KeyCriteria(a.region, a.realm, a.name));
      var player: Player;
      if found.value.Some? {
        player := found.value.value;
      } else {
        if fetched.Err? {
          return Raised(fetched.error);
        }
        ProfileFieldsFit(fetched.value);
        var created := tracker.CreatePlayer(ProfileFields(fetched.value));
        if created.Err? || created.value.None? {
          // the fetched canonical key collides with a row the typed key did not match: `player.id` on None
          return Failed("'NoneType' object has no attribute 'id'");
        }
        player := created.value.value;
        assert player in tracker.players;
        assert !HasPair(tracker.spectators, guildId, player.id) by {
          forall s | s in tracker.spectators ensures s.player != player.id {
            var q :| q in old(tracker.players) && q.id == s.player;
          }
        }
      }
      assert player.id in Ids(tracker.players);
      var started := tracker.CreateSpectator(guildId, player.id, a.user);
      o := Done(Watching(started, player));
    }

    /** `remove`: an unknown player is a BotError and changes nothing; otherwise the guild's subscription is dropped. */
    method CommandRemove(text: string, guildId: int) returns (o: Outcome<Reply>)
      requires Valid()
      modifies tracker
      ensures Valid()
      ensures tracker.players == old(tracker.players) && tracker.channels == old(tracker.channels)
      ensures ParseRemove(text).Err? ==> o == Raised(ParseRemove(text).error) && tracker.spectators == old(tracker.spectators)
      ensures ParseRemove(text).Ok? ==>
        var (region, realm, name) := ParseRemove(text).value;
        var found := Find(RaiderSchema, old(tracker.players), KeyCriteria(region, realm, name));
        found.Ok? &&
        (found.value.None? ==> o == Raised("couldn't find player " + name + "!") && tracker.spectators == old(tracker.spectators)) &&
        (found.value.Some? ==>
           o == Done(Unwatched(HasPair(old(tracker.spectators), guildId, found.value.value.id), found.value.value)) &&
           tracker.spectators == Unsubscribe(old(tracker.spectators), guildId, found.value.value.id))
    {
      var args := ParseRemove(text);
      if args.Err? {
        return Raised(args.error);
      }
      var (region, realm, name) := args.value;
      KeyLookupOk(tracker.players, region, realm, name);
      var found := tracker.GetPlayer(KeyCriteria(region, realm, name));
      if found.value.None? {
        return Raised("couldn't find player " + name + "!");
      }
      var player := found.value.value;
      var stopped := tracker.DeleteSpectator(guildId, player.id);
      o := Done(Unwatched(stopped, player));
    }

    /** `here`: this channel becomes the guild's notification channel. */
    method CommandHere(guildId: int, channelId: int) returns (o: Outcome<Reply>)
      requires Valid()
      modifies tracker
      ensures Valid()
      ensures tracker.channels == old(tracker.channels)[guildId := channelId]
      ensures tracker.players == old(tracker.players) && tracker.spectators == old(tracker.spectators)
      ensures o == Done(Notice("Raider notifications will be posted to this channel!"))
    {
      tracker.SetChannel(guildId, channelId);
      o := Done(Notice("Raider notifications will be posted to this channel!"));
    }
  }
}
