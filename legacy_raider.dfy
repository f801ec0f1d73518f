/**
 * The older raider.io cog on the legacy tracker: add, remove and here
 * commands answered with plain text, a periodic sweep that stops at the
 * first failed lookup, and a daily clean-up of unwatched players.
 */
module LegacyRaider {
  import opened Wrappers
  import opened Schemas
  import opened Store
  import opened Legacy
  import opened Commands
  import opened Notify
  import Raider

  lemma LegacyNames()
    ensures LegacyRaiderSchema.Names() == {"discord_id", "region", "realm", "name", "rating"}
    ensures LegacyRaiderSchema.WellFormed() && LegacyRaiderSchema.unique == []
  {
    SchemasWellFormed();
    assert LegacyRaiderSchema.columns[0].name == "discord_id";
    assert LegacyRaiderSchema.columns[1].name == "region";
    assert LegacyRaiderSchema.columns[2].name == "realm";
    assert LegacyRaiderSchema.columns[3].name == "name";
    assert LegacyRaiderSchema.columns[4].name == "rating";
  }

  /** A lookup by region, realm and name never fails on the legacy table. */
  lemma LegacyLookupOk(players: seq<Player>, region: string, realm: string, name: string)
    ensures Find(LegacyRaiderSchema, players, Raider.KeyCriteria(region, realm, name)).Ok?
  {
    LegacyNames();
    assert "region" in Raider.KeyCriteria(region, realm, name);
  }

  // ----- reply texts -----

  /** The `name` column of a row, "" when absent. */
  function NameOf(p: Player): string {
    if "name" in p.fields && p.fields["name"].Text? then p.fields["name"].s else ""
  }

  /**
   * `message_add`: "started watching" exactly when the subscription is new,
   * "already watching" otherwise, then the name; `shown` is the rounded
   * rating as rendered.
   */
  function MessageAdd(name: string, shown: string, added: bool): (r: string)
    ensures |r| >= 17 + |name| && r[17..17 + |name|] == name
    ensures added <==> r[..17] == "started watching "
    ensures !added <==> r[..17] == "already watching "
  {
    var head := if added then "started watching " else "already watching ";
    assert head[0] == (if added then 's' else 'a');
    var r := head + name + " (" + shown + " rating)";
    assert r[..17] == head && r[17..17 + |name|] == name;
    r
  }

  /** `message_remove`: "stopped watching" exactly when a subscription was removed, then the name. */
  function MessageRemove(name: string, removed: bool): (r: string)
    ensures |r| == 17 + |name| && r[17..] == name
    ensures removed <==> r[..17] == "stopped watching "
    ensures !removed <==> r[..17] == "was not watching "
  {
    var head := if removed then "stopped watching " else "was not watching ";
    assert head[0] == (if removed then 's' else 'w');
    var r := head + name;
    assert r[..17] == head && r[17..] == name;
    r
  }

  /** Where the leading player's name sits in footer number `pick`. */
  function NameOffset(pick: nat): nat {
    if pick < 6 then 0 else if pick == 6 then 25 else 12
  }

  /** The eight leaderboard footers about the leading player; `pick` stands for `random.choice`. */
  function Footer(first: string, pick: nat): (r: string)
    requires pick < 8
    ensures NameOffset(pick) + |first| <= |r| && r[NameOffset(pick)..NameOffset(pick) + |first|] == first
  {
    var r :=
      if pick == 0 then first + " needs to go outside"
      else if pick == 1 then first + " should probably touch grass"
      else if pick == 2 then first + " might need to take a break"
      else if pick == 3 then first + " hasn't showered in days"
      else if pick == 4 then first + " is losing their grip"
      else if pick == 5 then first + " definitely isn't short"
      else if pick == 6 then "somebody should check on " + first
      else "i can smell " + first + " from here";
    assert pick < 6 ==> r[..|first|] == first && |r| > |first|;
    assert pick == 6 ==> r[25..] == first && |r| == 25 + |first|;
    assert pick == 7 ==> r[12..12 + |first|] == first && |r| == 22 + |first|;
    r
  }

  /** `message_leaderboard`: empty exactly for an empty leaderboard, otherwise a footer naming the leader. */
  function MessageLeaderboard(names: seq<string>, pick: nat): (r: string)
    requires pick < 8
    ensures r == "" <==> names == []
    ensures names != [] ==>
      NameOffset(pick) + |names[0]| <= |r| && r[NameOffset(pick)..NameOffset(pick) + |names[0]|] == names[0]
  {
    if names == [] then "" else Footer(names[0], pick)
  }

  const MessageHere := "rating notifications will be posted to this channel!"

  // ----- the sweep -----

  predicate AllResolve(ids: seq<int>, resolves: set<int>) {
    forall k :: 0 <= k < |ids| ==> ids[k] in resolves
  }

  /**
   * The channel loop of `loop_update`: one message per channel id, in
   * order, until an id the client cannot resolve; sending to the missing
   * channel raises, so nothing after it is sent.
   */
  function Broadcast<N>(ids: seq<int>, resolves: set<int>, player: int, note: N): (r: seq<Effect<N>>)
    ensures |r| <= |ids|
    ensures forall k :: 0 <= k < |r| ==> ids[k] in resolves && r[k] == Send(ids[k], player, None, note)
    ensures |r| < |ids| ==> ids[|r|] !in resolves
    ensures |r| == |ids| <==> AllResolve(ids, resolves)
  {
    if ids == [] then []
    else if ids[0] !in resolves then []
    else
      var rest := Broadcast(ids[1..], resolves, player, note);
      assert AllResolve(ids, resolves) <==> AllResolve(ids[1..], resolves) by {
        if AllResolve(ids[1..], resolves) {
          forall k | 0 <= k < |ids| ensures ids[k] in resolves {
            if k > 0 {
              assert ids[k] == ids[1..][k - 1];
            }
          }
        }
      }
      [Send(ids[0], player, None, note)] + rest
  }

  /** The channel loop as code. */
  method BroadcastAll<N>(ids: seq<int>, resolves: set<int>, player: int, note: N) returns (sent: seq<Effect<N>>, ok: bool)
    ensures sent == Broadcast(ids, resolves, player, note)
    ensures ok <==> AllResolve(ids, resolves)
  {
    sent := [];
    var i := 0;
    while i < |ids|
      invariant 0 <= i <= |ids|
      invariant |sent| == i
      invariant forall k :: 0 <= k < i ==> ids[k] in resolves && sent[k] == Send(ids[k], player, None, note)
    {
      if ids[i] !in resolves {
        ok := false;
        return;
      }
      sent := sent + [Send(ids[i], player, None, note)];
      i := i + 1;
    }
    ok := true;
  }

  /**
   * One player of `loop_update`: a failed lookup (`None`) does nothing; an
   * unchanged rating does nothing; a changed one is written, then announced
   * on each of the player's channels.
   */
  function LegacyStep(specs: seq<Spectator>, channels: map<int, int>, resolves: set<int>,
                      p: Player, fetched: Option<real>): (r: seq<Effect<Raider.RatingChange>>)
    ensures r != [] ==> fetched.Some? && Float(fetched.value) != Raider.Rating(p) && r[0] == Persist(p.id)
    ensures forall k :: 1 <= k < |r| ==> r[k].Send? && r[k].player == p.id && r[k].note == Raider.RatingChange(Raider.Rating(p), fetched.value)
    ensures fetched.Some? && Float(fetched.value) != Raider.Rating(p) ==> r != []
  {
    match fetched
    case None => []
    case Some(rating) =>
      if Float(rating) == Raider.Rating(p) then []
      else [Persist(p.id)] + Broadcast(ChannelIds(specs, channels, p.id), resolves, p.id, Raider.RatingChange(Raider.Rating(p), rating))
  }

  /** The store write of one player of the sweep. */
  function StepPlayers(players: seq<Player>, p: Player, fetched: Option<real>): (r: seq<Player>)
    ensures Touches(players, r, if fetched.Some? then {p.id} else {})
  {
    match fetched
    case None => players
    case Some(rating) => Raider.RefreshPlayers(players, p, rating)
  }

  /** Whether the sweep goes on past this player: the lookup succeeded and no message raised. */
  predicate Continues(specs: seq<Spectator>, channels: map<int, int>, resolves: set<int>, p: Player, fetched: Option<real>) {
    fetched.Some? && (Float(fetched.value) == Raider.Rating(p) || AllResolve(ChannelIds(specs, channels, p.id), resolves))
  }

  /** Whether this player's messages raise, which ends the update task itself. */
  predicate Raises(specs: seq<Spectator>, channels: map<int, int>, resolves: set<int>, p: Player, fetched: Option<real>) {
    fetched.Some? && !Continues(specs, channels, resolves, p, fetched)
  }

  /** The effects of one `loop_update` tick over a snapshot of the watched players. */
  function LegacySweep(specs: seq<Spectator>, channels: map<int, int>, resolves: set<int>,
                       snapshot: seq<Player>, fetched: seq<Option<real>>): seq<Effect<Raider.RatingChange>>
    requires |snapshot| == |fetched|
    decreases |snapshot|
  {
    if snapshot == [] then []
    else
      LegacyStep(specs, channels, resolves, snapshot[0], fetched[0]) +
      (if Continues(specs, channels, resolves, snapshot[0], fetched[0])
       then LegacySweep(specs, channels, resolves, snapshot[1..], fetched[1..]) else [])
  }

  /** The players table after one tick. */
  function LegacySweepPlayers(specs: seq<Spectator>, channels: map<int, int>, resolves: set<int>,
                              players: seq<Player>, snapshot: seq<Player>, fetched: seq<Option<real>>): seq<Player>
    requires |snapshot| == |fetched|
    decreases |snapshot|
  {
    if snapshot == [] then players
    else
      var after := StepPlayers(players, snapshot[0], fetched[0]);
      if Continues(specs, channels, resolves, snapshot[0], fetched[0])
      then LegacySweepPlayers(specs, channels, resolves, after, snapshot[1..], fetched[1..])
      else after
  }

  /** Every effect of a tick is a write or a message about a player of the snapshot whose lookup succeeded. */
  lemma {:induction false} LegacySweepConcerns(specs: seq<Spectator>, channels: map<int, int>, resolves: set<int>,
                                               snapshot: seq<Player>, fetched: seq<Option<real>>)
    requires |snapshot| == |fetched|
    ensures forall e :: e in LegacySweep(specs, channels, resolves, snapshot, fetched) ==>
      (e.Persist? || e.Send?) && e.player in FetchedIds(snapshot, fetched)
    decreases |snapshot|
  {
    if snapshot != [] {
      FetchedIdsTail(snapshot, fetched);
      LegacySweepConcerns(specs, channels, resolves, snapshot[1..], fetched[1..]);
    }
  }

  /** A tick keeps the rows and their order, and rewrites only rows of players whose lookup succeeded. */
  lemma {:induction false} LegacySweepTouches(specs: seq<Spectator>, channels: map<int, int>, resolves: set<int>,
                                              players: seq<Player>, snapshot: seq<Player>, fetched: seq<Option<real>>)
    requires |snapshot| == |fetched|
    ensures Touches(players, LegacySweepPlayers(specs, channels, resolves, players, snapshot, fetched), FetchedIds(snapshot, fetched))
    decreases |snapshot|
  {
    if snapshot != [] {
      FetchedIdsTail(snapshot, fetched);
      var after := StepPlayers(players, snapshot[0], fetched[0]);
      LegacySweepTouches(specs, channels, resolves, after, snapshot[1..], fetched[1..]);
    }
  }

  /** Whether a tick ends in an exception. */
  predicate LegacySweepRaises(specs: seq<Spectator>, channels: map<int, int>, resolves: set<int>,
                              snapshot: seq<Player>, fetched: seq<Option<real>>)
    requires |snapshot| == |fetched|
    decreases |snapshot|
  {
    if snapshot == [] then false
    else if Continues(specs, channels, resolves, snapshot[0], fetched[0])
    then LegacySweepRaises(specs, channels, resolves, snapshot[1..], fetched[1..])
    else Raises(specs, channels, resolves, snapshot[0], fetched[0])
  }

  /**
   * A player at which the sweep stops (a failed lookup, or a message to a
   * missing channel) is the last one handled: whatever the later lookups
   * return, the effects are those of the players up to it.
   */
  lemma {:induction false} LegacySweepStops(specs: seq<Spectator>, channels: map<int, int>, resolves: set<int>,
                                            snapshot: seq<Player>, fetched: seq<Option<real>>, i: nat)
    requires i < |snapshot| == |fetched|
    requires !Continues(specs, channels, resolves, snapshot[i], fetched[i])
    ensures LegacySweep(specs, channels, resolves, snapshot, fetched)
         == LegacySweep(specs, channels, resolves, snapshot[..i + 1], fetched[..i + 1])
  {
    var s, f := snapshot[..i + 1], fetched[..i + 1];
    assert s[0] == snapshot[0] && f[0] == fetched[0];
    if i > 0 {
      assert s[1..] == snapshot[1..][..i] && f[1..] == fetched[1..][..i];
      LegacySweepStops(specs, channels, resolves, snapshot[1..], fetched[1..], i - 1);
    } else {
      assert s[1..] == [] && f[1..] == [];
    }
  }

  /** In particular a failed lookup ends the tick: the later players are not looked at. */
  lemma FailureEndsSweep(specs: seq<Spectator>, channels: map<int, int>, resolves: set<int>,
                         snapshot: seq<Player>, fetched: seq<Option<real>>, i: nat, later: seq<Option<real>>)
    requires i < |snapshot| == |fetched| == |later|
    requires fetched[i].None?
    requires forall j :: 0 <= j <= i ==> later[j] == fetched[j]
    ensures LegacySweep(specs, channels, resolves, snapshot, later) == LegacySweep(specs, channels, resolves, snapshot, fetched)
  {
    LegacySweepStops(specs, channels, resolves, snapshot, fetched, i);
    LegacySweepStops(specs, channels, resolves, snapshot, later, i);
    assert later[..i + 1] == fetched[..i + 1];
  }

  /** The sweep unrolled at position `i` of the snapshot. */
  lemma SweepAt(specs: seq<Spectator>, channels: map<int, int>, resolves: set<int>, players: seq<Player>,
                snapshot: seq<Player>, fetched: seq<Option<real>>, i: nat)
    requires i < |snapshot| == |fetched|
    ensures var go := Continues(specs, channels, resolves, snapshot[i], fetched[i]);
      && LegacySweep(specs, channels, resolves, snapshot[i..], fetched[i..])
         == LegacyStep(specs, channels, resolves, snapshot[i], fetched[i]) +
            (if go then LegacySweep(specs, channels, resolves, snapshot[i + 1..], fetched[i + 1..]) else [])
      && LegacySweepPlayers(specs, channels, resolves, players, snapshot[i..], fetched[i..])
         == (var after := StepPlayers(players, snapshot[i], fetched[i]);
             if go then LegacySweepPlayers(specs, channels, resolves, after, snapshot[i + 1..], fetched[i + 1..]) else after)
      && LegacySweepRaises(specs, channels, resolves, snapshot[i..], fetched[i..])
         == (if go then LegacySweepRaises(specs, channels, resolves, snapshot[i + 1..], fetched[i + 1..])
             else Raises(specs, channels, resolves, snapshot[i], fetched[i]))
  {
    assert snapshot[i..][1..] == snapshot[i + 1..] && fetched[i..][1..] == fetched[i + 1..];
  }

  lemma RatingFits(rating: real)
    ensures Raider.RatingUpdate(rating).Keys <= LegacyRaiderSchema.Names()
    ensures ValuesFit(LegacyRaiderSchema, Raider.RatingUpdate(rating))
    ensures LegacyRaiderSchema.unique == []
  {
    assert LegacyRaiderSchema.columns[4].name == "rating";
    assert LegacyRaiderSchema.columns[4] in LegacyRaiderSchema.columns;
  }

  /** `set_rating(player_id, rating)` on the legacy table. */
  method SetRating(t: LegacyTracker, id: int, rating: real)
    requires t.Valid() && t.schema == LegacyRaiderSchema
    modifies t
    ensures t.Valid()
    ensures t.players == Overwrite(old(t.players), id, Raider.RatingUpdate(rating))
    ensures t.nextId == old(t.nextId) && t.spectators == old(t.spectators) && t.channels == old(t.channels)
  {
    RatingFits(rating);
    OverwriteKeepsValid(t.schema, t.players, t.nextId, id, Raider.RatingUpdate(rating));
    OverwriteIds(t.players, id, Raider.RatingUpdate(rating));
    t.players := Overwrite(t.players, id, Raider.RatingUpdate(rating));
  }

  /** The keyword arguments `command_add` passes: region, realm, name and the fetched rating. */
  function AddFields(region: string, realm: string, name: string, rating: real): Fields {
    map["region" := Text(region), "realm" := Text(realm), "name" := Text(name), "rating" := Float(rating)]
  }

  /** As written, the keyword arguments leave out `discord_id`, the first field `create_player` reads. */
  lemma AddFieldsMissDiscordId(players: seq<Player>, nextId: int, region: string, realm: string, name: string, rating: real)
    ensures CreateOutcome(LegacyRaiderSchema, players, nextId, AddFields(region, realm, name, rating))
         == Err(MissingField("discord_id"))
  {
    var kwargs := AddFields(region, realm, name, rating);
    assert LegacyRaiderSchema.columns[0].name == "discord_id" && "discord_id" !in kwargs;
    assert FirstMissing(LegacyRaiderSchema.columns, kwargs) == Some(0);
  }

  /** The keyword arguments name every column, each with a value of its kind. */
  lemma WithDiscordIdFits(region: string, realm: string, name: string, rating: real)
    ensures var kwargs := AddFields(region, realm, name, rating)["discord_id" := Null];
      kwargs.Keys == LegacyRaiderSchema.Names() && ValuesFit(LegacyRaiderSchema, kwargs)
  {
    var kwargs := AddFields(region, realm, name, rating)["discord_id" := Null];
    WithDiscordIdKeys(region, realm, name, rating);
    forall c | c in LegacyRaiderSchema.columns && c.name in kwargs ensures Fits(c.kind, kwargs[c.name]) {
      var k :| 0 <= k < |LegacyRaiderSchema.columns| && LegacyRaiderSchema.columns[k] == c;
      assert k == 0 || k == 1 || k == 2 || k == 3 || k == 4;
    }
  }

  lemma WithDiscordIdKeys(region: string, realm: string, name: string, rating: real)
    ensures AddFields(region, realm, name, rating)["discord_id" := Null].Keys == LegacyRaiderSchema.Names()
  {
    LegacyNames();
  }

  /** With an explicit NULL `discord_id` the create always succeeds: the legacy table has no UNIQUE key. */
  lemma WithDiscordIdCreates(players: seq<Player>, nextId: int, region: string, realm: string, name: string, rating: real)
    ensures var kwargs := AddFields(region, realm, name, rating)["discord_id" := Null];
      CreateOutcome(LegacyRaiderSchema, players, nextId, kwargs) == Ok(Some(Player(nextId, kwargs)))
      && ValuesFit(LegacyRaiderSchema, kwargs)
  {
    WithDiscordIdFits(region, realm, name, rating);
    CreateNeverIgnored(LegacyRaiderSchema, players, nextId, AddFields(region, realm, name, rating)["discord_id" := Null]);
  }

  /** The arguments as written are of the right kinds; only a column is missing. */
  lemma AddFieldsFit(region: string, realm: string, name: string, rating: real)
    ensures ValuesFit(LegacyRaiderSchema, AddFields(region, realm, name, rating))
  {
    LegacyNames();
  }

  /** How the command's error handler reports a KeyError for `key`. */
  function KeyError(key: string): string {
    "KeyError: '" + key + "'"
  }

  /**
   * How the command's error handler reports the OperationalError of the
   * legacy `get_player`: base.py:102 puts the field-name tuple itself in the
   * SELECT list, a parenthesised row value that SQLite rejects.
   */
  const RowValueMisused := "OperationalError: row value misused"

  /** The raider.io cog on the legacy tracker. */
  class LegacyRaiderCog {
    const tracker: LegacyTracker
    var updateRunning: bool
    var outbox: seq<Effect<Raider.RatingChange>>

    ghost predicate Valid()
      reads this, tracker
    {
      tracker.Valid() && tracker.schema == LegacyRaiderSchema
    }

    /** Both loops are started when the cog is built. */
    constructor ()
      ensures Valid() && fresh(tracker)
      ensures tracker.players == [] && tracker.spectators == [] && tracker.channels == map[]
      ensures updateRunning && outbox == []
    {
      LegacyNames();
      tracker := new LegacyTracker(LegacyRaiderSchema);
      updateRunning := true;
      outbox := [];
    }

    /**
     * `raider:add` as written: the default channel is set, then
     * `get_player` raises on its malformed SELECT whatever the arguments
     * are, so no player and no subscription is ever added.
     */
    method CommandAddAsWritten(region: string, realm: string, name: string, guildId: int, channelId: int)
      returns (o: Outcome<Reply>)
      requires Valid()
      modifies tracker
      ensures Valid()
      ensures tracker.channels == DefaultChannel(old(tracker.channels), guildId, channelId)
      ensures tracker.players == old(tracker.players) && tracker.spectators == old(tracker.spectators)
      ensures o == Failed(RowValueMisused)
    {
      tracker.SetChannelIfUnset(guildId, channelId);
      o := Failed(RowValueMisused);
    }

    /**
     * `raider:remove` as written: `get_player` raises on its malformed
     * SELECT before anything is looked up, so nothing changes.
     */
    method CommandRemoveAsWritten(region: string, realm: string, name: string, guildId: int) returns (o: Outcome<Reply>)
      ensures o == Failed(RowValueMisused)
    {
      o := Failed(RowValueMisused);
    }

    /**
     * `raider:add` with `get_player` repaired and the rest as written: once
     * the player is not found and the lookup succeeds, `create_player` is
     * called without `discord_id` and raises KeyError, so nobody is ever
     * added; the default channel is set by then.
     */
    method CommandAddLookupRepaired(region: string, realm: string, name: string, guildId: int, channelId: int,
                               fetched: Result<real, string>) returns (o: Outcome<Reply>)
      requires Valid()
      modifies tracker
      ensures Valid()
      ensures tracker.channels == DefaultChannel(old(tracker.channels), guildId, channelId)
      ensures tracker.players == old(tracker.players)
      ensures var found := Find(LegacyRaiderSchema, old(tracker.players), Raider.KeyCriteria(region, realm, name));
        found.Ok? && (found.value.None? ==>
          tracker.spectators == old(tracker.spectators) &&
          o == (if fetched.Err? then Done(Notice("error: " + fetched.error)) else Failed(KeyError("discord_id"))))
    {
      tracker.SetChannelIfUnset(guildId, channelId);
      LegacyLookupOk(tracker.players, region, realm, name);
      var found := tracker.GetPlayer(Raider.KeyCriteria(region, realm, name));
      if found.value.None? {
        if fetched.Err? {
          return Done(Notice("error: " + fetched.error));
        }
        AddFieldsMissDiscordId(tracker.players, tracker.nextId, region, realm, name, fetched.value);
        AddFieldsFit(region, realm, name, fetched.value);
        var created := tracker.CreatePlayer(AddFields(region, realm, name, fetched.value));
        return Failed(KeyError(created.error.name));
      }
      var player := found.value.value;
      assert player.id in Ids(tracker.players);
      var added := tracker.CreateSpectator(guildId, player.id);
      o := Done(Watching(added, player));
    }

    /**
     * `raider:add` as intended: the default channel is set first; an
     * existing player is reused, otherwise the looked-up rating creates one
     * (with no Discord id); then the guild watches it and the reply says
     * whether that is new. A failed lookup replies with the error and adds
     * nothing.
     */
    method CommandAdd(region: string, realm: string, name: string, guildId: int, channelId: int,
                      fetched: Result<real, string>) returns (o: Outcome<Reply>)
      requires Valid()
      modifies tracker
      ensures Valid()
      ensures tracker.channels == DefaultChannel(old(tracker.channels), guildId, channelId)
      ensures var found := Find(LegacyRaiderSchema, old(tracker.players), Raider.KeyCriteria(region, realm, name));
        && found.Ok?
        && (found.value.Some? ==>
              tracker.players == old(tracker.players) &&
              o == Done(Watching(!HasPair(old(tracker.spectators), guildId, found.value.value.id), found.value.value)) &&
              tracker.spectators == Subscribe(old(tracker.spectators), guildId, found.value.value.id, None))
        && (found.value.None? && fetched.Err? ==>
              o == Done(Notice("error: " + fetched.error)) &&
              tracker.players == old(tracker.players) && tracker.spectators == old(tracker.spectators))
        && (found.value.None? && fetched.Ok? ==>
              var row := Player(old(tracker.nextId), AddFields(region, realm, name, fetched.value)["discord_id" := Null]);
              tracker.players == old(tracker.players) + [row] &&
              o == Done(Watching(true, row)) &&
              tracker.spectators == old(tracker.spectators) + [Spectator(guildId, row.id, None)])
    {
      tracker.SetChannelIfUnset(guildId, channelId);
      LegacyLookupOk(tracker.players, region, realm, name);
      var found := tracker.GetPlayer(Raider.KeyCriteria(region, realm, name));
      var player: Player;
      if found.value.Some? {
        player := found.value.value;
      } else {
        if fetched.Err? {
          return Done(Notice("error: " + fetched.error));
        }
        var kwargs := AddFields(region, realm, name, fetched.value)["discord_id" := Null];
        WithDiscordIdCreates(tracker.players, tracker.nextId, region, realm, name, fetched.value);
        var created := tracker.CreatePlayer(kwargs);
        player := created.value.value;
        assert player in tracker.players;
        assert !HasPair(tracker.spectators, guildId, player.id);
      }
      assert player.id in Ids(tracker.players);
      var added := tracker.CreateSpectator(guildId, player.id);
      o := Done(Watching(added, player));
    }

    /** `raider:remove`: an unknown player gets an error reply and changes nothing; otherwise the guild stops watching it. */
    method CommandRemove(region: string, realm: string, name: string, guildId: int) returns (o: Outcome<Reply>)
      requires Valid()
      modifies tracker
      ensures Valid()
      ensures tracker.players == old(tracker.players) && tracker.channels == old(tracker.channels)
      ensures var found := Find(LegacyRaiderSchema, old(tracker.players), Raider.KeyCriteria(region, realm, name));
        && found.Ok?
        && (found.value.None? ==>
              o == Done(Notice("error: specified player " + name + " does not exist!")) &&
              tracker.spectators == old(tracker.spectators))
        && (found.value.Some? ==>
              o == Done(Unwatched(HasPair(old(tracker.spectators), guildId, found.value.value.id), found.value.value)) &&
              tracker.spectators == Unsubscribe(old(tracker.spectators), guildId, found.value.value.id))
    {
      LegacyLookupOk(tracker.players, region, realm, name);
      var found := tracker.GetPlayer(Raider.KeyCriteria(region, realm, name));
      if found.value.None? {
        return Done(Notice("error: specified player " + name + " does not exist!"));
      }
      var player := found.value.value;
      var removed := tracker.DeleteSpectator(guildId, player.id);
      o := Done(Unwatched(removed, player));
    }

    /** `raider:here`: this channel becomes the guild's notification channel. */
    method CommandHere(guildId: int, channelId: int) returns (o: Outcome<Reply>)
      requires Valid()
      modifies tracker
      ensures Valid()
      ensures tracker.channels == old(tracker.channels)[guildId := channelId]
      ensures tracker.players == old(tracker.players) && tracker.spectators == old(tracker.spectators)
      ensures o == Done(Notice(MessageHere))
    {
      tracker.SetChannel(guildId, channelId);
      o := Done(Notice(MessageHere));
    }

    /** One player of `loop_update`; `go` says whether the sweep carries on. */
    method StepPlayer(p: Player, fetched: Option<real>, resolves: set<int>) returns (go: bool)
      requires Valid()
      modifies this, tracker
      ensures Valid()
      ensures go == Continues(old(tracker.spectators), old(tracker.channels), resolves, p, fetched)
      ensures outbox == old(outbox) + LegacyStep(old(tracker.spectators), old(tracker.channels), resolves, p, fetched)
      ensures tracker.players == StepPlayers(old(tracker.players), p, fetched)
      ensures tracker.nextId == old(tracker.nextId) && tracker.spectators == old(tracker.spectators)
      ensures tracker.channels == old(tracker.channels) && updateRunning == old(updateRunning)
    {
      if fetched.None? {
        return false;
      }
      var rating := fetched.value;
      if Float(rating) == Raider.Rating(p) {
        return true;
      }
      ghost var before := outbox;
      SetRating(tracker, p.id, rating);
      outbox := outbox + [Persist(p.id)];
      var sent, ok := BroadcastAll(tracker.GetChannels(p.id), resolves, p.id, Raider.RatingChange(Raider.Rating(p), rating));
      outbox := outbox + sent;
      AppendAssoc(before, [Persist(p.id)], sent);
      go := ok;
    }

    /**
     * `loop_update`: the watched players are visited in order, `fetched[i]`
     * being the lookup result for the i-th (`None` for an InternalError,
     * which ends the tick). A message to a channel the client cannot
     * resolve raises, which ends the tick and stops the loop.
     */
    method LoopUpdate(fetched: seq<Option<real>>, resolves: set<int>)
      requires Valid() && updateRunning
      requires |fetched| == |tracker.GetWatchedPlayers()|
      modifies this, tracker
      ensures Valid()
      ensures var specs, channels, snapshot := old(tracker.spectators), old(tracker.channels), old(tracker.GetWatchedPlayers());
        && outbox == old(outbox) + LegacySweep(specs, channels, resolves, snapshot, fetched)
        && tracker.players == LegacySweepPlayers(specs, channels, resolves, old(tracker.players), snapshot, fetched)
        && updateRunning == !LegacySweepRaises(specs, channels, resolves, snapshot, fetched)
      ensures tracker.nextId == old(tracker.nextId) && tracker.spectators == old(tracker.spectators)
      ensures tracker.channels == old(tracker.channels)
    {
      var snapshot := tracker.GetWatchedPlayers();
      RunTick(snapshot, fetched, resolves);
    }

    /**
     * The state of `loop_update` before the i-th player: the effects of the
     * rest of the snapshot, appended, give the tick's total; the rest's
     * writes give its final table; nothing else has changed.
     */
    ghost predicate Ticking(snapshot: seq<Player>, fetched: seq<Option<real>>, resolves: set<int>, i: nat,
                            specs: seq<Spectator>, channels: map<int, int>, nextId: int,
                            total: seq<Effect<Raider.RatingChange>>, final: seq<Player>, raises: bool)
      requires i <= |snapshot| == |fetched|
      reads this, tracker
    {
      && Valid() && updateRunning
      && tracker.spectators == specs && tracker.channels == channels && tracker.nextId == nextId
      && outbox + LegacySweep(specs, channels, resolves, snapshot[i..], fetched[i..]) == total
      && LegacySweepPlayers(specs, channels, resolves, tracker.players, snapshot[i..], fetched[i..]) == final
      && LegacySweepRaises(specs, channels, resolves, snapshot[i..], fetched[i..]) == raises
    }

    /** The state once a tick has ended. */
    ghost predicate Ticked(specs: seq<Spectator>, channels: map<int, int>, nextId: int,
                           total: seq<Effect<Raider.RatingChange>>, final: seq<Player>, raises: bool)
      reads this, tracker
    {
      && Valid()
      && tracker.spectators == specs && tracker.channels == channels && tracker.nextId == nextId
      && outbox == total && tracker.players == final && updateRunning == !raises
    }

    /** One iteration of `loop_update`'s loop; `go` is false when the tick ends here. */
    method TickNext(snapshot: seq<Player>, fetched: seq<Option<real>>, resolves: set<int>, i: nat,
                    ghost specs: seq<Spectator>, ghost channels: map<int, int>, ghost nextId: int,
                    ghost total: seq<Effect<Raider.RatingChange>>, ghost final: seq<Player>, ghost raises: bool)
      returns (go: bool)
      requires i < |snapshot| == |fetched|
      requires Ticking(snapshot, fetched, resolves, i, specs, channels, nextId, total, final, raises)
      modifies this, tracker
      ensures go ==> Ticking(snapshot, fetched, resolves, i + 1, specs, channels, nextId, total, final, raises)
      ensures !go ==> Ticked(specs, channels, nextId, total, final, raises)
    {
      SweepAt(specs, channels, resolves, tracker.players, snapshot, fetched, i);
      ghost var rest := if Continues(specs, channels, resolves, snapshot[i], fetched[i])
        then LegacySweep(specs, channels, resolves, snapshot[i + 1..], fetched[i + 1..]) else [];
      ghost var before := outbox;
      go := StepPlayer(snapshot[i], fetched[i], resolves);
      AppendAssoc(before, LegacyStep(specs, channels, resolves, snapshot[i], fetched[i]), rest);
      if !go {
        updateRunning := fetched[i].None?;
      }
    }

    /** The loop of `loop_update` over a snapshot already taken. */
    method RunTick(snapshot: seq<Player>, fetched: seq<Option<real>>, resolves: set<int>)
      requires Valid() && updateRunning
      requires |fetched| == |snapshot|
      modifies this, tracker
      ensures var specs, channels := old(tracker.spectators), old(tracker.channels);
        Ticked(specs, channels, old(tracker.nextId),
               old(outbox) + LegacySweep(specs, channels, resolves, snapshot, fetched),
               LegacySweepPlayers(specs, channels, resolves, old(tracker.players), snapshot, fetched),
               LegacySweepRaises(specs, channels, resolves, snapshot, fetched))
    {
      ghost var specs, channels, nextId := tracker.spectators, tracker.channels, tracker.nextId;
      ghost var total := outbox + LegacySweep(specs, channels, resolves, snapshot, fetched);
      ghost var final := LegacySweepPlayers(specs, channels, resolves, tracker.players, snapshot, fetched);
      ghost var raises := LegacySweepRaises(specs, channels, resolves, snapshot, fetched);
      assert snapshot[0..] == snapshot && fetched[0..] == fetched;
      var i := 0;
      while i < |snapshot|
        invariant 0 <= i <= |snapshot|
        invariant Ticking(snapshot, fetched, resolves, i, specs, channels, nextId, total, final, raises)
      {
        var go := TickNext(snapshot, fetched, resolves, i, specs, channels, nextId, total, final, raises);
        if !go {
          return;
        }
        i := i + 1;
      }
      assert snapshot[i..] == [] && fetched[i..] == [];
    }

    /** `loop_clean`: drop the players nobody watches. */
    method LoopClean()
      requires Valid()
      modifies tracker
      ensures Valid()
      ensures tracker.players == Retain(old(tracker.players), SubscribedIds(tracker.spectators))
      ensures tracker.spectators == old(tracker.spectators) && tracker.channels == old(tracker.channels)
    {
      var _ := tracker.DeletePlayersUnwatched();
    }
  }
}
