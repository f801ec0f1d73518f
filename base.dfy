/**
 * The older tracker base class: the same three tables as the current store,
 * except that a subscription carries no user tag, the players table of the
 * one kind built on it declares no UNIQUE constraint, and the channel query
 * yields bare channel ids. Rows are kept in rowid order as in `Store`.
 */
module Legacy {
  import opened Wrappers
  import opened Schemas
  import opened Store

  /** `get_channels(player)`: the channel of every guild that watches the player and has one. */
  function ChannelIds(specs: seq<Spectator>, channels: map<int, int>, player: int): (r: seq<int>)
    ensures |r| <= |specs|
    ensures forall c :: c in r <==> exists s :: s in specs && s.player == player && s.guild in channels && c == channels[s.guild]
  {
    var rows := ChannelsOf(specs, channels, player);
    var r := seq(|rows|, k requires 0 <= k < |rows| => rows[k].channel);
    assert forall c :: c in r <==> exists x :: x in rows && x.channel == c by {
      forall c | c in r ensures exists x :: x in rows && x.channel == c {
        var k :| 0 <= k < |r| && r[k] == c;
        assert rows[k] in rows;
      }
      forall c | (exists x :: x in rows && x.channel == c) ensures c in r {
        var x :| x in rows && x.channel == c;
        var k :| 0 <= k < |rows| && rows[k] == x;
        assert r[k] == c;
      }
    }
    r
  }

  /** The players some subscription of `guild` points at, in table order, each once (`SELECT DISTINCT`). */
  function WatchedBy(players: seq<Player>, specs: seq<Spectator>, guild: int): (r: seq<Player>)
    ensures forall p :: p in r <==> p in players && exists s :: s in specs && s.guild == guild && s.player == p.id
    ensures IdsIncreasing(players) ==> IdsIncreasing(r)
  {
    Retain(players, set s | s in specs && s.guild == guild :: s.player)
  }

  /**
   * With no UNIQUE constraint, `INSERT OR IGNORE` never ignores: a create
   * that names every column succeeds, even for a row equal to an existing one.
   */
  lemma CreateNeverIgnored(schema: Schema, players: seq<Player>, nextId: int, kwargs: Fields)
    requires schema.unique == [] && kwargs.Keys == schema.Names()
    ensures CreateOutcome(schema, players, nextId, kwargs) == Ok(Some(Player(nextId, kwargs)))
  {
  }

  /** Adding the same player twice leaves two rows with equal fields and different ids. */
  lemma DuplicatesKept(schema: Schema, players: seq<Player>, nextId: int, kwargs: Fields)
    requires schema.unique == [] && kwargs.Keys == schema.Names()
    ensures var once := players + [Player(nextId, kwargs)];
      CreateOutcome(schema, once, nextId + 1, kwargs) == Ok(Some(Player(nextId + 1, kwargs)))
  {
    CreateNeverIgnored(schema, players + [Player(nextId, kwargs)], nextId + 1, kwargs);
  }

  /** One legacy tracker's three tables behind its connection. */
  class LegacyTracker {
    const schema: Schema
    var players: seq<Player>
    var nextId: int
    var spectators: seq<Spectator>
    var channels: map<int, int>

    /** The store invariant, and no subscription carries a user tag: the table has no such column. */
    ghost predicate Valid()
      reads this
    {
      && schema.WellFormed()
      && TableValid(schema, players, nextId)
      && PairsDistinct(spectators)
      && Referenced(players, spectators)
      && (forall s :: s in spectators ==> s.user.None?)
    }

    constructor (schema: Schema)
      requires schema.WellFormed()
      ensures Valid() && this.schema == schema
      ensures players == [] && nextId == 1 && spectators == [] && channels == map[]
    {
      this.schema := schema;
      players := [];
      nextId := 1;
      spectators := [];
      channels := map[];
    }

    /**
     * `create_player(**kwargs)`: every model field but the leading id is
     * read from the keyword arguments (a missing one is a KeyError), and
     * the store assigns the id.
     */
    method CreatePlayer(kwargs: Fields) returns (r: Result<Option<Player>, StoreError>)
      requires Valid() && ValuesFit(schema, kwargs)
      modifies this
      ensures Valid()
      ensures r == CreateOutcome(schema, old(players), old(nextId), kwargs)
      ensures schema.unique == [] && kwargs.Keys == schema.Names() ==> r == Ok(Some(Player(old(nextId), kwargs)))
      ensures r.Ok? && r.value.Some? ==> players == old(players) + [r.value.value] && nextId == old(nextId) + 1
      ensures !(r.Ok? && r.value.Some?) ==> players == old(players) && nextId == old(nextId)
      ensures spectators == old(spectators) && channels == old(channels)
    {
      if schema.unique == [] && kwargs.Keys == schema.Names() {
        CreateNeverIgnored(schema, players, nextId, kwargs);
      }
      r := CreateOutcome(schema, players, nextId, kwargs);
      if r.Ok? && r.value.Some? {
        CreateKeepsValid(schema, players, nextId, kwargs);
        assert Referenced(players + [r.value.value], spectators) by {
          forall s | s in spectators ensures s.player in Ids(players + [r.value.value]) {
            var p :| p in players && p.id == s.player;
            assert p in players + [r.value.value];
          }
        }
        players := players + [r.value.value];
        nextId := nextId + 1;
      }
    }

    /** `get_player(**criteria)`: the first row satisfying every equality. */
    function GetPlayer(criteria: Fields): (r: Result<Option<Player>, StoreError>)
      reads this
      ensures r.Ok? && r.value.Some? ==> r.value.value in players && Matches(schema, r.value.value, criteria)
      ensures r.Ok? && r.value.None? ==> forall p :: p in players ==> !Matches(schema, p, criteria)
    {
      Find(schema, players, criteria)
    }

    /** `get_players_watched_by_guild(guild)`: exactly the stored players the guild subscribes to. */
    function GetPlayersWatchedByGuild(guild: int): (r: seq<Player>)
      reads this
      ensures forall p :: p in r <==> p in players && exists s :: s in spectators && s.guild == guild && s.player == p.id
    {
      WatchedBy(players, spectators, guild)
    }

    /** `get_watched_players()`: exactly the stored players some guild subscribes to. */
    function GetWatchedPlayers(): (r: seq<Player>)
      reads this
      ensures forall p :: p in r <==> p in players && p.id in SubscribedIds(spectators)
    {
      SpectatedPlayers(players, spectators)
    }

    /** `get_channels(player)`: the channel of every guild that watches the player and has one. */
    function GetChannels(player: int): (r: seq<int>)
      reads this
      ensures |r| <= |spectators|
      ensures forall c :: c in r <==> exists s :: s in spectators && s.player == player && s.guild in channels && c == channels[s.guild]
    {
      ChannelIds(spectators, channels, player)
    }

    /** `delete_players_unwatched()`: drops every player no guild watches and returns how many. */
    method DeletePlayersUnwatched() returns (count: int)
      requires Valid()
      modifies this
      ensures Valid()
      ensures players == Retain(old(players), SubscribedIds(spectators))
      ensures count == |Discard(old(players), SubscribedIds(spectators))|
      ensures nextId == old(nextId) && spectators == old(spectators) && channels == old(channels)
    {
      var ids := SubscribedIds(spectators);
      var kept := Retain(players, ids);
      assert Referenced(kept, spectators) by {
        forall s | s in spectators ensures s.player in Ids(kept) {
          var p :| p in players && p.id == s.player;
          assert p in kept;
        }
      }
      count := |players| - |kept|;
      players := kept;
    }

    /** `create_spectator(guild, player)`: true iff the pair was new. */
    method CreateSpectator(guild: int, player: int) returns (created: bool)
      requires Valid() && player in Ids(players)
      modifies this
      ensures Valid()
      ensures created == !HasPair(old(spectators), guild, player)
      ensures spectators == Subscribe(old(spectators), guild, player, None)
      ensures players == old(players) && nextId == old(nextId) && channels == old(channels)
    {
      created := !HasPair(spectators, guild, player);
      SubscribeOnce(spectators, guild, player, None, None);
      spectators := Subscribe(spectators, guild, player, None);
    }

    /** `delete_spectator(guild, player)`: true iff the pair existed. */
    method DeleteSpectator(guild: int, player: int) returns (deleted: bool)
      requires Valid()
      modifies this
      ensures Valid()
      ensures deleted == HasPair(old(spectators), guild, player)
      ensures spectators == Unsubscribe(old(spectators), guild, player)
      ensures players == old(players) && nextId == old(nextId) && channels == old(channels)
    {
      deleted := HasPair(spectators, guild, player);
      spectators := Unsubscribe(spectators, guild, player);
    }

    /** `set_channel_if_unset(guild, channel)`. */
    method SetChannelIfUnset(guild: int, channel: int)
      requires Valid()
      modifies this
      ensures Valid()
      ensures channels == DefaultChannel(old(channels), guild, channel)
      ensures players == old(players) && nextId == old(nextId) && spectators == old(spectators)
    {
      channels := DefaultChannel(channels, guild, channel);
    }

    /** `set_channel(guild, channel)`: upsert. */
    method SetChannel(guild: int, channel: int)
      requires Valid()
      modifies this
      ensures Valid()
      ensures channels == old(channels)[guild := channel]
      ensures players == old(players) && nextId == old(nextId) && spectators == old(spectators)
    {
      channels := channels[guild := channel];
    }
  }
}
