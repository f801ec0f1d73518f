/**
 * The generic subscription store behind every tracker: a players table
 * with an AUTOINCREMENT id and a UNIQUE natural key, a spectators table
 * linking guilds to players (UNIQUE on the pair, with an optional user tag),
 * and a channels table mapping each guild to one notification channel.
 *
 * Tables are kept in rowid order. Queries without ORDER BY are modelled as
 * returning rows in that order.
 */
module Store {
  import opened Wrappers
  import opened Schemas

  /** A players row: the surrogate id and the kind-specific fields. */
  datatype Player = Player(id: int, fields: Fields)

  /** A spectators row: `guild` watches `player`, optionally on behalf of Discord user `user`. */
  datatype Spectator = Spectator(guild: int, player: int, user: Option<int>)

  datatype SpectatedPlayer = SpectatedPlayer(player: Player, user: Option<int>)

  datatype SpectatorChannel = SpectatorChannel(guild: int, channel: int, user: Option<int>)

  datatype StoreError =
    | MissingField(name: string)  // KeyError while collecting the values to insert
    | UnexpectedField             // TypeError building the model from extra keyword arguments
    | NoCriteria                  // ValueError unpacking an empty criteria dict
    | NoSuchColumn                // sqlite3.OperationalError on an unknown column

  // ----- players -----

  function Ids(players: seq<Player>): set<int> {
    set p | p in players :: p.id
  }

  predicate IdsIncreasing(players: seq<Player>) {
    forall i, j :: 0 <= i < j < |players| ==> players[i].id < players[j].id
  }

  /** No two distinct rows share the natural key. */
  predicate KeysDistinct(schema: Schema, players: seq<Player>) {
    forall p, q :: p in players && q in players && p.id != q.id ==> !Conflicts(schema, p.fields, q.fields)
  }

  /**
   * The players table: rowids increasing and below the AUTOINCREMENT
   * counter, each row typed by the schema, the UNIQUE key respected.
   */
  predicate TableValid(schema: Schema, players: seq<Player>, nextId: int) {
    && 1 <= nextId
    && IdsIncreasing(players)
    && (forall p :: p in players ==> 1 <= p.id < nextId && WellTyped(schema, p.fields))
    && KeysDistinct(schema, players)
  }

  /** The value of a column of a row; `id` is the surrogate key. */
  function ColumnValue(p: Player, name: string): Value {
    if name == "id" then Int(p.id) else if name in p.fields then p.fields[name] else Null
  }

  predicate IsColumn(schema: Schema, name: string) {
    name == "id" || name in schema.Names()
  }

  /** The WHERE clause `k1=? AND k2=? ...` of a lookup holds for row `p`. */
  predicate Matches(schema: Schema, p: Player, criteria: Fields) {
    forall k :: k in criteria ==> Collate(schema.KindOf(k), ColumnValue(p, k), criteria[k])
  }

  /** Index of the first row (in rowid order) satisfying the criteria. */
  function FirstMatch(schema: Schema, players: seq<Player>, criteria: Fields): (k: Option<nat>)
    ensures k.Some? ==> k.value < |players| && Matches(schema, players[k.value], criteria)
    ensures forall j :: 0 <= j < |players| && (k.None? || j < k.value) ==> !Matches(schema, players[j], criteria)
  {
    if players == [] then None
    else if Matches(schema, players[0], criteria) then Some(0)
    else match FirstMatch(schema, players[1..], criteria)
      case None => None
      case Some(k) => Some(k + 1)
  }

  /**
   * `get_player(**criteria)`: the first row satisfying every equality, or
   * None; an empty criteria dict and an unknown column are errors.
   */
  function Find(schema: Schema, players: seq<Player>, criteria: Fields): (r: Result<Option<Player>, StoreError>)
    ensures r == Err(NoCriteria) <==> criteria == map[]
    ensures r == Err(NoSuchColumn) <==> criteria != map[] && exists k :: k in criteria && !IsColumn(schema, k)
    ensures r.Ok? && r.value.Some? ==> r.value.value in players && Matches(schema, r.value.value, criteria)
    ensures r.Ok? && r.value.None? ==> forall p :: p in players ==> !Matches(schema, p, criteria)
  {
    if criteria == map[] then Err(NoCriteria)
    else if exists k :: k in criteria && !IsColumn(schema, k) then Err(NoSuchColumn)
    else match FirstMatch(schema, players, criteria)
      case None => Ok(None)
      case Some(i) => Ok(Some(players[i]))
  }

  /** Index of the first schema column the keyword arguments leave out. */
  function FirstMissing(columns: seq<Column>, kwargs: Fields): (k: Option<nat>)
    ensures k.Some? ==> k.value < |columns| && columns[k.value].name !in kwargs
    ensures forall j :: 0 <= j < |columns| && (k.None? || j < k.value) ==> columns[j].name in kwargs
  {
    if columns == [] then None
    else if columns[0].name !in kwargs then Some(0)
    else match FirstMissing(columns[1..], kwargs)
      case None => None
      case Some(k) => Some(k + 1)
  }

  lemma NamesCovered(schema: Schema, kwargs: Fields)
    requires forall j :: 0 <= j < |schema.columns| ==> schema.columns[j].name in kwargs
    ensures schema.Names() <= kwargs.Keys
  {
    forall n | n in schema.Names() ensures n in kwargs {
      var c :| c in schema.columns && c.name == n;
      var j :| 0 <= j < |schema.columns| && schema.columns[j] == c;
    }
  }

  /** Some stored row has the same natural key as the keyword arguments. */
  predicate Collides(schema: Schema, players: seq<Player>, kwargs: Fields) {
    exists p :: p in players && Conflicts(schema, p.fields, kwargs)
  }

  /**
   * `create_player(**kwargs)` against a table in a given state: a missing
   * field is a KeyError; a natural-key collision is ignored (None); extra
   * arguments make the model constructor fail after the insert, which the
   * transaction rolls back; otherwise a row with the next id.
   */
  function CreateOutcome(schema: Schema, players: seq<Player>, nextId: int, kwargs: Fields): (r: Result<Option<Player>, StoreError>)
    ensures r.Err? && r.error.MissingField? ==> r.error.name in schema.Names() && r.error.name !in kwargs
    ensures !(r.Err? && r.error.MissingField?) <==> schema.Names() <= kwargs.Keys
    ensures r == Ok(None) <==> schema.Names() <= kwargs.Keys && Collides(schema, players, kwargs)
    ensures r.Ok? && r.value.Some? ==> r.value.value == Player(nextId, kwargs) && kwargs.Keys == schema.Names()
    ensures r == Ok(Some(Player(nextId, kwargs))) <==>
      kwargs.Keys == schema.Names() && !Collides(schema, players, kwargs)
    ensures r == Err(UnexpectedField) <==>
      schema.Names() < kwargs.Keys && !Collides(schema, players, kwargs)
  {
    match FirstMissing(schema.columns, kwargs)
    case Some(k) => Err(MissingField(schema.columns[k].name))
    case None =>
      NamesCovered(schema, kwargs);
      if Collides(schema, players, kwargs) then Ok(None)
      else if kwargs.Keys != schema.Names() then Err(UnexpectedField)
      else Ok(Some(Player(nextId, kwargs)))
  }

  /** A successful insert keeps the players table valid. */
  lemma CreateKeepsValid(schema: Schema, players: seq<Player>, nextId: int, kwargs: Fields)
    requires TableValid(schema, players, nextId) && ValuesFit(schema, kwargs)
    requires CreateOutcome(schema, players, nextId, kwargs).Ok?
    requires CreateOutcome(schema, players, nextId, kwargs).value.Some?
    ensures TableValid(schema, players + [Player(nextId, kwargs)], nextId + 1)
  {
    var n := Player(nextId, kwargs);
    var ps := players + [n];
    forall p, q | p in ps && q in ps && p.id != q.id
      ensures !Conflicts(schema, p.fields, q.fields)
    {
      if p == n {
        ConflictsSymmetric(schema, p.fields, q.fields);
      }
    }
  }

  /** A row that matches the natural key of the keyword arguments collides with them. */
  lemma KeyMatchConflicts(schema: Schema, p: Player, kwargs: Fields)
    requires schema.WellFormed() && schema.unique != []
    requires forall u :: u in schema.unique ==> u in kwargs && !kwargs[u].Null?
    ensures Matches(schema, p, KeyOf(schema, kwargs)) ==> Conflicts(schema, p.fields, kwargs)
  {
    var key := KeyOf(schema, kwargs);
    if Matches(schema, p, key) {
      forall u | u in schema.unique ensures u in p.fields && u in kwargs && Collate(schema.KindOf(u), p.fields[u], kwargs[u]) {
        assert u in key;
        assert Collate(schema.KindOf(u), ColumnValue(p, u), key[u]);
      }
    }
  }

  /**
   * After a successful insert, looking the row up by its natural key finds
   * exactly that row: no earlier row shares the key.
   */
  lemma CreateThenFind(schema: Schema, players: seq<Player>, nextId: int, kwargs: Fields)
    requires schema.WellFormed() && TableValid(schema, players, nextId) && ValuesFit(schema, kwargs)
    requires schema.unique != []
    requires forall u :: u in schema.unique ==> u in kwargs && !kwargs[u].Null?
    requires CreateOutcome(schema, players, nextId, kwargs) == Ok(Some(Player(nextId, kwargs)))
    ensures Find(schema, players + [Player(nextId, kwargs)], KeyOf(schema, kwargs)) == Ok(Some(Player(nextId, kwargs)))
  {
    var n := Player(nextId, kwargs);
    var ps := players + [n];
    var key := KeyOf(schema, kwargs);
    assert schema.unique[0] in key;
    forall k | k in key ensures IsColumn(schema, k) { }
    forall p | p in players ensures !Matches(schema, p, key) {
      KeyMatchConflicts(schema, p, kwargs);
    }
    assert Matches(schema, n, key);
    var m := FirstMatch(schema, ps, key);
    assert m.Some? by {
      assert ps[|players|] == n;
    }
    assert m.value == |players|;
  }

  /**
   * Re-adding a player under an ASCII case variant of its natural key is
   * ignored: NOCASE makes the keys collide.
   */
  lemma CreateIgnoresCase(schema: Schema, players: seq<Player>, nextId: int, kwargs: Fields, again: Fields)
    requires schema.unique != []
    requires forall u :: u in schema.unique ==> schema.KindOf(u) == NoCaseText
    requires forall u :: u in schema.unique ==> u in kwargs && kwargs[u].Text?
    requires schema.Names() <= again.Keys
    requires forall u :: u in schema.unique ==> u in again && again[u] == Text(Upper(kwargs[u].s))
    requires CreateOutcome(schema, players, nextId, kwargs) == Ok(Some(Player(nextId, kwargs)))
    ensures CreateOutcome(schema, players + [Player(nextId, kwargs)], nextId + 1, again) == Ok(None)
  {
    var n := Player(nextId, kwargs);
    forall u | u in schema.unique ensures Collate(schema.KindOf(u), kwargs[u], again[u]) {
      FoldIgnoresCase(kwargs[u].s);
    }
    assert n in players + [n];
    assert Conflicts(schema, n.fields, again);
  }

  /** One row under `UPDATE ... WHERE id=?`: the matching row takes the new values. */
  function Rewrite(p: Player, id: int, changes: Fields): Player {
    if p.id == id then Player(id, p.fields + changes) else p
  }

  /** `update_player(id, **changes)`: the row with that id takes the new values; others are untouched. */
  function Overwrite(players: seq<Player>, id: int, changes: Fields): (r: seq<Player>)
    ensures |r| == |players|
    ensures forall k :: 0 <= k < |r| ==> r[k].id == players[k].id
  {
    seq(|players|, k requires 0 <= k < |players| => Rewrite(players[k], id, changes))
  }

  /**
   * `after` is `before` row for row, ids and order kept, with only rows
   * whose id is `touched` possibly rewritten.
   */
  predicate Touches(before: seq<Player>, after: seq<Player>, touched: set<int>) {
    && |after| == |before|
    && (forall k :: 0 <= k < |before| ==> after[k].id == before[k].id)
    && (forall k :: 0 <= k < |before| && before[k].id !in touched ==> after[k] == before[k])
  }

  /** The ids of the players of a snapshot whose fetch succeeded. */
  function FetchedIds<T>(snapshot: seq<Player>, fetched: seq<Option<T>>): set<int>
    requires |snapshot| == |fetched|
  {
    set i | 0 <= i < |snapshot| && fetched[i].Some? :: snapshot[i].id
  }

  /** A non-empty snapshot's fetched ids are its first player's, when fetched, and those of the rest. */
  lemma FetchedIdsTail<T>(snapshot: seq<Player>, fetched: seq<Option<T>>)
    requires |snapshot| == |fetched|
    ensures snapshot != [] ==>
      FetchedIds(snapshot, fetched) == (if fetched[0].Some? then {snapshot[0].id} else {}) + FetchedIds(snapshot[1..], fetched[1..])
  {
    if snapshot != [] {
      var tail := FetchedIds(snapshot[1..], fetched[1..]);
      forall x | x in tail ensures x in FetchedIds(snapshot, fetched) {
        var i :| 0 <= i < |snapshot| - 1 && fetched[1..][i].Some? && snapshot[1..][i].id == x;
        assert fetched[i + 1].Some? && snapshot[i + 1].id == x;
      }
      forall x | x in FetchedIds(snapshot, fetched) && x !in tail ensures fetched[0].Some? && x == snapshot[0].id {
        var i :| 0 <= i < |snapshot| && fetched[i].Some? && snapshot[i].id == x;
      }
    }
  }

  /** Changing columns outside the natural key keeps a row typed and its key as it was. */
  lemma RewriteKeepsRow(schema: Schema, p: Player, id: int, changes: Fields)
    requires WellTyped(schema, p.fields)
    requires changes.Keys <= schema.Names() && ValuesFit(schema, changes)
    requires forall u :: u in schema.unique ==> u !in changes
    ensures Rewrite(p, id, changes).id == p.id
    ensures WellTyped(schema, Rewrite(p, id, changes).fields)
    ensures forall u :: u in schema.unique ==> (u in p.fields <==> u in Rewrite(p, id, changes).fields)
    ensures forall u :: u in schema.unique && u in p.fields ==> Rewrite(p, id, changes).fields[u] == p.fields[u]
  {
  }

  lemma ConflictsOnKey(schema: Schema, a: Fields, b: Fields, a': Fields, b': Fields)
    requires forall u :: u in schema.unique ==> (u in a <==> u in a') && (u in b <==> u in b')
    requires forall u :: u in schema.unique && u in a ==> a'[u] == a[u]
    requires forall u :: u in schema.unique && u in b ==> b'[u] == b[u]
    ensures Conflicts(schema, a, b) == Conflicts(schema, a', b')
  {
  }

  /** An UPDATE keeps the set of ids, so every subscription still names a row. */
  lemma OverwriteIds(players: seq<Player>, id: int, changes: Fields)
    ensures Ids(Overwrite(players, id, changes)) == Ids(players)
  {
    var updated := Overwrite(players, id, changes);
    forall x | x in Ids(players) ensures x in Ids(updated) {
      var p :| p in players && p.id == x;
      var k :| 0 <= k < |players| && players[k] == p;
      assert updated[k] in updated;
    }
    forall x | x in Ids(updated) ensures x in Ids(players) {
      var p :| p in updated && p.id == x;
      var k :| 0 <= k < |updated| && updated[k] == p;
      assert players[k] in players;
    }
  }

  /**
   * Overwriting columns outside the natural key with values of their kinds
   * keeps the table valid; an unknown id changes nothing.
   */
  lemma OverwriteKeepsValid(schema: Schema, players: seq<Player>, nextId: int, id: int, changes: Fields)
    requires TableValid(schema, players, nextId)
    requires changes.Keys <= schema.Names() && ValuesFit(schema, changes)
    requires forall u :: u in schema.unique ==> u !in changes
    ensures TableValid(schema, Overwrite(players, id, changes), nextId)
    ensures id !in Ids(players) ==> Overwrite(players, id, changes) == players
  {
    OverwriteRows(schema, players, nextId, id, changes);
    OverwriteKeys(schema, players, id, changes);
    if id !in Ids(players) {
      var r := Overwrite(players, id, changes);
      forall k | 0 <= k < |players| ensures r[k] == players[k] {
        assert players[k] in players;
      }
    }
  }

  lemma OverwriteRows(schema: Schema, players: seq<Player>, nextId: int, id: int, changes: Fields)
    requires forall p :: p in players ==> 1 <= p.id < nextId && WellTyped(schema, p.fields)
    requires changes.Keys <= schema.Names() && ValuesFit(schema, changes)
    requires forall u :: u in schema.unique ==> u !in changes
    ensures forall p :: p in Overwrite(players, id, changes) ==> 1 <= p.id < nextId && WellTyped(schema, p.fields)
  {
    var r := Overwrite(players, id, changes);
    forall p | p in r ensures 1 <= p.id < nextId && WellTyped(schema, p.fields) {
      var k :| 0 <= k < |r| && r[k] == p;
      assert players[k] in players;
      RewriteKeepsRow(schema, players[k], id, changes);
    }
  }

  lemma OverwriteKeys(schema: Schema, players: seq<Player>, id: int, changes: Fields)
    requires KeysDistinct(schema, players)
    requires forall p :: p in players ==> WellTyped(schema, p.fields)
    requires changes.Keys <= schema.Names() && ValuesFit(schema, changes)
    requires forall u :: u in schema.unique ==> u !in changes
    ensures KeysDistinct(schema, Overwrite(players, id, changes))
  {
    var r := Overwrite(players, id, changes);
    forall p, q | p in r && q in r && p.id != q.id ensures !Conflicts(schema, p.fields, q.fields) {
      var i :| 0 <= i < |r| && r[i] == p;
      var j :| 0 <= j < |r| && r[j] == q;
      assert players[i] in players && players[j] in players;
      RewriteKeepsRow(schema, players[i], id, changes);
      RewriteKeepsRow(schema, players[j], id, changes);
      ConflictsOnKey(schema, players[i].fields, players[j].fields, p.fields, q.fields);
    }
  }

  /** The rows whose id is in `ids`, in table order. */
  function Retain(players: seq<Player>, ids: set<int>): (r: seq<Player>)
    ensures forall p :: p in r <==> p in players && p.id in ids
    ensures IdsIncreasing(players) ==> IdsIncreasing(r)
  {
    if players == [] then []
    else
      var rest := Retain(players[1..], ids);
      if players[0].id in ids then
        assert forall p :: p in rest ==> p in players[1..];
        [players[0]] + rest
      else rest
  }

  /** The rows whose id is not in `ids`: what a DELETE ... WHERE id NOT IN removes. */
  function Discard(players: seq<Player>, ids: set<int>): (r: seq<Player>)
    ensures forall p :: p in r <==> p in players && p.id !in ids
    ensures |r| + |Retain(players, ids)| == |players|
  {
    if players == [] then []
    else if players[0].id in ids then Discard(players[1..], ids)
    else [players[0]] + Discard(players[1..], ids)
  }

  /** The row with this id, if any. */
  function Lookup(players: seq<Player>, id: int): (r: Option<Player>)
    ensures r.Some? ==> r.value in players && r.value.id == id
    ensures r.None? <==> id !in Ids(players)
  {
    if players == [] then None
    else if players[0].id == id then Some(players[0])
    else Lookup(players[1..], id)
  }

  // ----- spectators -----

  predicate HasPair(specs: seq<Spectator>, guild: int, player: int) {
    exists s :: s in specs && s.guild == guild && s.player == player
  }

  /** UNIQUE (guild_id, player_id). */
  predicate PairsDistinct(specs: seq<Spectator>) {
    forall i, j :: 0 <= i < j < |specs| ==> specs[i].guild != specs[j].guild || specs[i].player != specs[j].player
  }

  /** Every subscription names an existing player (foreign keys are not enforced by SQLite here). */
  predicate Referenced(players: seq<Player>, specs: seq<Spectator>) {
    forall s :: s in specs ==> s.player in Ids(players)
  }

  function SubscribedIds(specs: seq<Spectator>): set<int> {
    set s | s in specs :: s.player
  }

  function CountPair(specs: seq<Spectator>, guild: int, player: int): nat {
    if specs == [] then 0
    else
      var here := if specs[0].guild == guild && specs[0].player == player then 1 else 0;
      here + CountPair(specs[1..], guild, player)
  }

  /** Under the UNIQUE constraint a pair occurs once if at all. */
  lemma {:induction false} CountPairDistinct(specs: seq<Spectator>, guild: int, player: int)
    requires PairsDistinct(specs)
    ensures CountPair(specs, guild, player) == if HasPair(specs, guild, player) then 1 else 0
  {
    if specs != [] {
      var tail := specs[1..];
      assert PairsDistinct(tail) by {
        forall i, j | 0 <= i < j < |tail| ensures tail[i].guild != tail[j].guild || tail[i].player != tail[j].player {
          assert tail[i] == specs[i + 1] && tail[j] == specs[j + 1];
        }
      }
      CountPairDistinct(tail, guild, player);
      if !(specs[0].guild == guild && specs[0].player == player) {
        if HasPair(specs, guild, player) {
          var s :| s in specs && s.guild == guild && s.player == player;
          assert s in tail;
        }
      }
    }
  }

  /** `INSERT OR IGNORE` into spectators. */
  function Subscribe(specs: seq<Spectator>, guild: int, player: int, user: Option<int>): (r: seq<Spectator>)
    ensures HasPair(r, guild, player)
    ensures forall s :: s in specs ==> s in r
  {
    if HasPair(specs, guild, player) then specs else specs + [Spectator(guild, player, user)]
  }

  /**
   * Subscribing keeps pairs unique, leaves the pair present exactly once,
   * adds nothing else, and a repeat call changes nothing (the first user
   * tag is kept).
   */
  lemma SubscribeOnce(specs: seq<Spectator>, guild: int, player: int, user: Option<int>, again: Option<int>)
    requires PairsDistinct(specs)
    ensures PairsDistinct(Subscribe(specs, guild, player, user))
    ensures CountPair(Subscribe(specs, guild, player, user), guild, player) == 1
    ensures forall s :: s in Subscribe(specs, guild, player, user) ==> s in specs || s == Spectator(guild, player, user)
    ensures Subscribe(Subscribe(specs, guild, player, user), guild, player, again) == Subscribe(specs, guild, player, user)
  {
    var r := Subscribe(specs, guild, player, user);
    if !HasPair(specs, guild, player) {
      forall i, j | 0 <= i < j < |r| ensures r[i].guild != r[j].guild || r[i].player != r[j].player {
        if j == |specs| {
          assert r[i] in specs;
        }
      }
    }
    CountPairDistinct(r, guild, player);
  }

  /** `DELETE FROM spectators WHERE guild_id=? AND player_id=?`. */
  function Unsubscribe(specs: seq<Spectator>, guild: int, player: int): (r: seq<Spectator>)
    ensures forall s :: s in r <==> s in specs && !(s.guild == guild && s.player == player)
    ensures PairsDistinct(specs) ==> PairsDistinct(r)
  {
    if specs == [] then []
    else
      var rest := Unsubscribe(specs[1..], guild, player);
      if specs[0].guild == guild && specs[0].player == player then rest
      else
        assert PairsDistinct(specs) ==> PairsDistinct(specs[1..]) by {
          if PairsDistinct(specs) {
            var tail := specs[1..];
            forall i, j | 0 <= i < j < |tail| ensures tail[i].guild != tail[j].guild || tail[i].player != tail[j].player {
              assert tail[i] == specs[i + 1] && tail[j] == specs[j + 1];
            }
          }
        }
        assert PairsDistinct(specs) ==> forall s :: s in rest ==> s.guild != specs[0].guild || s.player != specs[0].player by {
          if PairsDistinct(specs) {
            forall s | s in rest ensures s.guild != specs[0].guild || s.player != specs[0].player {
              var j :| 0 <= j < |specs[1..]| && specs[1..][j] == s;
              assert specs[j + 1] == s;
            }
          }
        }
        [specs[0]] + rest
  }

  /** Unsubscribing removes exactly the one row of the pair, if there was one. */
  lemma UnsubscribeCount(specs: seq<Spectator>, guild: int, player: int)
    requires PairsDistinct(specs)
    ensures !HasPair(Unsubscribe(specs, guild, player), guild, player)
    ensures |Unsubscribe(specs, guild, player)| == |specs| - CountPair(specs, guild, player)
    ensures |Unsubscribe(specs, guild, player)| == |specs| - (if HasPair(specs, guild, player) then 1 else 0)
  {
    UnsubscribeLength(specs, guild, player);
    CountPairDistinct(specs, guild, player);
  }

  lemma {:induction false} UnsubscribeLength(specs: seq<Spectator>, guild: int, player: int)
    ensures |Unsubscribe(specs, guild, player)| == |specs| - CountPair(specs, guild, player)
  {
    if specs != [] {
      UnsubscribeLength(specs[1..], guild, player);
    }
  }

  /** The subscriptions of one guild, in table order. */
  function GuildSubscriptions(specs: seq<Spectator>, guild: int): (r: seq<Spectator>)
    ensures forall s :: s in r <==> s in specs && s.guild == guild
  {
    if specs == [] then []
    else if specs[0].guild == guild then [specs[0]] + GuildSubscriptions(specs[1..], guild)
    else GuildSubscriptions(specs[1..], guild)
  }

  /** `get_players_spectated_by_guild(guild)`: the spectators-players join for one guild. */
  function SpectatedBy(players: seq<Player>, specs: seq<Spectator>, guild: int): (r: seq<SpectatedPlayer>)
    ensures forall x :: x in r ==> x.player in players
    ensures |r| <= |GuildSubscriptions(specs, guild)|
  {
    if specs == [] then []
    else
      var rest := SpectatedBy(players, specs[1..], guild);
      if specs[0].guild == guild then
        match Lookup(players, specs[0].player)
        case Some(p) => [SpectatedPlayer(p, specs[0].user)] + rest
        case None => rest
      else rest
  }

  /**
   * With every subscription referencing a player, the join yields exactly
   * the guild's subscriptions, in order, each with its player row and its
   * user tag.
   */
  lemma {:induction false} SpectatedByGuild(players: seq<Player>, specs: seq<Spectator>, guild: int)
    requires Referenced(players, specs)
    ensures |SpectatedBy(players, specs, guild)| == |GuildSubscriptions(specs, guild)|
    ensures forall i :: 0 <= i < |SpectatedBy(players, specs, guild)| ==>
      SpectatedBy(players, specs, guild)[i].player.id == GuildSubscriptions(specs, guild)[i].player &&
      SpectatedBy(players, specs, guild)[i].user == GuildSubscriptions(specs, guild)[i].user
  {
    if specs != [] {
      assert Referenced(players, specs[1..]) by {
        forall s | s in specs[1..] ensures s.player in Ids(players) {
          assert s in specs;
        }
      }
      SpectatedByGuild(players, specs[1..], guild);
      if specs[0].guild == guild {
        assert specs[0] in specs;
        var r := SpectatedBy(players, specs, guild);
        var g := GuildSubscriptions(specs, guild);
        var rest := SpectatedBy(players, specs[1..], guild);
        var gRest := GuildSubscriptions(specs[1..], guild);
        assert r == [r[0]] + rest && g == [specs[0]] + gRest;
        forall i | 0 <= i < |r| ensures r[i].player.id == g[i].player && r[i].user == g[i].user {
          if i > 0 {
            assert r[i] == rest[i - 1] && g[i] == gRest[i - 1];
          }
        }
      }
    }
  }

  /** `get_spectated_players()`: every player some guild subscribes to. */
  function SpectatedPlayers(players: seq<Player>, specs: seq<Spectator>): (r: seq<Player>)
    ensures forall p :: p in r <==> p in players && p.id in SubscribedIds(specs)
  {
    Retain(players, SubscribedIds(specs))
  }

  /** In a valid store each subscribed player is yielded exactly once. */
  lemma SpectatedOnce(players: seq<Player>, specs: seq<Spectator>)
    requires IdsIncreasing(players) && Referenced(players, specs)
    ensures IdsIncreasing(SpectatedPlayers(players, specs))
    ensures forall s :: s in specs ==> exists p :: p in SpectatedPlayers(players, specs) && p.id == s.player
  {
    forall s | s in specs ensures exists p :: p in SpectatedPlayers(players, specs) && p.id == s.player {
      assert s.player in Ids(players);
      var p :| p in players && p.id == s.player;
      assert p.id in SubscribedIds(specs);
    }
  }

  // ----- channels -----

  /** `INSERT OR IGNORE` into channels: a guild's first channel sticks. */
  function DefaultChannel(channels: map<int, int>, guild: int, channel: int): (r: map<int, int>)
    ensures guild in r && (guild in channels ==> r[guild] == channels[guild])
    ensures forall g :: g != guild ==> (g in r <==> g in channels)
    ensures forall g :: g != guild && g in channels ==> r[g] == channels[g]
  {
    if guild in channels then channels else channels[guild := channel]
  }

  /** The first-touch default never overwrites, however often it is applied, even after an explicit choice. */
  lemma DefaultChannelSticks(channels: map<int, int>, guild: int, first: int, second: int, explicit: int)
    ensures DefaultChannel(DefaultChannel(channels, guild, first), guild, second) == DefaultChannel(channels, guild, first)
    ensures DefaultChannel(channels[guild := explicit], guild, first)[guild] == explicit
    ensures guild !in channels ==> DefaultChannel(channels, guild, first)[guild] == first
  {
  }

  /**
   * `get_spectator_channels(player)`: the channels-spectators join, one row
   * per subscription of `player` whose guild has a channel.
   */
  function ChannelsOf(specs: seq<Spectator>, channels: map<int, int>, player: int): (r: seq<SpectatorChannel>)
    ensures |r| <= |specs|
    ensures forall x :: x in r <==>
      (exists s :: s in specs && s.player == player && s.guild in channels &&
         x == SpectatorChannel(s.guild, channels[s.guild], s.user))
  {
    if specs == [] then []
    else
      var rest := ChannelsOf(specs[1..], channels, player);
      var s := specs[0];
      assert forall t :: t in specs <==> t == s || t in specs[1..];
      if s.player == player && s.guild in channels then [SpectatorChannel(s.guild, channels[s.guild], s.user)] + rest
      else rest
  }

  /** Under the UNIQUE (guild, player) constraint, each guild appears at most once among a player's channels. */
  lemma {:induction false} ChannelsOfDistinct(specs: seq<Spectator>, channels: map<int, int>, player: int)
    requires PairsDistinct(specs)
    ensures forall i, j :: 0 <= i < j < |ChannelsOf(specs, channels, player)| ==>
      ChannelsOf(specs, channels, player)[i].guild != ChannelsOf(specs, channels, player)[j].guild
  {
    if specs != [] {
      var tail := specs[1..];
      assert PairsDistinct(tail) by {
        forall i, j | 0 <= i < j < |tail| ensures tail[i].guild != tail[j].guild || tail[i].player != tail[j].player {
          assert tail[i] == specs[i + 1] && tail[j] == specs[j + 1];
        }
      }
      ChannelsOfDistinct(tail, channels, player);
      var s := specs[0];
      var r := ChannelsOf(specs, channels, player);
      var rest := ChannelsOf(tail, channels, player);
      if s.player == player && s.guild in channels {
        forall i, j | 0 <= i < j < |r| ensures r[i].guild != r[j].guild {
          if i == 0 {
            assert r[j] == rest[j - 1] && rest[j - 1] in rest;
            var t :| t in tail && t.player == player && t.guild in channels &&
              rest[j - 1] == SpectatorChannel(t.guild, channels[t.guild], t.user);
            var k :| 0 <= k < |tail| && tail[k] == t;
            assert specs[k + 1] == t;
          } else {
            assert r[i] == rest[i - 1] && r[j] == rest[j - 1];
          }
        }
      }
    }
  }

  /** `get_player_with_user_id(guild, user)`: the player of the first subscription tagged with that user. */
  function TaggedPlayer(players: seq<Player>, specs: seq<Spectator>, guild: int, user: int): (r: Option<Player>)
    ensures r.Some? ==> r.value in players
    ensures r.Some? ==> exists s :: s in specs && s.guild == guild && s.user == Some(user) && s.player == r.value.id
    ensures Referenced(players, specs) ==>
      (r.None? <==> forall s :: s in specs ==> !(s.guild == guild && s.user == Some(user)))
  {
    if specs == [] then None
    else
      var rest := TaggedPlayer(players, specs[1..], guild, user);
      var s := specs[0];
      assert forall t :: t in specs <==> t == s || t in specs[1..];
      if s.guild == guild && s.user == Some(user) then Lookup(players, s.player) else rest
  }

  // ----- the store -----

  /** One tracker's three tables behind its connection. */
  class Tracker {
    const schema: Schema
    var players: seq<Player>
    var nextId: int
    var spectators: seq<Spectator>
    var channels: map<int, int>

    ghost predicate Valid()
      reads this
    {
      && schema.WellFormed()
      && TableValid(schema, players, nextId)
      && PairsDistinct(spectators)
      && Referenced(players, spectators)
    }

    constructor (schema: Schema)
      requires schema.WellFormed()
      ensures Valid() && this.schema == schema
      ensures players == [] && nextId == 1 && spectators == [] && channels == map[]
    {
      this.schema := schema;
      players := [];
      nextId := 1;
      spectators := [];
      channels := map[];
    }

    /** `create_player(**kwargs)`, one transaction. */
    method CreatePlayer(kwargs: Fields) returns (r: Result<Option<Player>, StoreError>)
      requires Valid() && ValuesFit(schema, kwargs)
      modifies this
      ensures Valid()
      ensures r == CreateOutcome(schema, old(players), old(nextId), kwargs)
      ensures r.Ok? && r.value.Some? ==> players == old(players) + [r.value.value] && nextId == old(nextId) + 1
      ensures !(r.Ok? && r.value.Some?) ==> players == old(players) && nextId == old(nextId)
      ensures spectators == old(spectators) && channels == old(channels)
    {
      r := CreateOutcome(schema, players, nextId, kwargs);
      if r.Ok? && r.value.Some? {
        CreateKeepsValid(schema, players, nextId, kwargs);
        assert Referenced(players + [r.value.value], spectators) by {
          forall s | s in spectators ensures s.player in Ids(players + [r.value.value]) {
            var p :| p in players && p.id == s.player;
            assert p in players + [r.value.value];
          }
        }
        players := players + [r.value.value];
        nextId := nextId + 1;
      }
    }

    /** `get_player(**criteria)`: the first matching row, an error for no criteria or an unknown column. */
    function GetPlayer(criteria: Fields): (r: Result<Option<Player>, StoreError>)
      reads this
      ensures r == Err(NoCriteria) <==> criteria == map[]
      ensures r == Err(NoSuchColumn) <==> criteria != map[] && exists k :: k in criteria && !IsColumn(schema, k)
      ensures r.Ok? && r.value.Some? ==> r.value.value in players && Matches(schema, r.value.value, criteria)
      ensures r.Ok? && r.value.None? ==> forall p :: p in players ==> !Matches(schema, p, criteria)
    {
      Find(schema, players, criteria)
    }

    /** `get_player_with_user_id(guild, user)`: a stored player that guild tagged with that user. */
    function GetPlayerWithUserId(guild: int, user: int): (r: Option<Player>)
      reads this
      ensures r.Some? ==> r.value in players
      ensures r.Some? ==> exists s :: s in spectators && s.guild == guild && s.user == Some(user) && s.player == r.value.id
      ensures Referenced(players, spectators) ==>
        (r.None? <==> forall s :: s in spectators ==> !(s.guild == guild && s.user == Some(user)))
    {
      TaggedPlayer(players, spectators, guild, user)
    }

    /** `get_players_spectated_by_guild(guild)`: stored players only, at most one per subscription of the guild. */
    function GetPlayersSpectatedByGuild(guild: int): (r: seq<SpectatedPlayer>)
      reads this
      ensures forall x :: x in r ==> x.player in players
      ensures |r| <= |GuildSubscriptions(spectators, guild)|
    {
      SpectatedBy(players, spectators, guild)
    }

    /** `get_spectated_players()`: exactly the stored players some guild subscribes to. */
    function GetSpectatedPlayers(): (r: seq<Player>)
      reads this
      ensures forall p :: p in r <==> p in players && p.id in SubscribedIds(spectators)
    {
      SpectatedPlayers(players, spectators)
    }

    /** `get_spectator_channels(player)`: one row per subscription of the player whose guild has a channel. */
    function GetSpectatorChannels(player: int): (r: seq<SpectatorChannel>)
      reads this
      ensures |r| <= |spectators|
      ensures forall x :: x in r <==>
        (exists s :: s in spectators && s.player == player && s.guild in channels &&
           x == SpectatorChannel(s.guild, channels[s.guild], s.user))
    {
      ChannelsOf(spectators, channels, player)
    }

    /** `delete_players_without_spectator()`: drops every unsubscribed player and returns how many. */
    method DeletePlayersWithoutSpectator() returns (count: int)
      requires Valid()
      modifies this
      ensures Valid()
      ensures players == Retain(old(players), SubscribedIds(spectators))
      ensures count == |Discard(old(players), SubscribedIds(spectators))|
      ensures nextId == old(nextId) && spectators == old(spectators) && channels == old(channels)
    {
      var ids := SubscribedIds(spectators);
      var kept := Retain(players, ids);
      assert Referenced(kept, spectators) by {
        forall s | s in spectators ensures s.player in Ids(kept) {
          var p :| p in players && p.id == s.player;
          assert p in kept;
        }
      }
      count := |players| - |kept|;
      players := kept;
    }

    /** `create_spectator(guild, player, user)`: true iff the pair was new. */
    method CreateSpectator(guild: int, player: int, user: Option<int>) returns (created: bool)
      requires Valid() && player in Ids(players)
      modifies this
      ensures Valid()
      ensures created == !HasPair(old(spectators), guild, player)
      ensures spectators == Subscribe(old(spectators), guild, player, user)
      ensures players == old(players) && nextId == old(nextId) && channels == old(channels)
    {
      created := !HasPair(spectators, guild, player);
      SubscribeOnce(spectators, guild, player, user, user);
      spectators := Subscribe(spectators, guild, player, user);
    }

    /** `delete_spectator(guild, player)`: true iff the pair existed. */
    method DeleteSpectator(guild: int, player: int) returns (deleted: bool)
      requires Valid()
      modifies this
      ensures Valid()
      ensures deleted == HasPair(old(spectators), guild, player)
      ensures spectators == Unsubscribe(old(spectators), guild, player)
      ensures players == old(players) && nextId == old(nextId) && channels == old(channels)
    {
      deleted := HasPair(spectators, guild, player);
      spectators := Unsubscribe(spectators, guild, player);
    }

    /** `set_channel_if_unset(guild, channel)`. */
    method SetChannelIfUnset(guild: int, channel: int)
      requires Valid()
      modifies this
      ensures Valid()
      ensures channels == DefaultChannel(old(channels), guild, channel)
      ensures players == old(players) && nextId == old(nextId) && spectators == old(spectators)
    {
      channels := DefaultChannel(channels, guild, channel);
    }

    /** `set_channel(guild, channel)`: upsert. */
    method SetChannel(guild: int, channel: int)
      requires Valid()
      modifies this
      ensures Valid()
      ensures channels == old(channels)[guild := channel]
      ensures players == old(players) && nextId == old(nextId) && spectators == old(spectators)
    {
      channels := channels[guild := channel];
    }

    /**
     * Overwrite some non-key fields of the row with this id, as
     * `UPDATE players SET ... WHERE id=?` does; an unknown id changes nothing.
     */
    method UpdatePlayer(id: int, changes: Fields)
      requires Valid()
      requires changes.Keys <= schema.Names() && ValuesFit(schema, changes)
      requires forall u :: u in schema.unique ==> u !in changes
      modifies this
      ensures Valid()
      ensures players == Overwrite(old(players), id, changes)
      ensures nextId == old(nextId) && spectators == old(spectators) && channels == old(channels)
    {
      OverwriteKeepsValid(schema, players, nextId, id, changes);
      OverwriteIds(players, id, changes);
      players := Overwrite(players, id, changes);
    }
  }
}
