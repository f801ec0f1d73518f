/**
 * The Rainbow Six Siege plugin: players are Ubisoft accounts keyed by uid,
 * the tracked value is the ranked ELO (`rank_points`), and a refresh sweep
 * notifies watching guilds with a gain/loss summary when it changes.
 */
module Siege {
  import opened Wrappers
  import opened Strings
  import opened Schemas
  import opened Store
  import opened Commands
  import opened Notify

  /** What a Siege API lookup yields that the bot uses. */
  datatype Stats = Stats(uid: string, name: string, rankName: string, rankPoints: int, kills: int, deaths: int)

  /** The embed colour of a notification. */
  datatype Colour = BrandGreen | BrandRed

  /** The title's verb phrase: always a non-negative amount. */
  datatype Reached = Gained(amount: nat) | Lost(amount: nat)

  /** A notification before rendering: the title's name and verb, the ELO line, the optional kills/deaths line, the rank and colour. */
  datatype EloNote = EloNote(name: string, reached: Reached, points: int, sign: string, delta: nat,
                             killDeath: Option<(nat, nat)>, rankName: string, colour: Colour)

  /** The text of a stored column, `""` for a row without it. */
  function TextField(p: Player, column: string): string {
    if column in p.fields && p.fields[column].Text? then p.fields[column].s else ""
  }

  /** The integer of a stored column, `0` for a row without it. */
  function IntField(p: Player, column: string): int {
    if column in p.fields && p.fields[column].Int? then p.fields[column].n else 0
  }

  function RankPoints(p: Player): Value {
    if "rank_points" in p.fields then p.fields["rank_points"] else Null
  }

  /** `update_player` acts only when the stored ELO differs from the fetched one. */
  predicate Changed(p: Player, stats: Stats) {
    RankPoints(p) != Int(stats.rankPoints)
  }

  /** The sign of the ELO line. */
  function Sign(previous: int, current: int): (r: string)
    ensures r == "+" <==> current >= previous
    ensures r == "-" <==> current < previous
  {
    if current >= previous then "+" else "-"
  }

  /** The absolute change of the ELO line. */
  function Delta(previous: int, current: int): (r: nat)
    ensures current >= previous ==> previous + r == current
    ensures current < previous ==> previous - r == current
  {
    if current >= previous then current - previous else previous - current
  }

  /** The title's "gained n" / "lost n". */
  function ReachedOf(previous: int, current: int): (r: Reached)
    ensures r.Gained? <==> current >= previous
    ensures r.Gained? ==> previous + r.amount == current
    ensures r.Lost? ==> previous - r.amount == current && r.amount > 0
  {
    if current >= previous then Gained(current - previous) else Lost(previous - current)
  }

  function ReachedText(r: Reached): string {
    match r
    case Gained(n) => "gained " + NatToString(n)
    case Lost(n) => "lost " + NatToString(n)
  }

  /** The kills/deaths of the last game(s): present only when neither season total went down. */
  function KillDeath(previousKills: int, previousDeaths: int, kills: int, deaths: int): (r: Option<(nat, nat)>)
    ensures r.Some? <==> kills >= previousKills && deaths >= previousDeaths
    ensures r.Some? ==> previousKills + r.value.0 == kills && previousDeaths + r.value.1 == deaths
  {
    if kills - previousKills >= 0 && deaths - previousDeaths >= 0 then Some((kills - previousKills, deaths - previousDeaths))
    else None
  }

  function ColourOf(previous: int, current: int): (r: Colour)
    ensures r == BrandGreen <==> current >= previous
  {
    if current >= previous then BrandGreen else BrandRed
  }

  /**
   * The notification for a stored row and its fresh stats: the sign, the
   * title's verb, the colour and the amount all agree, and the old ELO with
   * the signed delta gives the new one.
   */
  function NoteFor(p: Player, stats: Stats): (note: EloNote)
    ensures note.sign == "+" <==> note.reached.Gained?
    ensures note.colour == BrandGreen <==> note.reached.Gained?
    ensures note.delta == note.reached.amount
    ensures (if note.sign == "+" then IntField(p, "rank_points") + note.delta else IntField(p, "rank_points") - note.delta) == stats.rankPoints
    ensures note.points == stats.rankPoints && note.name == TextField(p, "name")
  {
    var previous := IntField(p, "rank_points");
    EloNote(TextField(p, "name"), ReachedOf(previous, stats.rankPoints), stats.rankPoints,
            Sign(previous, stats.rankPoints), Delta(previous, stats.rankPoints),
            KillDeath(IntField(p, "season_kills"), IntField(p, "season_deaths"), stats.kills, stats.deaths),
            stats.rankName, ColourOf(previous, stats.rankPoints))
  }

  /** The embed title: the player's name, then the verb with the amount, then "elo", one space apart. */
  function Title(note: EloNote): (r: string)
    ensures |r| == |note.name| + |ReachedText(note.reached)| + 5
    ensures r[..|note.name|] == note.name && r[|note.name|] == ' ' && r[|r| - 4..] == " elo"
    ensures r[|note.name| + 1..|r| - 4] == ReachedText(note.reached)
  {
    note.name + " " + ReachedText(note.reached) + " elo"
  }

  /** The title reads "<name> gained <n> elo" exactly when the ELO did not go down. */
  lemma TitleWords(p: Player, stats: Stats)
    ensures var prefix := TextField(p, "name") + " gained ";
      |prefix| <= |Title(NoteFor(p, stats))| &&
      (Title(NoteFor(p, stats))[..|prefix|] == prefix <==> stats.rankPoints >= IntField(p, "rank_points"))
  {
    var note := NoteFor(p, stats);
    var prefix := TextField(p, "name") + " gained ";
    var t := Title(note);
    match note.reached
    case Gained(n) =>
      assert t == prefix + NatToString(n) + " elo";
    case Lost(n) =>
      var lost := TextField(p, "name") + " lost ";
      assert t == lost + NatToString(n) + " elo";
      assert |NatToString(n)| >= 1;
      assert t[|TextField(p, "name")| + 1] == 'l' && prefix[|TextField(p, "name")| + 1] == 'g';
  }

  /** The keyword arguments `create_player` gets in `command_add`: the typed platform and the fetched rest. */
  function CreateFields(stats: Stats, platform: string): Fields {
    map["uid" := Text(stats.uid), "name" := Text(stats.name), "platform" := Text(platform),
        "rank_name" := Text(stats.rankName), "rank_points" := Int(stats.rankPoints),
        "season_kills" := Int(stats.kills), "season_deaths" := Int(stats.deaths)]
  }

  /** The fields `update_player` overwrites: all but uid and platform. */
  function SiegeChanges(stats: Stats): Fields {
    map["name" := Text(stats.name), "rank_name" := Text(stats.rankName), "rank_points" := Int(stats.rankPoints),
        "season_kills" := Int(stats.kills), "season_deaths" := Int(stats.deaths)]
  }

  /** `get_player(name=..., platform=...)` criteria. */
  function TargetCriteria(platform: string, name: string): Fields {
    map["name" := Text(name), "platform" := Text(platform)]
  }

  lemma SiegeNames()
    ensures SiegeSchema.Names() == {"uid", "name", "platform", "rank_name", "rank_points", "season_kills", "season_deaths"}
    ensures SiegeSchema.WellFormed()
  {
    SiegeSchemaWellFormed();
    assert SiegeSchema.columns[0].name == "uid";
    assert SiegeSchema.columns[1].name == "name";
    assert SiegeSchema.columns[2].name == "platform";
    assert SiegeSchema.columns[3].name == "rank_name";
    assert SiegeSchema.columns[4].name == "rank_points";
    assert SiegeSchema.columns[5].name == "season_kills";
    assert SiegeSchema.columns[6].name == "season_deaths";
  }

  /** A created row has every column, of its kind. */
  lemma CreateFieldsFit(stats: Stats, platform: string)
    ensures CreateFields(stats, platform).Keys == SiegeSchema.Names()
    ensures ValuesFit(SiegeSchema, CreateFields(stats, platform))
  {
    CreateFieldsKeys(stats, platform);
    CreateFieldsTyped(stats, platform);
  }

  lemma CreateFieldsKeys(stats: Stats, platform: string)
    ensures CreateFields(stats, platform).Keys == SiegeSchema.Names()
  {
    SiegeNames();
  }

  lemma CreateFieldsTyped(stats: Stats, platform: string)
    ensures ValuesFit(SiegeSchema, CreateFields(stats, platform))
  {
    var f := CreateFields(stats, platform);
    forall c | c in SiegeSchema.columns && c.name in f ensures Fits(c.kind, f[c.name]) {
      var k :| 0 <= k < |SiegeSchema.columns| && SiegeSchema.columns[k] == c;
      assert k == 0 || k == 1 || k == 2 || k == 3 || k == 4 || k == 5 || k == 6;
    }
  }


  /** An update names only columns of the table. */
  lemma ChangesColumns(stats: Stats)
    ensures SiegeChanges(stats).Keys <= SiegeSchema.Names()
  {
    var cs := SiegeSchema.columns;
    assert cs[1] in cs && cs[3] in cs && cs[4] in cs && cs[5] in cs && cs[6] in cs;
  }

  /** An update gives each column a value of its kind. */
  lemma ChangesTyped(stats: Stats)
    ensures ValuesFit(SiegeSchema, SiegeChanges(stats))
  {
    var cs := SiegeSchema.columns;
    var f := SiegeChanges(stats);
    forall c | c in cs && c.name in f ensures Fits(c.kind, f[c.name]) {
      if c == cs[1] || c == cs[3] {
        assert c.kind == NoCaseText && f[c.name].Text?;
      } else {
        assert c == cs[4] || c == cs[5] || c == cs[6];
      }
    }
  }

  /** An update changes only columns outside the UNIQUE key, each with a value of its kind; uid and platform are kept. */
  lemma ChangesFit(stats: Stats)
    ensures SiegeChanges(stats).Keys <= SiegeSchema.Names() && ValuesFit(SiegeSchema, SiegeChanges(stats))
    ensures forall u :: u in SiegeSchema.unique ==> u !in SiegeChanges(stats)
    ensures "uid" !in SiegeChanges(stats) && "platform" !in SiegeChanges(stats)
  {
    ChangesColumns(stats);
    ChangesTyped(stats);
    ChangesKeepKey(stats);
  }

  /** An update leaves the uid and the platform alone. */
  lemma ChangesKeepKey(stats: Stats)
    ensures "uid" !in SiegeChanges(stats) && "platform" !in SiegeChanges(stats)
    ensures forall u :: u in SiegeSchema.unique ==> u !in SiegeChanges(stats)
  {
    assert SiegeChanges(stats).Keys == {"name", "rank_name", "rank_points", "season_kills", "season_deaths"};
    assert SiegeSchema.unique == ["uid"];
  }

  /** Lookups by name and platform, or by name alone, never fail. */
  lemma SiegeLookupOk(players: seq<Player>, platform: string, name: string)
    ensures Find(SiegeSchema, players, TargetCriteria(platform, name)).Ok?
    ensures Find(SiegeSchema, players, map["name" := Text(name)]).Ok?
  {
    assert SiegeSchema.columns[1] in SiegeSchema.columns && SiegeSchema.columns[1].name == "name";
    assert SiegeSchema.columns[2] in SiegeSchema.columns && SiegeSchema.columns[2].name == "platform";
    var both := TargetCriteria(platform, name);
    var one: Fields := map["name" := Text(name)];
    assert both.Keys == {"name", "platform"} && one.Keys == {"name"};
    assert "name" in both && "name" in one;
  }

  /** After the update the row carries the fresh stats and keeps its uid and platform. */
  lemma UpdateWritesStats(players: seq<Player>, p: Player, stats: Stats)
    requires p in players
    ensures var q := Rewrite(p, p.id, SiegeChanges(stats));
      && IntField(q, "rank_points") == stats.rankPoints && !Changed(q, stats)
      && IntField(q, "season_kills") == stats.kills && IntField(q, "season_deaths") == stats.deaths
      && TextField(q, "name") == stats.name && TextField(q, "rank_name") == stats.rankName
      && ("uid" in p.fields ==> "uid" in q.fields && q.fields["uid"] == p.fields["uid"])
      && ("platform" in p.fields ==> "platform" in q.fields && q.fields["platform"] == p.fields["platform"])
  {
  }

  // ----- the sweep -----

  /** One player of `update`: nothing unless the ELO changed; then the write and one message per resolving channel. */
  function Step(specs: seq<Spectator>, channels: map<int, int>, resolves: set<int>, p: Player, stats: Stats): (r: seq<Effect<EloNote>>)
    ensures r == [] <==> !Changed(p, stats)
    ensures r != [] ==> r[0] == Persist(p.id) && |r| <= |specs| + 1
    ensures forall e :: e in r ==> (e.Persist? || e.Send?) && e.player == p.id
  {
    if !Changed(p, stats) then []
    else [Persist(p.id)] + Deliveries(ChannelsOf(specs, channels, p.id), resolves, p.id, NoteFor(p, stats))
  }

  /** The index of the first failed fetch at or after `from`, or the length when none failed. */
  function FailureFrom(fetched: seq<Option<Stats>>, from: nat): (k: nat)
    requires from <= |fetched|
    ensures from <= k <= |fetched|
    ensures forall j :: from <= j < k ==> fetched[j].Some?
    ensures k < |fetched| ==> fetched[k].None?
    decreases |fetched| - from
  {
    if from == |fetched| || fetched[from].None? then from
    else FailureFrom(fetched, from + 1)
  }

  /** The index of the first failed fetch, or the length when none failed. */
  function FirstFailure(fetched: seq<Option<Stats>>): (k: nat)
    ensures k <= |fetched|
    ensures forall j :: 0 <= j < k ==> fetched[j].Some?
    ensures k < |fetched| ==> fetched[k].None?
  {
    FailureFrom(fetched, 0)
  }

  /** `FirstFailure` is the only index with a failure there and none before. */
  lemma FirstFailureAt(fetched: seq<Option<Stats>>, k: nat)
    requires k <= |fetched|
    requires forall j :: 0 <= j < k ==> fetched[j].Some?
    requires k == |fetched| || fetched[k].None?
    ensures k == FirstFailure(fetched)
  {
  }

  /** The per-player batches of the players fetched before the first failure. */
  function Steps(specs: seq<Spectator>, channels: map<int, int>, resolves: set<int>,
                 snapshot: seq<Player>, fetched: seq<Option<Stats>>): (r: seq<seq<Effect<EloNote>>>)
    requires |snapshot| == |fetched|
    ensures |r| == |snapshot|
  {
    seq(|snapshot|, i requires 0 <= i < |snapshot| =>
      match fetched[i]
      case None => []
      case Some(stats) => Step(specs, channels, resolves, snapshot[i], stats))
  }

  /**
   * The effects of `update`: the players up to the first failed fetch, in
   * order, then the session is closed whatever happened.
   */
  function Sweep(specs: seq<Spectator>, channels: map<int, int>, resolves: set<int>,
                 snapshot: seq<Player>, fetched: seq<Option<Stats>>): (r: seq<Effect<EloNote>>)
    requires |snapshot| == |fetched|
    ensures |r| >= 1 && r[|r| - 1] == Close
  {
    var k := FirstFailure(fetched);
    Flatten(Steps(specs, channels, resolves, snapshot[..k], fetched[..k])) + [Close]
  }

  /** The players table after the first `i` players of `update`. */
  function SweepPlayers(players: seq<Player>, snapshot: seq<Player>, fetched: seq<Option<Stats>>): (r: seq<Player>)
    requires |snapshot| == |fetched|
    ensures Touches(players, r, FetchedIds(snapshot, fetched))
  {
    if snapshot == [] then players
    else
      var n := |snapshot| - 1;
      var before := SweepPlayers(players, snapshot[..n], fetched[..n]);
      match fetched[n]
      case None => before
      case Some(stats) => if Changed(snapshot[n], stats) then Overwrite(before, snapshot[n].id, SiegeChanges(stats)) else before
  }

  /** One more fetched player appends that player's effects. */
  lemma StepsExtend(specs: seq<Spectator>, channels: map<int, int>, resolves: set<int>,
                    snapshot: seq<Player>, fetched: seq<Option<Stats>>, i: nat)
    requires |snapshot| == |fetched| && i < |snapshot| && fetched[i].Some?
    ensures Flatten(Steps(specs, channels, resolves, snapshot[..i + 1], fetched[..i + 1]))
         == Flatten(Steps(specs, channels, resolves, snapshot[..i], fetched[..i])) + Step(specs, channels, resolves, snapshot[i], fetched[i].value)
  {
    var s := snapshot[..i + 1];
    var f := fetched[..i + 1];
    assert s[..i] == snapshot[..i] && f[..i] == fetched[..i];
    assert s[i] == snapshot[i] && f[i] == fetched[i];
    var all := Steps(specs, channels, resolves, s, f);
    assert all[..i + 1] == all;
    FlattenExtend(all, i);
    StepsTake(specs, channels, resolves, s, f, i);
  }

  /** One more fetched player rewrites that player's row when its stats changed. */
  lemma SweepPlayersExtend(players: seq<Player>, snapshot: seq<Player>, fetched: seq<Option<Stats>>, i: nat)
    requires |snapshot| == |fetched| && i < |snapshot| && fetched[i].Some?
    ensures SweepPlayers(players, snapshot[..i + 1], fetched[..i + 1])
         == (if Changed(snapshot[i], fetched[i].value)
             then Overwrite(SweepPlayers(players, snapshot[..i], fetched[..i]), snapshot[i].id, SiegeChanges(fetched[i].value))
             else SweepPlayers(players, snapshot[..i], fetched[..i]))
  {
    var s := snapshot[..i + 1];
    var f := fetched[..i + 1];
    assert s[..i] == snapshot[..i] && f[..i] == fetched[..i];
    assert s[i] == snapshot[i] && f[i] == fetched[i];
  }

  /** Flattening one batch more appends that batch. */
  lemma FlattenExtend<T>(batches: seq<seq<T>>, i: nat)
    requires i < |batches|
    ensures Flatten(batches[..i + 1]) == Flatten(batches[..i]) + batches[i]
  {
    var front := batches[..i + 1];
    assert front[..i] == batches[..i];
  }

  /** The batches of a prefix of the players are a prefix of the batches. */
  lemma StepsTake(specs: seq<Spectator>, channels: map<int, int>, resolves: set<int>,
                  snapshot: seq<Player>, fetched: seq<Option<Stats>>, i: nat)
    requires |snapshot| == |fetched| && i <= |snapshot|
    ensures Steps(specs, channels, resolves, snapshot[..i], fetched[..i]) == Steps(specs, channels, resolves, snapshot, fetched)[..i]
  {
    var front := Steps(specs, channels, resolves, snapshot[..i], fetched[..i]);
    var all := Steps(specs, channels, resolves, snapshot, fetched);
    forall k | 0 <= k < i ensures front[k] == all[k] {
      assert snapshot[..i][k] == snapshot[k] && fetched[..i][k] == fetched[k];
    }
  }

  /**
   * A failed fetch ends the sweep: whatever the fetches after it would
   * have returned, the effects are the same.
   */
  lemma SweepStopsAtFailure(specs: seq<Spectator>, channels: map<int, int>, resolves: set<int>,
                            snapshot: seq<Player>, fetched: seq<Option<Stats>>, later: seq<Option<Stats>>, i: nat)
    requires |snapshot| == |fetched| == |later| && i < |fetched|
    requires fetched[i].None? && later[..i + 1] == fetched[..i + 1]
    ensures Sweep(specs, channels, resolves, snapshot, fetched) == Sweep(specs, channels, resolves, snapshot, later)
  {
    forall j | 0 <= j <= i ensures later[j] == fetched[j] {
      assert later[j] == later[..i + 1][j] && fetched[j] == fetched[..i + 1][j];
    }
    var k := FirstFailure(fetched);
    var m := FirstFailure(later);
    assert k <= i && m <= i;
    assert k == m;
    assert later[..k] == fetched[..k];
  }

  /**
   * A single watched player whose ELO changed is written and announced
   * before the session closes; a failed fetch closes it straight away.
   */
  lemma SweepOne(specs: seq<Spectator>, channels: map<int, int>, resolves: set<int>, p: Player, stats: Stats)
    requires Changed(p, stats)
    ensures Sweep(specs, channels, resolves, [p], [Some(stats)])
         == [Persist(p.id)] + Deliveries(ChannelsOf(specs, channels, p.id), resolves, p.id, NoteFor(p, stats)) + [Close]
    ensures Sweep(specs, channels, resolves, [p], [None]) == [Close]
  {
    SweepOneChanged(specs, channels, resolves, p, stats);
    SweepOneFailed(specs, channels, resolves, p);
  }

  lemma SweepOneChanged(specs: seq<Spectator>, channels: map<int, int>, resolves: set<int>, p: Player, stats: Stats)
    requires Changed(p, stats)
    ensures Sweep(specs, channels, resolves, [p], [Some(stats)])
         == [Persist(p.id)] + Deliveries(ChannelsOf(specs, channels, p.id), resolves, p.id, NoteFor(p, stats)) + [Close]
  {
    var some := [Some(stats)];
    var step := Step(specs, channels, resolves, p, stats);
    assert FirstFailure(some) == 1;
    assert some[..1] == some && [p][..1] == [p];
    var one := Steps(specs, channels, resolves, [p], some);
    assert one == [step];
    assert Flatten(one) == step by {
      assert one[..0] == [];
    }
  }

  lemma SweepOneFailed(specs: seq<Spectator>, channels: map<int, int>, resolves: set<int>, p: Player)
    ensures Sweep(specs, channels, resolves, [p], [None]) == [Close]
  {
    var none: seq<Option<Stats>> := [None];
    assert FirstFailure(none) == 0;
    assert [p][..0] == [] && none[..0] == [];
  }


  // ----- argument handling -----

  /** Why an argument list is refused: a usage error (BotError) or a crash. */
  datatype Problem = Usage(message: string) | Crash(exception: string)

  /** `command_rating` and `command_remove`: one word means Uplay, two mean platform then name. */
  function ParseTarget(text: string): (r: Result<(string, string), string>)
    ensures r.Ok? <==> 1 <= |SplitMax(Strip(text), 2)| <= 2
    ensures r.Err? ==> r.error == "expected `platform` and `username`!"
  {
    var parts := SplitMax(Strip(text), 2);
    if |parts| == 1 then Ok(("uplay", parts[0]))
    else if |parts| == 2 then Ok((parts[0], parts[1]))
    else Err("expected `platform` and `username`!")
  }

  /** A lone name is an Uplay account; a platform and a name are read back as typed. */
  lemma ParseTargetWords(platform: string, name: string)
    requires platform != [] && NoSpace(platform) && name != [] && NoSpace(name)
    ensures ParseTarget(name) == Ok(("uplay", name))
    ensures ParseTarget(JoinSpaced([platform, name])) == Ok((platform, name))
  {
    var one := [name];
    var two := [platform, name];
    StripJoined(one);
    SplitJoined(one, 2);
    StripJoined(two);
    SplitJoined(two, 2);
  }

  /** The parsed arguments of `add`. */
  datatype AddTarget = AddTarget(platform: string, name: string, user: Option<int>)

  /**
   * `command_add` as written: three words reach `platform, name = parts`
   * with a three-element list, which raises before the member is resolved.
   */
  function ParseAddAsWritten(text: string, guild: Guild): (r: Result<AddTarget, Problem>)
    ensures |SplitMax(Strip(text), 3)| == 3 ==> r == Err(Crash("too many values to unpack (expected 2)"))
  {
    var parts := SplitMax(Strip(text), 3);
    if |parts| == 1 then Ok(AddTarget("uplay", parts[0], None))
    else if |parts| == 2 then Ok(AddTarget(parts[0], parts[1], None))
    else if |parts| == 3 then Err(Crash("too many values to unpack (expected 2)"))
    else Err(Usage("expected `platform`, `username`, and optional `server member`!"))
  }

  /** `command_add` as intended: the third word names the server member who owns the account. */
  function ParseAdd(text: string, guild: Guild): (r: Result<AddTarget, Problem>)
    ensures r.Err? ==> r.error.Usage?
    ensures |SplitMax(Strip(text), 3)| != 3 ==> r == ParseAddAsWritten(text, guild)
    ensures r.Ok? && r.value.user.Some? ==> |SplitMax(Strip(text), 3)| == 3
  {
    var parts := SplitMax(Strip(text), 3);
    if |parts| == 3 then
      match GetMember(parts[2], guild)
      case Ok(member) => Ok(AddTarget(parts[0], parts[1], Some(member as int)))
      case Err(e) => Err(Usage(e))
    else ParseAddAsWritten(text, guild)
  }

  /**
   * Naming a member crashes the command as written, while the intended
   * parse resolves the member (or reports it unresolvable).
   */
  lemma AddWithMember(platform: string, name: string, member: string, guild: Guild)
    requires forall w :: w in [platform, name, member] ==> w != [] && NoSpace(w)
    ensures ParseAddAsWritten(JoinSpaced([platform, name, member]), guild) == Err(Crash("too many values to unpack (expected 2)"))
    ensures GetMember(member, guild).Ok? ==>
      ParseAdd(JoinSpaced([platform, name, member]), guild) == Ok(AddTarget(platform, name, Some(GetMember(member, guild).value as int)))
    ensures GetMember(member, guild).Err? ==>
      ParseAdd(JoinSpaced([platform, name, member]), guild) == Err(Usage(GetMember(member, guild).error))
  {
    var words := [platform, name, member];
    assert forall n :: 0 <= n < 3 ==> words[n] in [platform, name, member];
    StripJoined(words);
    SplitJoined(words, 3);
  }

  // ----- the plugin -----

  class SiegePlugin {
    const tracker: Tracker
    var updateRunning: bool
    var outbox: seq<Effect<EloNote>>

    ghost predicate Valid()
      reads this, tracker
    {
      tracker.Valid() && tracker.schema == SiegeSchema
    }

    constructor ()
      ensures Valid() && fresh(tracker)
      ensures tracker.players == [] && tracker.spectators == [] && tracker.channels == map[]
      ensures !updateRunning && outbox == []
    {
      SchemasWellFormed();
      tracker := new Tracker(SiegeSchema);
      updateRunning := false;
      outbox := [];
    }

    /** `on_ready`: start the update loop unless it is already running. */
    method OnReady()
      modifies this
      ensures updateRunning && outbox == old(outbox)
    {
      if !updateRunning {
        updateRunning := true;
      }
    }

    /**
     * `update_player` as written: on a changed ELO it calls
     * `tracker.update_player`, which the tracker does not define, so it
     * raises before writing or sending anything.
     */
    method UpdatePlayerAsWritten(p: Player, stats: Stats) returns (o: Outcome<()>)
      ensures Changed(p, stats) ==> o == Failed("'SiegeTracker' object has no attribute 'update_player'")
      ensures !Changed(p, stats) ==> o == Done(())
    {
      if Changed(p, stats) {
        return Failed("'SiegeTracker' object has no attribute 'update_player'");
      }
      return Done(());
    }

    /** `update_player` as intended: the five fresh fields are written, then one message per resolving channel. */
    method UpdatePlayer(p: Player, stats: Stats, resolves: set<int>)
      requires Valid()
      modifies this, tracker
      ensures Valid()
      ensures outbox == old(outbox) + Step(old(tracker.spectators), old(tracker.channels), resolves, p, stats)
      ensures tracker.players == if Changed(p, stats) then Overwrite(old(tracker.players), p.id, SiegeChanges(stats)) else old(tracker.players)
      ensures tracker.nextId == old(tracker.nextId) && tracker.spectators == old(tracker.spectators)
      ensures tracker.channels == old(tracker.channels) && updateRunning == old(updateRunning)
    {
      if Changed(p, stats) {
        var rows := tracker.GetSpectatorChannels(p.id);
        ghost var before := outbox;
        ChangesFit(stats);
        tracker.UpdatePlayer(p.id, SiegeChanges(stats));
        outbox := outbox + [Persist(p.id)];
        var sent := DeliverAll(rows, resolves, p.id, NoteFor(p, stats));
        outbox := outbox + sent;
        AppendAssoc(before, [Persist(p.id)], sent);
      }
    }

    /**
     * `update` as written: the first failed fetch or the first changed
     * player ends the sweep, nothing is written or sent, and the session is
     * closed. `stopped` is the index where it ended.
     */
    method UpdateAsWritten(fetched: seq<Option<Stats>>) returns (stopped: nat)
      requires Valid()
      requires |fetched| == |tracker.GetSpectatedPlayers()|
      modifies this
      ensures outbox == old(outbox) + [Close]
      ensures stopped <= |fetched|
      ensures forall j :: 0 <= j < stopped ==> fetched[j].Some? && !Changed(old(tracker.GetSpectatedPlayers())[j], fetched[j].value)
      ensures stopped < |fetched| ==> fetched[stopped].None? || Changed(old(tracker.GetSpectatedPlayers())[stopped], fetched[stopped].value)
      ensures updateRunning == old(updateRunning)
    {
      var snapshot := tracker.GetSpectatedPlayers();
      stopped := RunAsWritten(snapshot, fetched);
      outbox := outbox + [Close];
    }

    /** The loop of `update` as written, over a snapshot already taken. */
    method RunAsWritten(snapshot: seq<Player>, fetched: seq<Option<Stats>>) returns (stopped: nat)
      requires |fetched| == |snapshot|
      ensures stopped <= |fetched|
      ensures forall j :: 0 <= j < stopped ==> fetched[j].Some? && !Changed(snapshot[j], fetched[j].value)
      ensures stopped < |fetched| ==> fetched[stopped].None? || Changed(snapshot[stopped], fetched[stopped].value)
    {
      stopped := 0;
      while stopped < |snapshot|
        invariant stopped <= |snapshot|
        invariant forall j :: 0 <= j < stopped ==> fetched[j].Some? && !Changed(snapshot[j], fetched[j].value)
      {
        if fetched[stopped].None? {
          return;
        }
        var o := UpdatePlayerAsWritten(snapshot[stopped], fetched[stopped].value);
        if o.Failed? {
          return;
        }
        stopped := stopped + 1;
      }
    }

    /** The state of `update` after the first `i` players, all of them fetched. */
    ghost predicate Swept(snapshot: seq<Player>, fetched: seq<Option<Stats>>, resolves: set<int>, i: nat,
                          specs: seq<Spectator>, channels: map<int, int>, players: seq<Player>, nextId: int,
                          sent: seq<Effect<EloNote>>, running: bool)
      requires i <= |snapshot| == |fetched|
      reads this, tracker
    {
      && Valid()
      && outbox == sent + Flatten(Steps(specs, channels, resolves, snapshot[..i], fetched[..i]))
      && tracker.players == SweepPlayers(players, snapshot[..i], fetched[..i])
      && tracker.nextId == nextId && tracker.spectators == specs
      && tracker.channels == channels && updateRunning == running
    }

    method SweepNext(snapshot: seq<Player>, fetched: seq<Option<Stats>>, resolves: set<int>, i: nat,
                     ghost specs: seq<Spectator>, ghost channels: map<int, int>, ghost players: seq<Player>, ghost nextId: int,
                     ghost sent: seq<Effect<EloNote>>, ghost running: bool)
      requires i < |snapshot| == |fetched| && fetched[i].Some?
      requires Swept(snapshot, fetched, resolves, i, specs, channels, players, nextId, sent, running)
      modifies this, tracker
      ensures Swept(snapshot, fetched, resolves, i + 1, specs, channels, players, nextId, sent, running)
    {
      StepsExtend(specs, channels, resolves, snapshot, fetched, i);
      SweepPlayersExtend(players, snapshot, fetched, i);
      ghost var before := Flatten(Steps(specs, channels, resolves, snapshot[..i], fetched[..i]));
      ghost var step := Step(specs, channels, resolves, snapshot[i], fetched[i].value);
      UpdatePlayer(snapshot[i], fetched[i].value, resolves);
      AppendAssoc(sent, before, step);
    }

    /**
     * `update` as intended: the players up to the first failed fetch are
     * refreshed in order; the session is closed in every case.
     */
    method Update(fetched: seq<Option<Stats>>, resolves: set<int>)
      requires Valid()
      requires |fetched| == |tracker.GetSpectatedPlayers()|
      modifies this, tracker
      ensures Valid()
      ensures outbox == old(outbox) + Sweep(old(tracker.spectators), old(tracker.channels), resolves, old(tracker.GetSpectatedPlayers()), fetched)
      ensures tracker.players == SweepPlayers(old(tracker.players), old(tracker.GetSpectatedPlayers())[..FirstFailure(fetched)], fetched[..FirstFailure(fetched)])
      ensures tracker.nextId == old(tracker.nextId) && tracker.spectators == old(tracker.spectators)
      ensures tracker.channels == old(tracker.channels) && updateRunning == old(updateRunning)
    {
      var snapshot := tracker.GetSpectatedPlayers();
      SweepSnapshot(snapshot, fetched, resolves);
    }

    /** The loop of `update` over a snapshot already taken. */
    method SweepSnapshot(snapshot: seq<Player>, fetched: seq<Option<Stats>>, resolves: set<int>)
      requires Valid()
      requires |fetched| == |snapshot|
      modifies this, tracker
      ensures Valid()
      ensures outbox == old(outbox) + Sweep(old(tracker.spectators), old(tracker.channels), resolves, snapshot, fetched)
      ensures tracker.players == SweepPlayers(old(tracker.players), snapshot[..FirstFailure(fetched)], fetched[..FirstFailure(fetched)])
      ensures tracker.nextId == old(tracker.nextId) && tracker.spectators == old(tracker.spectators)
      ensures tracker.channels == old(tracker.channels) && updateRunning == old(updateRunning)
    {
      ghost var specs, channels, players, nextId, sent, running :=
        tracker.spectators, tracker.channels, tracker.players, tracker.nextId, outbox, updateRunning;
      var k := SweepFetched(snapshot, fetched, resolves, specs, channels, players, nextId, sent, running);
      outbox := outbox + [Close];
      AppendAssoc(sent, Flatten(Steps(specs, channels, resolves, snapshot[..k], fetched[..k])), [Close]);
    }

    /** The players of the snapshot up to the first failed fetch; returns where it stopped. */
    method SweepFetched(snapshot: seq<Player>, fetched: seq<Option<Stats>>, resolves: set<int>,
                        ghost specs: seq<Spectator>, ghost channels: map<int, int>, ghost players: seq<Player>, ghost nextId: int,
                        ghost sent: seq<Effect<EloNote>>, ghost running: bool)
      returns (k: nat)
      requires |fetched| == |snapshot|
      requires Swept(snapshot, fetched, resolves, 0, specs, channels, players, nextId, sent, running)
      modifies this, tracker
      ensures k == FirstFailure(fetched)
      ensures Swept(snapshot, fetched, resolves, k, specs, channels, players, nextId, sent, running)
    {
      k := 0;
      while k < |snapshot| && fetched[k].Some?
        invariant 0 <= k <= |snapshot|
        invariant FailureFrom(fetched, k) == FirstFailure(fetched)
        invariant Swept(snapshot, fetched, resolves, k, specs, channels, players, nextId, sent, running)
      {
        SweepNext(snapshot, fetched, resolves, k, specs, channels, players, nextId, sent, running);
        k := k + 1;
      }
    }

    /**
     * `command_add`: after the arguments parse, the guild's default channel
     * is set; a stored player with that name and platform is reused, or one
     * is created from the fetched profile; then the guild subscribes.
     */
    method CommandAdd(text: string, guild: Guild, guildId: int, channelId: int, fetched: Result<Stats, string>)
      returns (o: Outcome<Reply>)
      requires Valid()
      modifies tracker
      ensures Valid()
      ensures ParseAdd(text, guild).Err? ==>
        o == Raised(ParseAdd(text, guild).error.message) &&
        tracker.players == old(tracker.players) && tracker.spectators == old(tracker.spectators) &&
        tracker.channels == old(tracker.channels)
      ensures ParseAdd(text, guild).Ok? ==> tracker.channels == DefaultChannel(old(tracker.channels), guildId, channelId)
      ensures o.Done? ==> (o.reply.Watching? && o.reply.player in tracker.players &&
        o.reply.started == !HasPair(old(tracker.spectators), guildId, o.reply.player.id) &&
        tracker.spectators == Subscribe(old(tracker.spectators), guildId, o.reply.player.id, ParseAdd(text, guild).value.user))
      ensures ParseAdd(text, guild).Ok? ==>
        var a := ParseAdd(text, guild).value;
        var found := Find(SiegeSchema, old(tracker.players), TargetCriteria(a.platform, a.name));
        found.Ok? &&
        (found.value.Some? ==>
           o == Done(Watching(!HasPair(old(tracker.spectators), guildId, found.value.value.id), found.value.value)) &&
           tracker.players == old(tracker.players))
      ensures ParseAdd(text, guild).Ok? ==>
        var a := ParseAdd(text, guild).value;
        var found := Find(SiegeSchema, old(tracker.players), TargetCriteria(a.platform, a.name));
        found.Ok? && found.value.None? ==>
          (fetched.Err? ==> o == Raised("invalid request: " + fetched.error) && tracker.players == old(tracker.players)) &&
          (fetched.Ok? && Collides(SiegeSchema, old(tracker.players), CreateFields(fetched.value, a.platform)) ==>
             o == Failed("'NoneType' object has no attribute 'id'") && tracker.players == old(tracker.players)) &&
          (fetched.Ok? && !Collides(SiegeSchema, old(tracker.players), CreateFields(fetched.value, a.platform)) ==>
             var row := Player(old(tracker.nextId), CreateFields(fetched.value, a.platform));
             tracker.players == old(tracker.players) + [row] && o == Done(Watching(true, row)))
      ensures !o.Done? ==> tracker.spectators == old(tracker.spectators)
      ensures o.Raised? && ParseAdd(text, guild).Ok? ==>
        fetched.Err? && o.message == "invalid request: " + fetched.error && tracker.players == old(tracker.players)
    {
      var args := ParseAdd(text, guild);
      if args.Err? {
        return Raised(args.error.message);
      }
      var a := args.value;
      tracker.SetChannelIfUnset(guildId, channelId);
      SiegeLookupOk(tracker.players, a.platform, a.name);
      var found := tracker.GetPlayer(TargetCriteria(a.platform, a.name));
      var player: Player;
      if found.value.Some? {
        player := found.value.value;
      } else {
        if fetched.Err? {
          return Raised("invalid request: " + fetched.error);
        }
        CreateFieldsFit(fetched.value, a.platform);
        var created := tracker.CreatePlayer(CreateFields(fetched.value, a.platform));
        if created.Err? || created.value.None? {
          // the fetched uid is already stored under another name or platform: `player.id` on None
          return Failed("'NoneType' object has no attribute 'id'");
        }
        player := created.value.value;
        assert player in tracker.players;
        assert !HasPair(tracker.spectators, guildId, player.id) by {
          forall s | s in tracker.spectators ensures s.player != player.id {
            var q :| q in old(tracker.players) && q.id == s.player;
          }
        }
      }
      assert player.id in Ids(tracker.players);
      var started := tracker.CreateSpectator(guildId, player.id, a.user);
      o := Done(Watching(started, player));
    }

    /** `command_remove`: an unknown player is a BotError quoting the whole argument text. */
    method CommandRemove(text: string, guildId: int) returns (o: Outcome<Reply>)
      requires Valid()
      modifies tracker
      ensures Valid()
      ensures tracker.players == old(tracker.players) && tracker.channels == old(tracker.channels)
      ensures ParseTarget(text).Err? ==> o == Raised(ParseTarget(text).error) && tracker.spectators == old(tracker.spectators)
      ensures ParseTarget(text).Ok? ==>
        var (platform, name) := ParseTarget(text).value;
        var found := Find(SiegeSchema, old(tracker.players), TargetCriteria(platform, name));
        found.Ok? &&
        (found.value.None? ==> o == Raised("couldn't find player " + text + "!") && tracker.spectators == old(tracker.spectators)) &&
        (found.value.Some? ==>
           o == Done(Unwatched(HasPair(old(tracker.spectators), guildId, found.value.value.id), found.value.value)) &&
           tracker.spectators == Unsubscribe(old(tracker.spectators), guildId, found.value.value.id))
    {
      var args := ParseTarget(text);
      if args.Err? {
        return Raised(args.error);
      }
      var (platform, name) := args.value;
      SiegeLookupOk(tracker.players, platform, name);
      var found := tracker.GetPlayer(TargetCriteria(platform, name));
      if found.value.None? {
        return Raised("couldn't find player " + text + "!");
      }
      var player := found.value.value;
      var stopped := tracker.DeleteSpectator(guildId, player.id);
      o := Done(Unwatched(stopped, player));
    }

    /**
     * `command_rating`: the fetched rank is reported, and a stored player
     * with the fetched name is refreshed as the sweep would.
     */
    method CommandRating(text: string, fetched: Result<Stats, string>, resolves: set<int>) returns (o: Outcome<Reply>)
      requires Valid()
      modifies this, tracker
      ensures Valid()
      ensures ParseTarget(text).Err? ==> o == Raised(ParseTarget(text).error)
      ensures ParseTarget(text).Ok? && fetched.Err? ==> o == Raised("invalid request: " + fetched.error)
      ensures ParseTarget(text).Ok? && fetched.Ok? ==>
        o == Done(Notice(fetched.value.name + " is " + fetched.value.rankName + " with " + IntToString(fetched.value.rankPoints) + " elo"))
      ensures o.Done? ==>
        var found := Find(SiegeSchema, old(tracker.players), map["name" := Text(fetched.value.name)]);
        found.Ok? &&
        (found.value.None? ==> outbox == old(outbox) && tracker.players == old(tracker.players)) &&
        (found.value.Some? ==>
           outbox == old(outbox) + Step(old(tracker.spectators), old(tracker.channels), resolves, found.value.value, fetched.value) &&
           tracker.players == if Changed(found.value.value, fetched.value)
                              then Overwrite(old(tracker.players), found.value.value.id, SiegeChanges(fetched.value))
                              else old(tracker.players))
      ensures !o.Done? ==> outbox == old(outbox) && tracker.players == old(tracker.players)
      ensures tracker.spectators == old(tracker.spectators) && tracker.channels == old(tracker.channels)
    {
      var args := ParseTarget(text);
      if args.Err? {
        return Raised(args.error);
      }
      if fetched.Err? {
        return Raised("invalid request: " + fetched.error);
      }
      var stats := fetched.value;
      o := Done(Notice(stats.name + " is " + stats.rankName + " with " + IntToString(stats.rankPoints) + " elo"));
      SiegeLookupOk(tracker.players, "", stats.name);
      var found := tracker.GetPlayer(map["name" := Text(stats.name)]);
      if found.value.Some? {
        UpdatePlayer(found.value.value, stats, resolves);
      }
    }

    /**
     * `command_rating` as written: the rank is posted in the channel first;
     * then a stored player with the fetched name goes through
     * `update_player` as written, which raises on a changed ELO before
     * anything is written or sent to the spectators. `posted` holds what
     * went to the command's channel.
     */
    method CommandRatingAsWritten(text: string, fetched: Result<Stats, string>) returns (posted: seq<string>, o: Outcome<()>)
      requires Valid()
      ensures ParseTarget(text).Err? ==> o == Raised(ParseTarget(text).error) && posted == []
      ensures ParseTarget(text).Ok? && fetched.Err? ==> o == Raised("invalid request: " + fetched.error) && posted == []
      ensures ParseTarget(text).Ok? && fetched.Ok? ==>
        var found := Find(SiegeSchema, tracker.players, map["name" := Text(fetched.value.name)]);
        posted == [fetched.value.name + " is " + fetched.value.rankName + " with " + IntToString(fetched.value.rankPoints) + " elo"] &&
        found.Ok? &&
        (o == Failed("'SiegeTracker' object has no attribute 'update_player'") <==>
           found.value.Some? && Changed(found.value.value, fetched.value)) &&
        (o.Failed? || o == Done(()))
    {
      var args := ParseTarget(text);
      if args.Err? {
        return [], Raised(args.error);
      }
      if fetched.Err? {
        return [], Raised("invalid request: " + fetched.error);
      }
      var stats := fetched.value;
      posted := [stats.name + " is " + stats.rankName + " with " + IntToString(stats.rankPoints) + " elo"];
      SiegeLookupOk(tracker.players, "", stats.name);
      var found := tracker.GetPlayer(map["name" := Text(stats.name)]);
      o := Done(());
      if found.value.Some? {
        o := UpdatePlayerAsWritten(found.value.value, stats);
      }
    }

    /** `command_here`: this channel becomes the guild's notification channel. */
    method CommandHere(guildId: int, channelId: int) returns (o: Outcome<Reply>)
      requires Valid()
      modifies tracker
      ensures Valid()
      ensures tracker.channels == old(tracker.channels)[guildId := channelId]
      ensures tracker.players == old(tracker.players) && tracker.spectators == old(tracker.spectators)
      ensures o == Done(Notice("Siege notifications will be posted to this channel!"))
    {
      tracker.SetChannel(guildId, channelId);
      o := Done(Notice("Siege notifications will be posted to this channel!"));
    }
  }
}
