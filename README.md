# mythical, modelled in Dafny

mythical is a Discord bot that watches game players for guilds (Discord servers) and posts a message whenever a player's tracked rating changes. This project models its core and proves properties about it:

- **The subscription store.** Each kind of player has a `Tracker` with three SQLite tables: players, spectators and channels. The players table has an autoincrement id and a UNIQUE natural key compared `COLLATE NOCASE`. A spectator is a guild watching a player, with an optional owner tag. The channels table maps each guild to its notification channel.
- **The refresh sweeps.** A raider.io sweep skips a player whose fetch fails. A Rainbow Six Siege sweep stops at the first failure and always closes its API session. A legacy sweep returns at the first failure. When a tracked value changes, each sweep writes it first and then notifies every watching guild's channel.
- **The command handlers** and the `add`/`remove`/`here` effects they have on the store.
- **The text routing of the bot:** `split`, `either`, prefix, plugin and subcommand dispatch, mention recognition and `debug_id` parsing.
- **The measure plugin's cache**, with its fifteen-minute expiry, and the feet-and-inches rendering.

Modules, one per source file:

| module | file | models |
|---|---|---|
| `Wrappers` | wrappers.dfy | `Option` and `Result` |
| `Strings` | strings.dfy | Python's `str.split(maxsplit=n)`, `str.strip()`, `str(int)` and `int(str)` |
| `Schemas` | schema.dfy | column kinds, NOCASE folding, the UNIQUE key, and the three player schemas |
| `Store` | store.dfy | `mythical/tracker.py`: the `Tracker` class over the three tables |
| `Notify` | notify.dfy | the channel fan-out shared by the two plugins, and the effect and reply datatypes |
| `Commands` | bot.dfy | `mythical/bot.py`: `split`, `either`, both `on_message` dispatchers, `try_get_member`, `get_member`, `Bot.configure` |
| `Raider` | raider.dfy | `mythical/plugin/raider.py` |
| `Siege` | siege.dfy | `mythical/plugin/siege.py` |
| `Legacy` | base.dfy | `mythical/base.py`, the older tracker |
| `LegacyRaider` | legacy_raider.dfy | `mythical/raider.py`, the older raider.io cog |
| `Height` | height.dfy | `mythical/plugin/height.py` |

How the I/O is modelled:

- **Rows and queries.**
  - Rows are kept in rowid order.
  - A query that `fetchone()`s returns the lowest-rowid match.
  - The DISTINCT player queries (`get_spectated_players` and the legacy watched-player queries) yield players in rowid order; the other joins run in spectator-table order.
  - SQLite leaves these orders unspecified; the model fixes them.
- **Fetches from raider.io and the Siege API** are inputs:
  - a `seq<Option<…>>` for a sweep, one entry per player;
  - a `Result` for a command.
- **Channel resolution** (`get_channel`) is a set of resolvable channel ids. Guild members are a map from id to member and a map from name to member.
- **Messages.** The plugin classes have an `outbox` of effects: `Persist` for a store write, `Send` for one notification, `Close` for the Siege session. The contracts state these effects and their order.
- **Commands** return an `Outcome`:
  - a reply;
  - `Raised` for a `BotError`, which the bot turns into an `Error:` message;
  - `Failed` for any other exception.

## Model

| member | source | states |
|---|---|---|
| Schemas.FoldIgnoresCase | mythical/plugin/raider.py:86-90 | a name and its ASCII upper-case spelling fold to the same NOCASE key |
| Schemas.FoldStable | mythical/plugin/raider.py:86-88 | folding is idempotent and leaves every character outside A-Z unchanged |
| Schemas.CollateSymmetric | mythical/tracker.py:113 | `column = value` under a column's collation is symmetric |
| Schemas.ConflictsSymmetric | mythical/plugin/raider.py:90 | two rows collide on the UNIQUE key symmetrically |
| Schemas.KeyOf | mythical/plugin/raider.py:90 | the natural-key part of a row is a sub-map of the row |
| Schemas.RaiderSchemaWellFormed | mythical/plugin/raider.py:83-91 | the raider.io schema has distinct columns, none named `id`, and its key is made of its columns |
| Schemas.SiegeSchemaWellFormed | mythical/plugin/siege.py:32-43 | the same for the Siege schema |
| Schemas.SchemasWellFormed | mythical/raider.py:77-89 | the same for all three schemas, the legacy one included |
| Store.FirstMatch | mythical/tracker.py:118 | the index found satisfies the criteria, and no earlier row does |
| Store.Find | mythical/tracker.py:102-122 | `get_player`: empty criteria and unknown columns are errors, exactly; a found row is in the table and satisfies every equality; None means no row does |
| Store.FirstMissing | mythical/tracker.py:83-84 | the first model field absent from the keyword arguments; every earlier one is present |
| Store.CreateOutcome | mythical/tracker.py:77-100 | `create_player`: KeyError exactly when a field is missing; None exactly when an existing row collides on the key; a row with the next id and exactly the given fields exactly when all fields are given and nothing collides; TypeError exactly when extra fields are given and nothing collides |
| Store.CreateKeepsValid | mythical/tracker.py:86-98 | a successful insert keeps ids increasing, rows typed and keys distinct |
| Store.CreateThenFind | mythical/tracker.py:77-122 | after an insert, looking the row up by its natural key returns exactly the new row |
| Store.CreateIgnoresCase | mythical/tracker.py:87-100 | re-adding a player under an upper-case variant of its key is ignored |
| Store.Overwrite | mythical/plugin/raider.py:108-113 | an UPDATE by id keeps the number of rows and every row's id |
| Store.RewriteKeepsRow | mythical/plugin/siege.py:119-126 | changing typed non-key columns keeps the row's id, typing and key |
| Store.OverwriteIds | mythical/plugin/raider.py:111 | an UPDATE keeps the set of ids, so every subscription still names a row |
| Store.OverwriteKeepsValid | mythical/plugin/raider.py:108-113 | an UPDATE of typed non-key columns keeps the table valid; an unknown id changes nothing |
| Store.Retain | mythical/tracker.py:203-208 | the kept rows are exactly those whose id is in the set, and ids stay increasing |
| Store.Discard | mythical/tracker.py:205-209 | the removed rows are exactly those whose id is not in the set; kept and removed add up to the table |
| Store.Lookup | mythical/plugin/raider.py:111 | the row with a given id, present exactly when that id is in the table |
| Store.CountPairDistinct | mythical/tracker.py:226 | under UNIQUE (guild_id, player_id) a pair occurs once or not at all |
| Store.Subscribe | mythical/tracker.py:237 | after INSERT OR IGNORE the pair is present and every old subscription is kept |
| Store.SubscribeOnce | mythical/tracker.py:231-240 | subscribing keeps pairs unique, leaves the pair present exactly once and adds nothing else; a repeat call changes nothing and keeps the first user tag |
| Store.Unsubscribe | mythical/tracker.py:248 | removes exactly the rows of that pair, and keeps pairs unique |
| Store.UnsubscribeCount | mythical/tracker.py:242-251 | afterwards the pair is absent and exactly one row fewer exists iff the pair existed |
| Store.GuildSubscriptions | mythical/tracker.py:159 | exactly the subscriptions of one guild |
| Store.SpectatedBy | mythical/tracker.py:145-176 | every player yielded is a row of the table |
| Store.SpectatedByGuild | mythical/tracker.py:145-176 | `get_players_spectated_by_guild(g)` yields exactly g's subscriptions, in order, each with its player and user tag |
| Store.SpectatedPlayers | mythical/tracker.py:178-192 | the players yielded are exactly the subscribed ones |
| Store.SpectatedOnce | mythical/tracker.py:178-192 | each subscribed player is yielded exactly once (ids strictly increase) and none is missed |
| Store.DefaultChannel | mythical/tracker.py:269-284 | the guild has a channel afterwards, an existing one is never overwritten, other guilds are untouched |
| Store.DefaultChannelSticks | mythical/tracker.py:269-302 | the first-touch default is idempotent, never overrides an explicit `set_channel`, and sets the channel when there was none |
| Store.ChannelsOf | mythical/tracker.py:304-322 | one row per subscription of the player whose guild has a channel, carrying that guild's channel and the user tag; guilds without a channel yield nothing |
| Store.ChannelsOfDistinct | mythical/tracker.py:312-316 | under the UNIQUE pair constraint no guild appears twice among a player's channels |
| Store.TaggedPlayer | mythical/tracker.py:124-143 | `get_player_with_user_id`: a player found has a subscription of that guild tagged with that user; None exactly when no such subscription exists |
| Store.Tracker.constructor | mythical/tracker.py:47-59 | three empty tables and the AUTOINCREMENT counter at 1 |
| Store.Tracker.CreatePlayer | mythical/tracker.py:77-100 | the result is `CreateOutcome`; a created row is appended with the next id; otherwise no table changes |
| Store.Tracker.DeletePlayersWithoutSpectator | mythical/tracker.py:194-209 | keeps exactly the subscribed players and returns how many rows were removed |
| Store.Tracker.CreateSpectator | mythical/tracker.py:231-240 | returns true iff the pair was absent; the subscriptions become `Subscribe` of the old ones |
| Store.Tracker.DeleteSpectator | mythical/tracker.py:242-251 | returns true iff the pair existed; the subscriptions become `Unsubscribe` of the old ones |
| Store.Tracker.SetChannelIfUnset | mythical/tracker.py:269-284 | the channels become `DefaultChannel` of the old ones; nothing else changes |
| Store.Tracker.SetChannel | mythical/tracker.py:286-302 | the guild maps to the given channel; nothing else changes |
| Store.Tracker.UpdatePlayer | mythical/plugin/siege.py:119-126 | the row with that id takes the changes (the `update_player` the plugin calls); the store stays valid |
| Store.Tracker.GetPlayer | mythical/tracker.py:102-122 | empty criteria (ValueError) and an unknown column (sqlite's OperationalError) are errors, exactly; a row found is stored and satisfies every equality; None means no stored row does |
| Store.Tracker.GetPlayerWithUserId | mythical/tracker.py:124-143 | a player found is stored and has a subscription of that guild tagged with that user; when every subscription names a stored player, None exactly when no such subscription exists |
| Store.Tracker.GetPlayersSpectatedByGuild | mythical/tracker.py:145-176 | only stored players, at most one entry per subscription of the guild |
| Store.Tracker.GetSpectatedPlayers | mythical/tracker.py:178-192 | exactly the stored players some guild subscribes to |
| Store.Tracker.GetSpectatorChannels | mythical/tracker.py:304-322 | one row per subscription of the player whose guild has a channel, with that channel and the user tag |
| Notify.Deliveries | mythical/plugin/raider.py:191-214 | at most one message per joined row, each to a resolving channel, for this player and note |
| Notify.DeliveriesAppend | mythical/plugin/raider.py:191 | the deliveries for two runs of rows are the first run's followed by the second's |
| Notify.DeliveriesSkip | mythical/plugin/raider.py:192-195 | an unresolved channel sends nothing and the rows after it are still delivered |
| Notify.DeliveriesExactly | mythical/plugin/raider.py:191-214 | exactly one message per resolving row, to that row's channel, with that row's user tag |
| Notify.DeliverAll | mythical/plugin/siege.py:128-170 | the channel loop as code sends exactly `Deliveries` |
| Commands.SplitShape | mythical/bot.py:15-24 | `split` returns the first word and the text after the whitespace that follows it, trailing whitespace kept |
| Commands.SplitBlank | mythical/bot.py:18-20 | the command word is empty iff the text is blank, and then both parts are empty |
| Commands.SplitCommand | mythical/bot.py:18-24 | `word + " " + rest` splits back into `(word, rest)`; a lone word gives `(word, "")` |
| Commands.Split | mythical/bot.py:15-24 | the command word is empty iff the text is blank and never holds whitespace; a non-empty rest follows a word and starts with a non-space |
| Commands.Either | mythical/bot.py:27-30 | the listing is empty iff there are no names; a single name is listed in backquotes |
| Commands.EitherCons | mythical/bot.py:27-30 | a name in front of a non-empty list is listed first, joined to the rest's listing by ", " |
| Commands.EitherAppend | mythical/bot.py:30 | the listing of a concatenation is the two listings joined by ", " (order kept) |
| Commands.DispatchSubcommand | mythical/bot.py:67-79 | a handler is invoked iff the first word is a registered subcommand, and it gets the rest of the text |
| Commands.DispatchCases | mythical/bot.py:70-79 | a registered word reaches its handler; an unregistered one is answered "invalid subcommand"; blank text lists the commands |
| Commands.RouteMessage | mythical/bot.py:125-137 | a message reaches a plugin iff it is not the bot's own, starts with the prefix and names a known plugin |
| Commands.RouteToPlugin | mythical/bot.py:128-140 | `<prefix><plugin> <rest>` from another author reaches that plugin with the rest |
| Commands.Bot.OnMessage | mythical/bot.py:125-137 | a message reaches a plugin iff it is not the bot's own, starts with this bot's prefix and names one of its plugins |
| Commands.React | mythical/bot.py:139-142 | a BotError becomes an "Error: …" reply and goes no further; any other exception goes to the exception report |
| Commands.MentionRoundTrip | mythical/bot.py:164-166 | the mention of every 17- to 19-digit id, with or without `!` and a final newline, is recognised as that id |
| Commands.MentionTooShort | mythical/bot.py:164-168 | ids of fewer than 17 digits are not mentions |
| Commands.MentionId | mythical/bot.py:164-166 | a recognised mention is at least twenty characters and starts with `<@` |
| Commands.TryGetMember | mythical/bot.py:161-168 | a mention is resolved by id only; anything else is resolved by name |
| Commands.GetMember | mythical/bot.py:171-177 | a BotError with the "failed to resolve" text exactly when `try_get_member` finds nobody; otherwise that member |
| Commands.ParseDebugId | mythical/bot.py:107-108 | no setting gives None; a setting gives its integer, and is an error exactly when `int()` rejects it |
| Commands.DebugIdRoundTrip | mythical/bot.py:107-108 | any integer written out, with or without surrounding whitespace, configures that debug id |
| Commands.PaddedIntParses | mythical/bot.py:108 | `int()` ignores the whitespace around a written-out integer |
| Commands.Bot.constructor | mythical/bot.py:94-101 | prefix and plugins are stored; token and debug id start unset |
| Commands.Bot.Configure | mythical/bot.py:103-108 | the token is stored first; the debug id is set iff the setting parses, and is kept when `int()` raises |
| Strings.Strip | mythical/plugin/siege.py:175 | `strip()` is a slice of the text with only whitespace before and after it, and it neither starts nor ends with whitespace |
| Strings.SplitMax | mythical/bot.py:18 | `split(maxsplit=n)` yields at most n + 1 parts |
| Strings.IntToString | mythical/plugin/height.py:16 | `str(n)` is non-empty, starts with `-` exactly for a negative n, and is digits after that |
| Strings.ParseInt | mythical/bot.py:108 | `int()` rejects blank text; a value read comes from non-blank stripped text, which starts with `-` when the value is negative |
| Strings.ParseIntSameStrip | mythical/bot.py:108 | `int()` reads only the stripped text: two texts that strip alike read alike |
| Strings.SplitFromParts | mythical/bot.py:18 | `split(maxsplit=n)` parts are non-empty and start with a non-space; all but the last are whole words; no part exists iff the text is blank |
| Strings.SplitMaxParts | mythical/bot.py:18 | the same shape for a whole string |
| Strings.SplitJoined | mythical/plugin/raider.py:260-262 | words typed with single spaces split back into the same words (at most `maxsplit + 1` of them) |
| Strings.StripJoined | mythical/plugin/siege.py:175 | stripping singly spaced words changes nothing |
| Strings.NatToString | mythical/plugin/height.py:16 | `str(n)` is a non-empty string of digits |
| Strings.NatToStringValue | mythical/bot.py:166 | reading the digits of `str(n)` gives `n` |
| Strings.NatToStringLength | mythical/bot.py:164 | a number has exactly k digits when it lies in [10^(k-1), 10^k) |
| Strings.ParseIntRoundTrip | mythical/bot.py:108 | `int(str(n)) == n` for every integer, negative ones included |
| Strings.IntToStringEdges | mythical/bot.py:108 | `str(n)` neither starts nor ends with whitespace |
| Raider.RaiderNames | mythical/plugin/raider.py:83-91 | the raider.io table has exactly region, realm, name and rating, and its schema is well formed |
| Raider.KeyLookupOk | mythical/plugin/raider.py:272 | a lookup by region, realm and name never raises |
| Raider.ProfileFieldsFit | mythical/plugin/raider.py:276-281 | creating from a profile gives every column, nothing else, each of its kind |
| Raider.SetRatingOnly | mythical/plugin/raider.py:105-113 | `set_rating` changes only the rating, only of the row with that id; an unknown id changes nothing |
| Raider.Refresh | mythical/plugin/raider.py:185-214 | an equal rating does nothing; a changed one is written first; every effect is a write or a message about this player, at most one message per channel row |
| Raider.RefreshPlayers | mythical/plugin/raider.py:188-189 | only this player's rows may change, and they take the new rating; an equal rating changes nothing |
| Raider.Step | mythical/plugin/raider.py:176-183 | a failed fetch does nothing; a fetched rating does nothing iff it is unchanged; every effect concerns this player |
| Raider.Sweep | mythical/plugin/raider.py:171-183 | every effect of the sweep is a write or a message about a player of the snapshot whose fetch succeeded |
| Raider.StepsConcern | mythical/plugin/raider.py:175-183 | every effect of the per-player batches concerns a fetched player of the snapshot |
| Raider.SweepPlayers | mythical/plugin/raider.py:175-183 | row order and ids are kept, and only rows of fetched players may change |
| Raider.RefreshOrder | mythical/plugin/raider.py:188-214 | an equal rating writes and sends nothing; a changed one is written before any message, and everything after the write is a message |
| Raider.SweepExtend | mythical/plugin/raider.py:175-183 | the sweep of one more player appends that player's effects and writes |
| Raider.SweepAppend | mythical/plugin/raider.py:175 | the sweep of two stretches of the snapshot is the first's effects followed by the second's |
| Raider.SweepSkipsFailure | mythical/plugin/raider.py:176-181 | a failed fetch skips only that player: the sweep is the one before it followed by the one after it |
| Raider.SetRating | mythical/plugin/raider.py:105-113 | `RaiderTracker.set_rating` overwrites the rating of that id and keeps the store valid |
| Raider.ParseAdd | mythical/plugin/raider.py:260-268 | anything but three or four words is the usage BotError |
| Raider.ParseAddWords | mythical/plugin/raider.py:260-266 | three typed words are read back as region, realm and name; a fourth is resolved as a member, or its BotError is raised |
| Raider.ParseRemove | mythical/plugin/raider.py:290-292 | accepted iff the text has exactly three words |
| Raider.RaiderPlugin.constructor | mythical/plugin/raider.py:150-162 | an empty store, no update loop running, nothing sent |
| Raider.RaiderPlugin.Ready | mythical/plugin/raider.py:164-169 | the update loop runs afterwards and nothing is sent |
| Raider.RaiderPlugin.ReadyAsWritten | mythical/plugin/raider.py:167 | `super().ready` raises AttributeError, so the loop is never started |
| Raider.RaiderPlugin.UpdatePlayer | mythical/plugin/raider.py:185-214 | the effects are `Refresh` over the player's channels; the players become `RefreshPlayers`; nothing else changes |
| Raider.RaiderPlugin.StepPlayer | mythical/plugin/raider.py:176-183 | one player of the sweep; a failed fetch does nothing |
| Raider.RaiderPlugin.Update | mythical/plugin/raider.py:171-183 | the effects are `Sweep` over the watched players taken at the start, and the table is `SweepPlayers` |
| Raider.RaiderPlugin.SweepSnapshot | mythical/plugin/raider.py:175-183 | the loop over a given snapshot produces `Sweep` and `SweepPlayers` |
| Raider.RaiderPlugin.UpdatePlayerAsWritten | mythical/plugin/raider.py:185-192 | as written: the changed rating is written, then reading `self.client` raises AttributeError when the player has a channel row, before any message is sent |
| Raider.RaiderPlugin.UpdateAsWritten | mythical/plugin/raider.py:171-192 | as written: the sweep runs as intended up to the first changed player with a channel row; that player is written, nothing is sent for it, and the loop stops |
| Raider.RaiderPlugin.RunAsWritten | mythical/plugin/raider.py:175-192 | the loop as written over a given snapshot stops exactly at the first player whose refresh reads `self.client` |
| Raider.RaiderPlugin.NextAsWritten | mythical/plugin/raider.py:175-192 | one player of the loop as written: either the loop stops there, or the sweep so far grows by that player |
| Raider.RaiderPlugin.CrashAt | mythical/plugin/raider.py:189-192 | the player whose refresh reads `self.client` is written and then ends the loop |
| Raider.RaiderPlugin.RanToEnd | mythical/plugin/raider.py:175-183 | a loop that reached no `self.client` read is the intended sweep and keeps running |
| Raider.RaiderPlugin.Cleanup | mythical/plugin/raider.py:216-220 | keeps exactly the subscribed players |
| Raider.RaiderPlugin.CommandAdd | mythical/plugin/raider.py:257-285 | bad arguments change nothing; the default channel is set first; an existing player is reused; a failed fetch raises and adds nothing; a fetched profile that collides with a stored key fails on `None.id` and adds nothing; otherwise the profile's row is appended with the next id and the reply is "started watching" that row; the reply says "started" iff the subscription is new |
| Raider.RaiderPlugin.CommandRemove | mythical/plugin/raider.py:287-300 | bad arguments or an unknown player raise BotError and change nothing; otherwise the pair is unsubscribed and the reply says whether it existed |
| Raider.RaiderPlugin.CommandHere | mythical/plugin/raider.py:342-346 | the guild's channel becomes this one, with the fixed reply |
| Siege.Sign | mythical/plugin/siege.py:141 | "+" iff the ELO did not go down, "-" iff it did |
| Siege.Delta | mythical/plugin/siege.py:144 | the absolute change: the old ELO plus or minus it gives the new one |
| Siege.ReachedOf | mythical/plugin/siege.py:154-158 | "gained n" iff the ELO did not go down, with old + n = new; otherwise "lost n" with n > 0 and old − n = new |
| Siege.KillDeath | mythical/plugin/siege.py:147-150 | the kills/deaths sentence is present iff neither season total went down, with the two differences |
| Siege.ColourOf | mythical/plugin/siege.py:162-166 | green iff the ELO did not go down |
| Siege.NoteFor | mythical/plugin/siege.py:139-167 | the sign, the verb, the colour and the amount agree, and the old ELO with the signed delta gives the new one |
| Siege.Title | mythical/plugin/siege.py:154-160 | the title reads back as the player's name, the verb with its amount, and "elo", one space apart |
| Siege.TitleWords | mythical/plugin/siege.py:154-160 | the title starts "<name> gained " iff the ELO did not go down |
| Siege.SiegeNames | mythical/plugin/siege.py:32-43 | the Siege table's columns are exactly the seven model fields, and the schema is well formed |
| Siege.CreateFieldsFit | mythical/plugin/siege.py:228-236 | a created row names every column, each with a value of its kind |
| Siege.ChangesFit | mythical/plugin/siege.py:119-126 | an update names only typed columns outside the UNIQUE key; uid and platform are not passed |
| Siege.ChangesKeepKey | mythical/plugin/siege.py:119-126 | the update leaves the uid and the platform alone |
| Siege.SiegeLookupOk | mythical/plugin/siege.py:198-220 | lookups by name and platform, or by name alone, never raise |
| Siege.UpdateWritesStats | mythical/plugin/siege.py:112-126 | after the update the row holds the five fresh values, is no longer "changed", and keeps its uid and platform |
| Siege.Step | mythical/plugin/siege.py:109-170 | nothing iff the ELO is unchanged; otherwise the write first; every effect concerns this player, at most one message per subscription |
| Siege.FirstFailure | mythical/plugin/siege.py:97-101 | the first failed fetch: every fetch before it succeeded |
| Siege.FirstFailureAt | mythical/plugin/siege.py:97-101 | the first failure is the only index with a failure there and none before |
| Siege.Sweep | mythical/plugin/siege.py:96-107 | the session is closed last, whatever happened |
| Siege.StepsExtend | mythical/plugin/siege.py:98-101 | one more fetched player appends that player's effects |
| Siege.SweepPlayersExtend | mythical/plugin/siege.py:98-101 | one more fetched player rewrites its row exactly when its ELO changed |
| Siege.SweepPlayers | mythical/plugin/siege.py:98-101 | row order and ids are kept, and only rows of fetched players may change |
| Siege.SweepStopsAtFailure | mythical/plugin/siege.py:97-107 | after a failed fetch, later fetches make no difference to the effects |
| Siege.SweepOne | mythical/plugin/siege.py:97-107 | a single changed player is written, announced, then the session closed; a failed fetch just closes it |
| Siege.ParseTarget | mythical/plugin/siege.py:175-181 | accepted iff the stripped text has one or two words; otherwise the usage BotError |
| Siege.ParseTargetWords | mythical/plugin/siege.py:249-255 | a lone name means Uplay; a platform and a name are read back as typed |
| Siege.ParseAddAsWritten | mythical/plugin/siege.py:205-216 | three words raise "too many values to unpack" |
| Siege.ParseAdd | mythical/plugin/siege.py:205-216 | the corrected parse: every error is a BotError; it agrees with the original on everything but three words; only three words name an owner |
| Siege.AddWithMember | mythical/plugin/siege.py:212-214 | naming a member crashes as written, while the corrected parse resolves the member or raises its BotError |
| Siege.SiegePlugin.constructor | mythical/plugin/siege.py:64-78 | an empty store, no loop running, nothing sent |
| Siege.SiegePlugin.OnReady | mythical/plugin/siege.py:85-89 | the update loop runs afterwards and nothing is sent |
| Siege.SiegePlugin.UpdatePlayerAsWritten | mythical/plugin/siege.py:118-126 | an unchanged ELO finishes quietly; a changed one raises AttributeError from the missing `tracker.update_player`, and nothing is written or sent |
| Siege.SiegePlugin.UpdatePlayer | mythical/plugin/siege.py:109-170 | the corrected refresh: the effects are `Step` (write, then one message per resolving channel); the row is overwritten iff the ELO changed |
| Siege.SiegePlugin.UpdateAsWritten | mythical/plugin/siege.py:93-107 | as written, the sweep ends at the first failure or the first changed player, nothing is written or sent, and the session is closed |
| Siege.SiegePlugin.RunAsWritten | mythical/plugin/siege.py:98-101 | the loop as written stops exactly at the first failed or changed player |
| Siege.SiegePlugin.Update | mythical/plugin/siege.py:93-107 | the intended sweep: the effects are `Sweep`: the players before the first failure are refreshed in order, then `Close` |
| Siege.SiegePlugin.SweepSnapshot | mythical/plugin/siege.py:98-101 | the intended loop over a given snapshot produces `Sweep` and rewrites the rows up to the first failure |
| Siege.SiegePlugin.SweepFetched | mythical/plugin/siege.py:98-101 | the intended loop stops exactly at `FirstFailure` |
| Siege.SiegePlugin.CommandAdd | mythical/plugin/siege.py:202-244 | the corrected command, with the corrected parse: bad arguments change nothing; the default channel is set first; an existing (name, platform) player is reused; a failed fetch raises "invalid request" and adds nothing; fetched stats that collide with a stored key fail on `None.id` and add nothing; otherwise the new row is appended with the next id and the reply is "started watching" that row; the reply says "started" iff the subscription is new |
| Siege.SiegePlugin.CommandRemove | mythical/plugin/siege.py:246-263 | bad arguments or an unknown player raise BotError and change nothing; otherwise the pair is unsubscribed |
| Siege.SiegePlugin.CommandRating | mythical/plugin/siege.py:172-200 | errors raise BotError and change nothing; otherwise it reports the rank; a stored player with the fetched name is refreshed as the corrected `update_player` would, its row overwritten with the fresh stats exactly when its ELO changed, and no other row changes |
| Siege.SiegePlugin.CommandRatingAsWritten | mythical/plugin/siege.py:172-200 | as written: errors raise BotError and post nothing; otherwise the rank line is posted first, and the command then fails with AttributeError from the missing `tracker.update_player` exactly when a stored player with the fetched name has a different ELO; nothing is written or sent to the spectators |
| Siege.SiegePlugin.CommandHere | mythical/plugin/siege.py:265-269 | the guild's channel becomes this one, with the fixed reply |
| Legacy.ChannelIds | mythical/base.py:266-284 | `get_channels(p)`: a channel id is yielded iff some guild watching p has it as its channel |
| Legacy.WatchedBy | mythical/base.py:111-139 | exactly the players the guild subscribes to, each once, in table order |
| Legacy.CreateNeverIgnored | mythical/base.py:67-91 | with no UNIQUE key, a create that names every column always inserts |
| Legacy.DuplicatesKept | mythical/raider.py:84-89 | adding the same player twice leaves two rows with different ids |
| Legacy.LegacyTracker.constructor | mythical/base.py:38-50 | three empty tables |
| Legacy.LegacyTracker.CreatePlayer | mythical/base.py:67-91 | every field but the leading id comes from the arguments (KeyError otherwise); a full create always inserts with the next id |
| Legacy.LegacyTracker.GetPlayer | mythical/base.py:93-109 | the repaired lookup: a row found satisfies every equality; None means no row does |
| Legacy.LegacyTracker.GetPlayersWatchedByGuild | mythical/base.py:111-139 | exactly the stored players the guild subscribes to |
| Legacy.LegacyTracker.GetWatchedPlayers | mythical/base.py:141-155 | exactly the stored players some guild subscribes to |
| Legacy.LegacyTracker.GetChannels | mythical/base.py:266-284 | the channel of every guild that watches the player and has one, and nothing else |
| Legacy.LegacyTracker.DeletePlayersUnwatched | mythical/base.py:157-172 | keeps exactly the subscribed players and returns how many were removed |
| Legacy.LegacyTracker.CreateSpectator | mythical/base.py:193-202 | returns true iff the pair was absent, never duplicates it, and carries no user tag |
| Legacy.LegacyTracker.DeleteSpectator | mythical/base.py:204-213 | returns true iff the pair existed, and removes only that pair |
| Legacy.LegacyTracker.SetChannelIfUnset | mythical/base.py:231-246 | an existing channel is never overwritten |
| Legacy.LegacyTracker.SetChannel | mythical/base.py:248-264 | the guild maps to the given channel |
| LegacyRaider.LegacyNames | mythical/raider.py:77-89 | the legacy table has discord_id, region, realm, name and rating, and no UNIQUE key |
| LegacyRaider.LegacyLookupOk | mythical/raider.py:215 | with `get_player` repaired, a lookup by region, realm and name names real columns and never raises |
| LegacyRaider.MessageAdd | mythical/raider.py:127-131 | "started watching" iff added, "already watching" otherwise, then the name |
| LegacyRaider.MessageRemove | mythical/raider.py:133-137 | "stopped watching" iff removed, "was not watching" otherwise, then the name |
| LegacyRaider.Footer | mythical/raider.py:150-161 | each of the eight footers contains the leader's name at its position |
| LegacyRaider.MessageLeaderboard | mythical/raider.py:145-161 | empty iff the list is empty; otherwise a footer naming the first player |
| LegacyRaider.Broadcast | mythical/raider.py:274-276 | one message per channel id, in order, up to the first id that does not resolve (sending to it raises) |
| LegacyRaider.BroadcastAll | mythical/raider.py:274-276 | the loop sends exactly `Broadcast` and completes iff every id resolves |
| LegacyRaider.LegacyStep | mythical/raider.py:264-276 | effects only when the lookup succeeded and the rating changed: the write first, then messages carrying the old and new rating |
| LegacyRaider.StepPlayers | mythical/raider.py:264-272 | a failed lookup changes nothing; otherwise only this player's rows may change |
| LegacyRaider.LegacySweepConcerns | mythical/raider.py:259-276 | `LegacySweep`: every effect of a tick is a write or a message about a player of the snapshot whose lookup succeeded |
| LegacyRaider.LegacySweepTouches | mythical/raider.py:259-276 | `LegacySweepPlayers`: row order and ids are kept, and only rows of players whose lookup succeeded may change |
| LegacyRaider.LegacySweepStops | mythical/raider.py:263-276 | the player at which the tick stops is the last one handled; later lookups make no difference |
| LegacyRaider.FailureEndsSweep | mythical/raider.py:267-269 | a failed lookup ends the tick: later results do not matter |
| LegacyRaider.SweepAt | mythical/raider.py:263-276 | the tick unrolled at any position: that player's step, then the rest only if the tick carries on |
| LegacyRaider.RatingFits | mythical/raider.py:103-111 | the rating update names a typed column, and the table has no key to disturb |
| LegacyRaider.SetRating | mythical/raider.py:103-111 | `set_rating` overwrites the rating of that id and keeps the store valid |
| LegacyRaider.AddFieldsMissDiscordId | mythical/raider.py:224 | the arguments as written make `create_player` raise KeyError on `discord_id` |
| LegacyRaider.WithDiscordIdFits | mythical/raider.py:224 | with an explicit NULL `discord_id` the arguments name every column, each of its kind |
| LegacyRaider.WithDiscordIdCreates | mythical/raider.py:224 | with an explicit NULL `discord_id` the create always inserts |
| LegacyRaider.AddFieldsFit | mythical/raider.py:224 | the arguments as written are of the right kinds |
| LegacyRaider.LegacyRaiderCog.constructor | mythical/raider.py:119-125 | an empty store, with the update loop started |
| LegacyRaider.LegacyRaiderCog.CommandAddAsWritten | mythical/raider.py:209-216 | as written: the default channel is set, then `get_player` raises OperationalError on every input; no player and no subscription is added |
| LegacyRaider.LegacyRaiderCog.CommandAddLookupRepaired | mythical/raider.py:209-227 | with `get_player` repaired and the rest as written: the default channel is set; a new player is never added: a failed rating lookup replies with the error, a successful one raises KeyError on `discord_id` |
| LegacyRaider.LegacyRaiderCog.CommandAdd | mythical/raider.py:209-227 | the corrected command: channel first; an existing player is reused; a failed lookup replies with the error and adds nothing; otherwise a player is created and subscribed |
| LegacyRaider.LegacyRaiderCog.CommandRemoveAsWritten | mythical/raider.py:229-233 | as written: `get_player` raises OperationalError on every input, and nothing changes |
| LegacyRaider.LegacyRaiderCog.CommandRemove | mythical/raider.py:229-239 | the corrected command, with `get_player` repaired: an unknown player gets the error reply and nothing changes; otherwise the pair is unsubscribed and the reply says whether it existed |
| LegacyRaider.LegacyRaiderCog.CommandHere | mythical/raider.py:241-246 | the guild's channel becomes this one, with the fixed reply |
| LegacyRaider.LegacyRaiderCog.StepPlayer | mythical/raider.py:264-276 | one player of the tick: effects `LegacyStep`, and whether the tick carries on |
| LegacyRaider.LegacyRaiderCog.LoopUpdate | mythical/raider.py:259-276 | the effects and writes are `LegacySweep` over the watched players; the loop keeps running unless a message went to a channel that does not resolve |
| LegacyRaider.LegacyRaiderCog.RunTick | mythical/raider.py:263-276 | the loop over a given snapshot produces the tick's effects and writes |
| LegacyRaider.LegacyRaiderCog.LoopClean | mythical/raider.py:284-288 | keeps exactly the subscribed players |
| Height.FeetInches | mythical/plugin/height.py:15 | `divmod(n, 12)`: inches in [0, 12) and 12·feet + inches = n, negative n included |
| Height.FeetInchesUnique | mythical/plugin/height.py:15 | that split is the only one with the inch part in [0, 12) |
| Height.FeetInchesShift | mythical/plugin/height.py:15 | adding a foot adds one to the feet and keeps the inches |
| Height.ReadsBack | mythical/plugin/height.py:16 | two numbers written around `' ` and before `"` read back with `int()` as themselves |
| Height.Imperial | mythical/plugin/height.py:14-16 | the rendering is two numbers around `' ` followed by `"`; read back with `int()` they are `divmod(inches, 12)` |
| Height.ImperialInches | mythical/plugin/height.py:14-16 | the rendering ends with the one- or two-digit inch part and a double quote |
| Height.Measured | mythical/plugin/height.py:54-60 | a missing or stale entry is fetched and stored with the new stamp; a fresh one is served unchanged; other names are untouched |
| Height.SecondLookup | mythical/plugin/height.py:57-60 | a second lookup reuses the first value iff the entry is within the window |
| Height.FreshFetchServed | mythical/plugin/height.py:58-60 | within fifteen minutes of a fetch, the fetched value is served |
| Height.RatingName | mythical/plugin/height.py:65 | the author's name iff the text is blank, otherwise the text |
| Height.StripBlank | mythical/plugin/height.py:65 | `strip()` is empty iff the text is all whitespace |
| Height.MeasurePlugin.constructor | mythical/plugin/height.py:30-40 | an empty cache |
| Height.MeasurePlugin.GetMeasure | mythical/plugin/height.py:54-60 | the value and the new cache are `Measured` of the old cache |
| Height.MeasurePlugin.CommandRating | mythical/plugin/height.py:62-67 | looks up `RatingName` through the cache |

## Left out

- HTTP and the Siege API (`get_all_mythic_plus_best_runs`, `siegeapi.Auth`, `get_player`, `load_ranked_v2`) are not modelled. Their results are inputs, `None` or `Err` standing for a raised error.
- Floating-point arithmetic is not modelled: `compute_mythic_plus_rating`, `_format_time`, `round(...)`, `metric` and `LengthPlugin`. A rating is an opaque `real` compared only for equality, and rounded ratings in replies are given as text.
- Embeds, colours other than the Siege green/red choice, thumbnails and `describe_recent_runs` are not modelled. `random.choice` of a footer is a `pick` parameter, and `random.normalvariate` is the `fetched` input of the cache.
- Scheduling is not modelled: `tasks.loop` timing, `wait_until_ready`, async/await and concurrent ticks. One tick is one sequential pass over a snapshot taken at its start. `time.time()` is passed in twice: once when the entry is checked and once when it is stored.
- SQL text, table creation and table prefixes are not modelled. The relations are modelled directly.
- The order of query results is fixed to rowid or spectator order. SQLite does not promise it.
- Foreign keys: SQLite does not enforce them here. The model makes "every subscription names an existing player" a class invariant, and `create_spectator` requires it.
- Non-ASCII decimal digits, which `int()` also accepts, are not modelled; only `0`-`9` are digits. Whitespace is Python's full `str.isspace` set.
- `command_leaderboard` in the raider.io plugin, the legacy cog and the measure plugin is not modelled. It is sorting of floats and embed rendering; the measure plugin's version sorts un-awaited coroutines.
- `command_rating` of the raider.io plugin and of the legacy cog is not modelled. They are network calls and float rendering; the plugin's version also looks up `name=parts[1]`.
- `handle_exception`, `Bot.on_exception`, `Bot.run`, `cog_command_error` and config reading beyond `debug_id` are not modelled. A non-BotError exception is an `Outcome.Failed`.
- Legacy.LegacyTracker.CreatePlayer: the store does what base.py evidently intends. As written, base.py:80 inserts into a bare `players` table, not the tracker's own `{prefix}_players` (base.py:43). Unless some other `players` table has a `discord_id` column (mythical.py:84 creates one without it), that INSERT raises OperationalError. Even when it runs, base.py:89 builds the base `Player(id=cursor.fetchone(), **kwargs)`, whose only fields are `id` and `discord_id`. A legacy create with `region` and the other columns therefore raises TypeError and the insert is rolled back, so as written it never succeeds. Before that, `get_player` already fails at base.py:102, which interpolates a tuple into the SELECT. None of this is modelled.
- Legacy.LegacyTracker.GetPlayer: models the repaired lookup. As written, base.py:102 puts the field-name tuple itself in the SELECT list, which SQLite rejects as a misused row value, so every call raises OperationalError; LegacyRaider.LegacyRaiderCog.CommandAddAsWritten and LegacyRaider.LegacyRaiderCog.CommandRemoveAsWritten model the commands that reach it.
- LegacyRaider.LegacyLookupOk: is about the repaired lookup. As written, the lookup at raider.py:215 always raises (base.py:102).
- LegacyRaider.LegacyRaiderCog.CommandAdd: models the command with `get_player` repaired and the `discord_id` fix. As written, it raises at `get_player` after setting the channel; LegacyRaider.LegacyRaiderCog.CommandAddAsWritten models that.
- LegacyRaider.LegacyRaiderCog.CommandRemove: models the command with `get_player` repaired. As written, it raises at `get_player` and changes nothing; LegacyRaider.LegacyRaiderCog.CommandRemoveAsWritten models that.
- Siege.SiegePlugin.CommandAdd: models the command with the corrected parse. As written, three words raise ValueError at siege.py:213, before the default channel is set, so nothing changes; Siege.ParseAddAsWritten models that.
- Raider.RaiderPlugin.UpdatePlayer: models the evidently intended refresh. As written, `self.client` is never assigned, so a changed player with a channel row raises after the write; Raider.RaiderPlugin.UpdatePlayerAsWritten models that.
- Raider.RaiderPlugin.StepPlayer: models the intended step, which sends the messages. As written, the step raises at `self.client` instead (see Raider.RaiderPlugin.UpdatePlayerAsWritten).
- Raider.RaiderPlugin.Update: models the intended sweep. As written, the tick ends at the first changed player with a channel row, and the loop stops; Raider.RaiderPlugin.UpdateAsWritten models that.
- Raider.RaiderPlugin.SweepSnapshot: models the intended loop. The loop as written is Raider.RaiderPlugin.RunAsWritten.
- Siege.SiegePlugin.CommandRating: models the command with the corrected `update_player`, which writes the row and notifies. As written, a stored player whose ELO changed makes `update_player` raise AttributeError after the rank line is posted, and nothing is written or sent; Siege.SiegePlugin.CommandRatingAsWritten models that.
- Siege.SiegePlugin.Update: models the intended sweep. As written, the tick ends at the first failed fetch or the first changed player, nothing is written or sent, and the session is closed; Siege.SiegePlugin.UpdateAsWritten models that.
- Siege.SiegePlugin.SweepSnapshot: models the intended loop. The loop as written is Siege.SiegePlugin.RunAsWritten.
- Siege.SiegePlugin.SweepFetched: models the intended loop, which stops only at `FirstFailure`. As written, the loop also stops at the first changed player; Siege.SiegePlugin.RunAsWritten models that.
- LegacyRaider.MessageAdd, LegacyRaider.MessageRemove and LegacyRaider.MessageLeaderboard: the cog's commands return `Reply` values, and these functions give their text. No contract states the rendered text of a command's reply.
- Legacy.ChannelIds: states which channels are yielded, not their order or multiplicity.
- mythical.py, mythical/__main__.py and the faceit and valorant files are not part of this model. They are HTTP wrappers and wiring.

## Findings

| source | as written | input that shows it | evidently intended | confidence | as-written member | corrected member |
|---|---|---|---|---|---|---|
| mythical/plugin/siege.py:212-214 | three words reach `platform, name = parts`, a three-element unpack | `add uplay Alice @Bob` | the third word names the owning server member | not executed | Siege.ParseAddAsWritten | Siege.ParseAdd |
| mythical/plugin/siege.py:119 | `self.tracker.update_player(...)` is called, but the tracker defines no such method; both `update` and `command_rating` (siege.py:199-200) reach it | any watched player whose `rank_points` changed, or `rating Alice` for a stored Alice whose `rank_points` changed | overwrite the five fresh fields of that row, then notify | not executed | Siege.SiegePlugin.UpdatePlayerAsWritten | Siege.SiegePlugin.UpdatePlayer |
| mythical/base.py:102 | `SELECT {self.Meta.model.Meta.fields}` interpolates the field-name tuple, so the SELECT list is a parenthesised row value, which SQLite rejects | `raider:add eu silvermoon Alice` or `raider:remove eu silvermoon Alice`, for any arguments | select the listed columns, joined by commas, and return the first matching row | not executed | LegacyRaider.LegacyRaiderCog.CommandRemoveAsWritten | LegacyRaider.LegacyRaiderCog.CommandRemove |
| mythical/raider.py:224 | with `get_player` repaired, `create_player` still reads every field after `id`, including `discord_id` (mythical/base.py:74-75), which the call omits | `raider:add eu silvermoon Alice` for a player not yet stored | create the player with no Discord id; even then base.py:80 inserts into a bare `players` table and base.py:89 builds the base `Player` from the raider fields and raises TypeError, so a working create also needs those fixed | not executed | LegacyRaider.LegacyRaiderCog.CommandAddLookupRepaired | LegacyRaider.LegacyRaiderCog.CommandAdd |
| mythical/plugin/raider.py:167 | `await super().ready(client)`, but the plugin base class defines no `ready`; nothing calls `ready` either, because `Bot.on_ready` (mythical/bot.py:118-122) calls `on_ready` | any call of `ready` | start the update loop when the bot is ready, unless it is already running | not executed | Raider.RaiderPlugin.ReadyAsWritten | Raider.RaiderPlugin.Ready |
| mythical/plugin/raider.py:192 | `self.client.get_channel(...)`, but `client` is never assigned: `__init__` (150-162) does not call the base `__init__`, and `ready` does not keep its argument | a watched player whose rating changed and whose guild has a channel row | resolve the channel through the bot's client and announce the change | not executed | Raider.RaiderPlugin.UpdatePlayerAsWritten | Raider.RaiderPlugin.UpdatePlayer |
