/**
 * Command routing of the chat bot: a message `<prefix><plugin> <subcommand> <rest>`
 * reaches a plugin, the plugin dispatches on the subcommand, and a BotError
 * raised by a handler turns into an "Error: ..." reply.
 */
module Commands {
  import opened Wrappers
  import opened Strings

  // ----- split and either -----

  /** `split(text)`: the first word and the rest, `""` standing in for what is absent. */
  function Split(text: string): (r: (string, string))
    ensures r.0 == [] <==> IsBlank(text)
    ensures NoSpace(r.0)
    ensures r.1 != [] ==> r.0 != [] && !IsSpace(r.1[0])
  {
    SplitFromParts(text, 0, 1);
    assert text[0..] == text;
    var items := SplitMax(text, 1);
    if |items| == 0 then ("", "")
    else if |items| == 1 then (items[0], "")
    else (items[0], items[1])
  }

  /**
   * How a text falls apart around its first word: leading whitespace up to
   * `i`, the word up to `k`, the whitespace run after it up to `j`.
   */
  predicate SplitsAt(text: string, i: nat, k: nat, j: nat) {
    && i <= k <= j <= |text|
    && (forall n :: 0 <= n < i ==> IsSpace(text[n])) && (i == |text| || !IsSpace(text[i]))
    && (forall n :: i <= n < k ==> !IsSpace(text[n])) && (k == |text| || IsSpace(text[k]))
    && (forall n :: k <= n < j ==> IsSpace(text[n])) && (j == |text| || !IsSpace(text[j]))
  }

  /**
   * `split` returns the first word and everything after the whitespace that
   * follows it, trailing whitespace kept; blank text gives two empty strings
   * and a single word gives the word and an empty rest.
   */
  lemma SplitShape(text: string)
    ensures exists i: nat, k: nat, j: nat :: SplitsAt(text, i, k, j) && Split(text) == (text[i..k], text[j..])
  {
    var i := SkipSpace(text, 0);
    SkipSpaceSkips(text, 0);
    if i == |text| {
      assert SplitsAt(text, i, i, i);
      assert SplitMax(text, 1) == SplitFrom(text, 0, 1) == [];
      assert text[i..i] == [] && text[i..] == [];
    } else {
      var k := SkipWord(text, i);
      var j := SkipSpace(text, k);
      SkipWordSkips(text, i);
      SkipSpaceSkips(text, k);
      assert SplitMax(text, 1) == SplitFrom(text, 0, 1) == [text[i..k]] + SplitFrom(text, k, 0);
      assert SplitsAt(text, i, k, j);
      if j == |text| {
        assert SplitFrom(text, k, 0) == [];
        assert text[j..] == [];
      } else {
        assert SplitFrom(text, k, 0) == [text[j..]];
        assert Split(text) == (text[i..k], text[j..]);
      }
    }
  }

  /** The first word is empty exactly for blank text, and then so is the rest. */
  lemma SplitBlank(text: string)
    ensures Split(text).0 == "" <==> IsBlank(text)
    ensures IsBlank(text) ==> Split(text) == ("", "")
  {
    SplitMaxParts(text, 1);
  }

  /** A command word followed by one space and the rest splits back into the two. */
  lemma SplitCommand(word: string, rest: string)
    requires word != [] && NoSpace(word)
    requires rest == [] || !IsSpace(rest[0])
    ensures Split(word + " " + rest) == (word, rest)
    ensures Split(word) == (word, "")
  {
    var s := word + " " + rest;
    assert s[0..] == s;
    SplitFromLastWord(word, 0, word, 1);
    assert word[0..] == word;
    if rest == [] {
      assert s == word + " ";
      SkipWordStops(s, 0, |word|);
      assert SplitFrom(s, |word|, 0) == [];
    } else {
      SplitFromSpaced(s, 0, word, rest, 1);
      var j := |word| + 1;
      assert SkipSpace(s, j) == j;
      assert SplitFrom(s, j, 0) == [s[j..]];
    }
  }

  function Quote(name: string): string {
    "`" + name + "`"
  }

  /** `either(names)`: each name in backticks, joined by ", ". */
  function Either(names: seq<string>): (r: string)
    ensures names == [] <==> r == ""
    ensures |names| == 1 ==> r == "`" + names[0] + "`"
  {
    if names == [] then ""
    else if |names| == 1 then Quote(names[0])
    else Either(names[..|names| - 1]) + ", " + Quote(names[|names| - 1])
  }

  /** `either` keeps the order of the names: the listing of a concatenation is the two listings joined. */
  lemma {:induction false} EitherAppend(a: seq<string>, b: seq<string>)
    requires a != [] && b != []
    ensures Either(a + b) == Either(a) + ", " + Either(b)
    decreases |b|
  {
    var ab := a + b;
    var front := b[..|b| - 1];
    var last := b[|b| - 1];
    assert ab[..|ab| - 1] == a + front;
    assert ab[|ab| - 1] == last;
    if |b| == 1 {
      assert a + front == a;
    } else {
      EitherAppend(a, front);
      ListAssoc(Either(a), Either(front), Quote(last));
    }
  }

  /** The listing is the first name in backticks, then ", " and the listing of the others. */
  lemma EitherCons(name: string, rest: seq<string>)
    requires rest != []
    ensures Either([name] + rest) == "`" + name + "`, " + Either(rest)
  {
    EitherAppend([name], rest);
  }

  lemma ListAssoc(x: string, y: string, z: string)
    ensures (x + ", " + y) + ", " + z == x + ", " + (y + ", " + z)
  {
  }

  // ----- dispatch inside a plugin -----

  datatype Dispatch = Invoke(command: string, rest: string) | Respond(text: string)

  /**
   * `BotPlugin.on_message`: a registered subcommand gets the rest of the
   * text; otherwise the plugin answers with a hint.
   */
  function DispatchSubcommand(text: string, commands: seq<string>): (d: Dispatch)
    ensures d.Invoke? <==> Split(text).0 in commands
    ensures d.Invoke? ==> d == Invoke(Split(text).0, Split(text).1)
  {
    var (command, rest) := Split(text);
    if command in commands then Invoke(command, rest)
    else if command != "" then Respond("invalid subcommand " + Quote(command))
    else Respond("missing subcommand, try " + Either(commands))
  }

  /**
   * A registered subcommand word reaches its handler with the rest; an
   * unregistered word is called invalid; blank text lists the commands
   * (unless the empty name is itself registered).
   */
  lemma DispatchCases(word: string, rest: string, blank: string, commands: seq<string>)
    requires word != [] && NoSpace(word)
    requires rest == [] || !IsSpace(rest[0])
    requires IsBlank(blank)
    ensures word in commands ==> DispatchSubcommand(word + " " + rest, commands) == Invoke(word, rest)
    ensures word !in commands ==> DispatchSubcommand(word + " " + rest, commands) == Respond("invalid subcommand `" + word + "`")
    ensures "" !in commands ==> DispatchSubcommand(blank, commands) == Respond("missing subcommand, try " + Either(commands))
  {
    SplitCommand(word, rest);
    SplitBlank(blank);
  }

  // ----- routing in the bot -----

  datatype Route = Ignore | Deliver(plugin: string, rest: string)

  /**
   * `Bot.on_message`: the bot's own messages, messages without the prefix
   * and unknown plugin names are dropped; anything else reaches the plugin.
   */
  function RouteMessage(author: int, self: int, content: string, prefix: string, plugins: seq<string>): (r: Route)
    ensures r.Deliver? <==> author != self && prefix <= content && Split(content[|prefix|..]).0 in plugins
  {
    if author == self then Ignore
    else if !(prefix <= content) then Ignore
    else
      var (command, rest) := Split(content[|prefix|..]);
      if command in plugins then Deliver(command, rest) else Ignore
  }

  /** `<prefix><plugin> <rest>` from another author reaches that plugin with the rest. */
  lemma RouteToPlugin(author: int, self: int, prefix: string, plugin: string, rest: string, plugins: seq<string>)
    requires author != self && plugin in plugins
    requires plugin != [] && NoSpace(plugin)
    requires rest == [] || !IsSpace(rest[0])
    ensures RouteMessage(author, self, prefix + plugin + " " + rest, prefix, plugins) == Deliver(plugin, rest)
  {
    var content := prefix + plugin + " " + rest;
    assert content[|prefix|..] == plugin + " " + rest;
    SplitCommand(plugin, rest);
  }

  /** How a plugin call ended: normally with its reply, with a BotError, or with any other exception. */
  datatype Outcome<+R> = Done(reply: R) | Raised(message: string) | Failed(exception: string)

  datatype Reaction = Quiet | ErrorReply(text: string) | Report(exception: string)

  /**
   * The `try`/`except BotError` around the plugin call: a BotError becomes a
   * reply in the channel and goes no further; any other exception goes to
   * the exception report.
   */
  function React<R>(o: Outcome<R>): (r: Reaction)
    ensures r.ErrorReply? <==> o.Raised?
    ensures o.Raised? ==> r.text == "Error: " + o.message
    ensures r.Report? <==> o.Failed?
  {
    match o
    case Done(_) => Quiet
    case Raised(m) => ErrorReply("Error: " + m)
    case Failed(e) => Report(e)
  }

  // ----- members -----

  /** What the bot can see of a guild: its member ids, and the member a name resolves to. */
  datatype Guild = Guild(members: set<nat>, named: map<string, nat>)

  function StripFinalNewline(a: string): string {
    if |a| > 0 && a[|a| - 1] == '\n' then a[..|a| - 1] else a
  }

  /**
   * `re.match(r"<@!?([0-9]{17,19})>$", a)`: the id of a mention; `$` also
   * matches just before a final newline.
   */
  function MentionId(a: string): (r: Option<nat>)
    ensures r.Some? ==> |a| >= 20 && a[0] == '<' && a[1] == '@'
  {
    var b := StripFinalNewline(a);
    if |b| >= 3 && b[0] == '<' && b[1] == '@' && b[|b| - 1] == '>' then
      var mid := b[2..|b| - 1];
      var digits := if |mid| > 0 && mid[0] == '!' then mid[1..] else mid;
      if 17 <= |digits| <= 19 && forall n :: 0 <= n < |digits| ==> IsDigit(digits[n]) then
        Some(DigitsValue(digits))
      else None
    else None
  }

  /** The mention Discord writes for user `id`, with or without the nickname `!`. */
  function Mention(id: nat, bang: bool): string {
    "<@" + (if bang then "!" else "") + NatToString(id) + ">"
  }

  lemma MentionParts(id: nat, bang: bool, tail: string)
    requires tail == "" || tail == "\n"
    ensures StripFinalNewline(Mention(id, bang) + tail) == Mention(id, bang)
    ensures var b := Mention(id, bang);
      var mid := b[2..|b| - 1];
      |b| >= 3 && b[0] == '<' && b[1] == '@' && b[|b| - 1] == '>' &&
      (if |mid| > 0 && mid[0] == '!' then mid[1..] else mid) == NatToString(id)
  {
    var b := Mention(id, bang);
    if tail == "\n" {
      assert (b + tail)[..|b + tail| - 1] == b;
    }
    var d := NatToString(id);
    if bang {
      assert b[2..|b| - 1] == "!" + d;
    } else {
      assert b[2..|b| - 1] == d;
      assert IsDigit(d[0]);
    }
  }

  /** Every 17- to 19-digit user id is recognised in its mention, with or without `!` and a final newline. */
  lemma MentionRoundTrip(id: nat, bang: bool, tail: string)
    requires Pow10(16) <= id < Pow10(19)
    requires tail == "" || tail == "\n"
    ensures MentionId(Mention(id, bang) + tail) == Some(id)
  {
    MentionParts(id, bang, tail);
    var digits := NatToString(id);
    MentionDigits(id);
    NatToStringValue(id);
    MentionOf(Mention(id, bang) + tail, digits);
  }

  lemma MentionDigits(id: nat)
    requires Pow10(16) <= id < Pow10(19)
    ensures 17 <= |NatToString(id)| <= 19
  {
    if id < Pow10(17) {
      NatToStringLength(id, 17);
    } else if id < Pow10(18) {
      NatToStringLength(id, 18);
    } else {
      NatToStringLength(id, 19);
    }
  }

  lemma MentionOf(a: string, digits: string)
    requires var b := StripFinalNewline(a); |b| >= 3 && b[0] == '<' && b[1] == '@' && b[|b| - 1] == '>'
    requires var b := StripFinalNewline(a); var mid := b[2..|b| - 1];
      (if |mid| > 0 && mid[0] == '!' then mid[1..] else mid) == digits
    requires 17 <= |digits| <= 19 && forall n :: 0 <= n < |digits| ==> IsDigit(digits[n])
    ensures MentionId(a) == Some(DigitsValue(digits))
  {
  }

  lemma {:induction false} NatToStringShort(n: nat, k: nat)
    requires k >= 1 && n < Pow10(k)
    ensures |NatToString(n)| <= k
  {
    if n >= 10 {
      assert k >= 2;
      NatToStringShort(n / 10, k - 1);
    }
  }

  /** Ids of fewer than 17 digits are not mentions, so the argument is looked up as a name instead. */
  lemma MentionTooShort(id: nat, bang: bool)
    requires id < Pow10(16)
    ensures MentionId(Mention(id, bang)) == None
  {
    MentionParts(id, bang, "");
    NatToStringShort(id, 16);
  }

  /**
   * `try_get_member(argument)`: a mention resolves by id only, with no
   * fallback to the name lookup; anything else resolves by name.
   */
  function TryGetMember(argument: string, guild: Guild): (r: Option<nat>)
    ensures MentionId(argument).Some? ==> (r.Some? <==> MentionId(argument).value in guild.members)
    ensures MentionId(argument).Some? && r.Some? ==> r.value == MentionId(argument).value
    ensures MentionId(argument).None? ==> (r.Some? <==> argument in guild.named)
    ensures MentionId(argument).None? && r.Some? ==> r.value == guild.named[argument]
  {
    match MentionId(argument)
    case Some(id) => if id in guild.members then Some(id) else None
    case None => if argument in guild.named then Some(guild.named[argument]) else None
  }

  /** `get_member(argument)`: BotError exactly when `try_get_member` finds nobody. */
  function GetMember(argument: string, guild: Guild): (r: Result<nat, string>)
    ensures r.Err? <==> TryGetMember(argument, guild).None?
    ensures r.Ok? ==> Some(r.value) == TryGetMember(argument, guild)
    ensures r.Err? ==> r.error == "failed to resolve server member " + argument + "!"
  {
    match TryGetMember(argument, guild)
    case Some(m) => Ok(m)
    case None => Err("failed to resolve server member " + argument + "!")
  }

  // ----- the bot -----

  /** The optional `debug_id` setting as `int()` reads it; `Err` carries the rejected text. */
  function ParseDebugId(setting: Option<string>): (r: Result<Option<int>, string>)
    ensures setting.None? ==> r == Ok(None)
    ensures setting.Some? ==> (r.Ok? <==> ParseInt(setting.value).Some?)
    ensures setting.Some? && r.Ok? ==> r.value == ParseInt(setting.value)
  {
    match setting
    case None => Ok(None)
    case Some(s) =>
      match ParseInt(s)
      case Some(n) => Ok(Some(n))
      case None => Err(s)
  }

  /** Any integer written out, even with surrounding whitespace, configures that debug channel. */
  lemma DebugIdRoundTrip(n: int)
    ensures ParseDebugId(Some(IntToString(n))) == Ok(Some(n))
    ensures ParseDebugId(Some(" " + IntToString(n) + "\n")) == Ok(Some(n))
  {
    ParseIntRoundTrip(n);
    PaddedIntParses(n);
  }

  /** `int()` ignores the whitespace around a written-out integer. */
  lemma PaddedIntParses(n: int)
    ensures ParseInt(" " + IntToString(n) + "\n") == Some(n)
  {
    var s := IntToString(n);
    IntToStringEdges(n);
    StripPadded(s);
    StripKeeps(s);
    ParseIntSameStrip(" " + s + "\n", s);
    ParseIntRoundTrip(n);
  }

  lemma StripPadded(s: string)
    requires s == [] || (!IsSpace(s[0]) && !IsSpace(s[|s| - 1]))
    ensures Strip(" " + s + "\n") == s
  {
    var t := " " + s + "\n";
    if s == [] {
      assert SkipSpace(t, 0) == 2;
    } else {
      assert SkipSpace(t, 1) == 1;
      assert BackSpace(t, |t| - 1) == |t| - 1;
      assert t[1..|t| - 1] == s;
    }
  }

  class Bot {
    const prefix: string
    const plugins: seq<string>
    var token: Option<string>
    var debugId: Option<int>

    constructor (prefix: string, plugins: seq<string>)
      ensures this.prefix == prefix && this.plugins == plugins
      ensures token == None && debugId == None
    {
      this.prefix := prefix;
      this.plugins := plugins;
      token := None;
      debugId := None;
    }

    /**
     * `configure`: the token is stored first, then `debug_id` is parsed; a
     * setting `int()` rejects raises after the token is already stored and
     * leaves the old debug id.
     */
    method Configure(token: string, debugSetting: Option<string>) returns (r: Result<(), string>)
      modifies this
      ensures this.token == Some(token)
      ensures r.Ok? <==> ParseDebugId(debugSetting).Ok?
      ensures r.Ok? ==> debugId == ParseDebugId(debugSetting).value
      ensures r.Err? ==> debugId == old(debugId)
    {
      this.token := Some(token);
      match ParseDebugId(debugSetting)
      case Ok(id) =>
        debugId := id;
        r := Ok(());
      case Err(e) =>
        r := Err(e);
    }

    /** `on_message`: routed with this bot's prefix and plugins. */
    function OnMessage(author: int, self: int, content: string): (r: Route)
      reads this
      ensures r.Deliver? <==> author != self && prefix <= content && Split(content[|prefix|..]).0 in plugins
      ensures r.Deliver? ==> r.plugin in plugins
    {
      RouteMessage(author, self, content, prefix, plugins)
    }
  }
}
