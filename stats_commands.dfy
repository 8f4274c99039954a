// The leaderboard commands of the Discord bot: /stats (top five of one
// statistic), /stats-category (top ten of a category) and /stats-champions
// (most first places), with their input normalisation, titles, rank labels
// and cooldowns.
module StatsCommands {
  import opened Wrappers
  import opened Text
  import opened Cooldowns

  const Namespace := "minecraft:"

  /** `s.replace(/^minecraft:/, "")`. */
  function StripNamespace(s: string): (r: string)
    ensures r == s || s == Namespace + r
    ensures StartsWith(s, Namespace) ==> s == Namespace + r
  {
    if StartsWith(s, Namespace) then s[|Namespace|..] else s
  }

  /** /stats' `stat_type`: trimmed, lower-cased, with one leading namespace dropped and the namespace put back in front. */
  function StatType(input: string): (r: string)
    ensures StartsWith(r, Namespace)
  {
    Namespace + StripNamespace(ToLower(Trim(input)))
  }

  /** /stats' `stat_key`: trimmed, lower-cased, white-space runs turned into "_", and namespaced unless it already names one. */
  function StatKey(input: string): (r: string)
  {
    var raw := ReplaceSpaceRuns(ToLower(Trim(input)), "_");
    if ':' in raw then raw else Namespace + raw
  }

  /** /stats-category's type: like /stats' type, but white-space runs become "_" first. */
  function CategoryType(input: string): (r: string)
    ensures StartsWith(r, Namespace)
  {
    Namespace + StripNamespace(ReplaceSpaceRuns(ToLower(Trim(input)), "_"))
  }

  lemma LoweredSuffix(s: string, k: nat)
    requires Lowered(s) && k <= |s|
    ensures Lowered(s[k..])
  {
    assert forall i | 0 <= i < |s| - k :: s[k..][i] == s[k + i];
  }

  lemma NamespacedLowered(r: string)
    requires Lowered(r)
    ensures Lowered(Namespace + r)
  {
    var s := Namespace + r;
    forall i | 0 <= i < |s| ensures LowerChar(s[i]) == s[i] {
      if i >= |Namespace| {
        assert s[i] == r[i - |Namespace|];
      }
    }
  }

  /** The stored `stat_type` of a normalised type is the type itself. */
  lemma NamespacedKeeps(r: string)
    requires Lowered(r) && (r == [] || !IsSpace(r[|r| - 1]))
    ensures ToLower(Trim(Namespace + r)) == Namespace + r
  {
    var s := Namespace + r;
    assert s[0] == 'm';
    assert s[|s| - 1] == ':' || s[|s| - 1] == r[|r| - 1];
    TrimKeeps(s);
    NamespacedLowered(r);
    LoweredUnchanged(s);
  }

  lemma StrippedLowered(y: string)
    requires Lowered(y) && (y == [] || !IsSpace(y[|y| - 1]))
    ensures var r := StripNamespace(y);
            Lowered(r) && (r == [] || !IsSpace(r[|r| - 1]))
  {
    var r := StripNamespace(y);
    assert r == y[|y| - |r|..];
    LoweredSuffix(y, |y| - |r|);
    assert r == [] || r[|r| - 1] == y[|y| - 1];
  }

  lemma StripNamespaced(r: string)
    ensures StripNamespace(Namespace + r) == r
  {
    assert (Namespace + r)[..|Namespace|] == Namespace;
    assert (Namespace + r)[|Namespace|..] == r;
  }

  /** A lower-cased string without trailing white space normalises to its namespaced form. */
  lemma StatTypeOfLowered(y: string)
    requires Lowered(y) && (y == [] || !IsSpace(y[|y| - 1]))
    ensures StatType(Namespace + StripNamespace(y)) == Namespace + StripNamespace(y)
  {
    var r := StripNamespace(y);
    StrippedLowered(y);
    NamespacedKeeps(r);
    StripNamespaced(r);
  }

  lemma TrimmedLowered(input: string)
    ensures var y := ToLower(Trim(input));
            Lowered(y) && (y == [] || !IsSpace(y[|y| - 1]))
  {
    var t := Trim(input);
    LoweredAfterToLower(t);
    LowerKeepsUnspacedEnd(t);
  }

  /** Lower-casing never turns the last character into white space. */
  lemma LowerKeepsUnspacedEnd(t: string)
    requires t == [] || !IsSpace(t[|t| - 1])
    ensures var y := ToLower(t);
            y == [] || !IsSpace(y[|y| - 1])
  {
    if t != [] {
      assert ToLower(t)[|t| - 1] == LowerChar(t[|t| - 1]);
    }
  }

  /** Normalising a type twice gives what normalising it once gave. */
  lemma StatTypeIdempotent(input: string)
    ensures StatType(StatType(input)) == StatType(input)
  {
    TrimmedLowered(input);
    StatTypeOfLowered(ToLower(Trim(input)));
  }

  lemma NamespacedShape(raw: string)
    requires NoSpace(raw) && Lowered(raw)
    ensures NoSpace(Namespace + raw) && Lowered(Namespace + raw) && ':' in Namespace + raw
  {
    var s := Namespace + raw;
    NamespacedLowered(raw);
    assert s[9] == ':';
    forall i | 0 <= i < |s| ensures !IsSpace(s[i]) {
      if i >= |Namespace| {
        assert s[i] == raw[i - |Namespace|];
      }
    }
  }

  lemma RawKeyShape(l: string)
    requires Lowered(l)
    ensures var raw := ReplaceSpaceRuns(l, "_");
            NoSpace(raw) && Lowered(raw)
  {
    assert Lowered("_") && NoSpace("_");
    ReplaceSpaceRunsResult(l, "_", ':');
  }

  lemma KeyFromLowered(l: string)
    requires Lowered(l)
    ensures var raw := ReplaceSpaceRuns(l, "_");
            var k := if ':' in raw then raw else Namespace + raw;
            NoSpace(k) && ':' in k && Lowered(k)
  {
    RawKeyShape(l);
    var raw := ReplaceSpaceRuns(l, "_");
    if ':' !in raw {
      NamespacedShape(raw);
    }
  }

  /** A stored key never holds white space and always names a namespace. */
  lemma StatKeyShape(input: string)
    ensures var k := StatKey(input);
            NoSpace(k) && ':' in k && Lowered(k)
  {
    LoweredAfterToLower(Trim(input));
    KeyFromLowered(ToLower(Trim(input)));
  }

  /** Normalising a key twice gives what normalising it once gave. */
  lemma StatKeyIdempotent(input: string)
    ensures StatKey(StatKey(input)) == StatKey(input)
  {
    var k := StatKey(input);
    StatKeyShape(input);
    TrimNoSpace(k);
    LoweredUnchanged(k);
    ReplaceSpaceRunsNoSpace(k, "_");
  }

  /** A key already in normal form, such as "create:mechanical_pump", is kept as it is, namespace included. */
  lemma NamespacedKeyKept(k: string)
    requires NoSpace(k) && Lowered(k) && ':' in k
    ensures StatKey(k) == k
  {
    TrimNoSpace(k);
    LoweredUnchanged(k);
    ReplaceSpaceRunsNoSpace(k, "_");
  }

  /** A bare key, such as "diamond_ore", is put in the game's namespace. */
  lemma BareKeyNamespaced(k: string)
    requires NoSpace(k) && Lowered(k) && ':' !in k
    ensures StatKey(k) == Namespace + k
  {
    TrimNoSpace(k);
    LoweredUnchanged(k);
    ReplaceSpaceRunsNoSpace(k, "_");
  }

  /** A bare type, such as "Mined", is lower-cased and put in the game's namespace. */
  lemma BareTypeNamespaced(t: string)
    requires NoSpace(t) && !StartsWith(ToLower(t), Namespace)
    ensures StatType(t) == Namespace + ToLower(t)
  {
    TrimNoSpace(t);
  }

  /** `s.charAt(0).toUpperCase() + s.slice(1)`. */
  function Capitalized(s: string): (r: string)
    ensures |r| == |s|
    ensures s != [] ==> r[0] == UpperChar(s[0]) && r[1..] == s[1..]
  {
    if s == [] then [] else [UpperChar(s[0])] + s[1..]
  }

  /** The readable form of a namespaced name: its last ":" segment, "_" read as a space, the first letter upper-cased. */
  function Pretty(name: string): (r: string)
    ensures |r| == |LastSegment(name, ':')|
    ensures ':' !in r && '_' !in r
  {
    var spaced := ReplaceChar(LastSegment(name, ':'), '_', ' ');
    var r := Capitalized(spaced);
    assert forall i | 0 <= i < |r| :: r[i] != ':' && r[i] != '_' by {
      forall i | 0 <= i < |r| ensures r[i] != ':' && r[i] != '_' {
        if i > 0 {
          assert r[i] == spaced[i];
        }
      }
    }
    r
  }

  /** /stats' title: the pretty type and the pretty key. */
  function StatsTitle(statType: string, statKey: string): string
  {
    Pretty(statType) + " " + Pretty(statKey)
  }

  /** The title shows the part after the namespace, "_" read as a space and the first letter upper-cased. */
  lemma PrettyOfNamespaced(ns: string, name: string)
    requires ':' !in name
    ensures Pretty(ns + [':'] + name) == Capitalized(ReplaceChar(name, '_', ' '))
  {
    LastSegmentAfter(ns, name, ':');
  }

  /** /stats' medals for its (at most five) rows. */
  const StatsMedals := ["🥇", "🥈", "🥉", "🏅", "🏅"]

  /** `medals[i] || ""`. */
  function StatsMedal(i: nat): (r: string)
    ensures r != "" <==> i < 5
  {
    if i < |StatsMedals| then StatsMedals[i] else ""
  }

  /** A leaderboard row: the player's name and the value shown for it. */
  datatype Row = Row(name: string, value: string)

  function StatsLine(i: nat, row: Row): string
  {
    StatsMedal(i) + " **" + row.name + "** — " + row.value
  }

  /** /stats-category's labels: medals for the first three, "#n" after. */
  function CategoryLabel(i: nat): (r: string)
    ensures r != ""
    ensures r[0] == '#' <==> i >= 3
    ensures i >= 3 ==> r[1..] == IntToString(i + 1)
  {
    if i < 3 then ["🥇", "🥈", "🥉"][i] else "#" + IntToString(i + 1)
  }

  function CategoryLine(i: nat, row: Row): string
  {
    CategoryLabel(i) + " **" + row.name + "** — " + row.value
  }

  /** /stats-champions' line: "#n **name** — count 🥇". */
  function ChampionLine(i: nat, row: Row): string
  {
    "#" + IntToString(i + 1) + " **" + row.name + "** — " + row.value + " 🥇"
  }

  /** A labelled leaderboard: `rows.map(line)`, in query order. */
  function Lines(rows: seq<Row>, line: (nat, Row) -> string): (r: seq<string>)
    ensures |r| == |rows|
    ensures forall i | 0 <= i < |rows| :: r[i] == line(i, rows[i])
  {
    seq(|rows|, i requires 0 <= i < |rows| => line(i, rows[i]))
  }

  /** Every /stats line starts with its row's medal, the first five in order, and names its player. */
  lemma StatsLinesRule(rows: seq<Row>)
    ensures var ls := Lines(rows, StatsLine);
            forall i | 0 <= i < |rows| :: StartsWith(ls[i], StatsMedal(i)) && (i < 5 <==> StatsMedal(i) != "")
  {
    var ls := Lines(rows, StatsLine);
    forall i | 0 <= i < |rows| ensures StartsWith(ls[i], StatsMedal(i)) {
      assert ls[i] == StatsMedal(i) + (" **" + rows[i].name + "** — " + rows[i].value);
    }
  }

  /** What a command hands to the query after its cooldown: the normalised stat or category. */
  datatype Request = Waiting(remainingMs: int) | Lookup(statType: string, statKey: string)

  /** /stats' cooldown key: one per channel and user. */
  function ChannelKey(channelId: string, userId: string): string
  {
    channelId + ":" + userId
  }

  /** /stats: the spam channel is exempt and records nothing; elsewhere a one-hour cooldown per channel and user. */
  function Stats(uses: map<string, int>, channelId: string, userId: string, spamChannelId: string, now: int,
                 typeInput: string, keyInput: string): (map<string, int>, Request)
  {
    var lookup := Lookup(StatType(typeInput), StatKey(keyInput));
    if channelId == spamChannelId then (uses, lookup)
    else
      match DecideOrZero(uses, ChannelKey(channelId, userId), now, OneHourMs)
      case Refused(ms) => (uses, Waiting(ms))
      case Accepted => (uses[ChannelKey(channelId, userId) := now], lookup)
  }

  /** The spam channel never waits and never changes the store; elsewhere a use is recorded, before the query, exactly when it is accepted. */
  lemma StatsCooldownRule(uses: map<string, int>, channelId: string, userId: string, spamChannelId: string, now: int,
                          typeInput: string, keyInput: string)
    ensures var (uses', r) := Stats(uses, channelId, userId, spamChannelId, now, typeInput, keyInput);
            && (channelId == spamChannelId ==> uses' == uses && r.Lookup?)
            && (r.Waiting? ==> uses' == uses && r.remainingMs > 0)
            && (channelId != spamChannelId && r.Lookup? ==> uses' == uses[ChannelKey(channelId, userId) := now])
            && (r.Lookup? ==> r.statType == StatType(typeInput) && r.statKey == StatKey(keyInput))
            && (r.Waiting? <==> channelId != spamChannelId && DecideOrZero(uses, ChannelKey(channelId, userId), now, OneHourMs).Refused?)
  {
  }

  /** /stats-category: a ten-minute cooldown per user, recorded before the query. */
  function Category(uses: map<string, int>, userId: string, now: int, typeInput: string): (map<string, int>, Request)
  {
    match DecideOrZero(uses, userId, now, TenMinutesMs)
    case Refused(ms) => (uses, Waiting(ms))
    case Accepted => (uses[userId := now], Lookup(CategoryType(typeInput), ""))
  }

  /** /stats-category's rule: a use within ten minutes of the user's last is refused with a positive wait and no change; otherwise the time is recorded and the normalised category looked up. */
  lemma CategoryRule(uses: map<string, int>, userId: string, now: int, typeInput: string)
    ensures var (uses', r) := Category(uses, userId, now, typeInput);
            && (r.Waiting? <==> DecideOrZero(uses, userId, now, TenMinutesMs).Refused?)
            && (r.Waiting? ==> uses' == uses && r.remainingMs > 0)
            && (r.Lookup? ==> uses' == uses[userId := now] && r.statType == CategoryType(typeInput) && r.statKey == "")
            && (r.Waiting? || r.Lookup?)
  {
  }

  /** The command handlers. */
  method StatsCommand(cd: CooldownMap, channelId: string, userId: string, spamChannelId: string, now: int,
                      typeInput: string, keyInput: string) returns (r: Request)
    modifies cd
    ensures (cd.uses, r) == Stats(old(cd.uses), channelId, userId, spamChannelId, now, typeInput, keyInput)
  {
    if channelId != spamChannelId {
      var d := cd.Use(ChannelKey(channelId, userId), now, OneHourMs);
      if d.Refused? {
        return Waiting(d.remainingMs);
      }
    }
    r := Lookup(StatType(typeInput), StatKey(keyInput));
  }

  method CategoryCommand(cd: CooldownMap, userId: string, now: int, typeInput: string) returns (r: Request)
    modifies cd
    ensures (cd.uses, r) == Category(old(cd.uses), userId, now, typeInput)
  {
    var d := cd.Use(userId, now, TenMinutesMs);
    if d.Refused? {
      return Waiting(d.remainingMs);
    }
    r := Lookup(CategoryType(typeInput), "");
  }

  /** `Failed` is the `catch` path: it reads the undefined `err` and throws, so no failure reply is sent either. */
  datatype ChampionsReply = ChampionsWait(remainingMs: int) | NoData | Board(lines: seq<string>) | Failed

  /** /stats-champions: one hour shared by everyone; `rows` is the query's result, `None` when it failed. */
  function Champions(last: int, now: int, rows: Option<seq<Row>>): (int, ChampionsReply)
  {
    match Decide(last, now, OneHourMs)
    case Refused(ms) => (last, ChampionsWait(ms))
    case Accepted =>
      if rows.None? then (last, Failed)
      else if rows.value == [] then (last, NoData)
      else (now, Board(Lines(rows.value, ChampionLine)))
  }

  /** The shared cooldown starts only when a board is shown; a refusal, an empty result or a failed query leave it alone. */
  lemma ChampionsRule(last: int, now: int, rows: Option<seq<Row>>)
    ensures var (last', r) := Champions(last, now, rows);
            && (r.Board? <==> now - last >= OneHourMs && rows.Some? && rows.value != [])
            && (r.Board? ==> last' == now && |r.lines| == |rows.value|)
            && (!r.Board? ==> last' == last)
            && (r.ChampionsWait? ==> r.remainingMs == OneHourMs - (now - last))
  {
  }

  method ChampionsCommand(gc: GlobalCooldown, now: int, rows: Option<seq<Row>>) returns (r: ChampionsReply)
    modifies gc
    ensures (gc.last, r) == Champions(old(gc.last), now, rows)
  {
    if now - gc.last < OneHourMs {
      return ChampionsWait(OneHourMs - (now - gc.last));
    }
    if rows.None? {
      return Failed;
    }
    if rows.value == [] {
      return NoData;
    }
    var leaderboard := Lines(rows.value, ChampionLine);
    gc.Record(now);
    r := Board(leaderboard);
  }
}
