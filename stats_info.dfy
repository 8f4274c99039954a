// The /stats-info command: once a day per user it exports every known
// statistic, grouped by type into an object whose keys keep the order in
// which the types were first met and whose lists keep the query's order.
module StatsInfo {
  import opened Wrappers
  import opened Cooldowns

  datatype StatRow = StatRow(statType: string, statKey: string)

  /** The exported object: its keys in insertion order, and the list under each. */
  datatype Grouping = Grouping(order: seq<string>, groups: map<string, seq<string>>)

  /** One step of the grouping loop: open the row's list if it is new, then append its key. */
  function Push(g: Grouping, row: StatRow): Grouping
  {
    var t := row.statType;
    if t in g.groups then Grouping(g.order, g.groups[t := g.groups[t] + [row.statKey]])
    else Grouping(g.order + [t], g.groups[t := [row.statKey]])
  }

  /** The grouping of `rows`, row by row from the first. */
  function Grouped(rows: seq<StatRow>): Grouping
  {
    if rows == [] then Grouping([], map[]) else Push(Grouped(rows[..|rows| - 1]), rows[|rows| - 1])
  }

  /** The keys of the rows of type `t`, in query order. */
  function KeysOf(rows: seq<StatRow>, t: string): seq<string>
  {
    if rows == [] then []
    else KeysOf(rows[..|rows| - 1], t) + (if rows[|rows| - 1].statType == t then [rows[|rows| - 1].statKey] else [])
  }

  /** The position of the first row of type `t`. */
  function FirstIndex(rows: seq<StatRow>, t: string): (r: nat)
    requires exists i | 0 <= i < |rows| :: rows[i].statType == t
    ensures r < |rows| && rows[r].statType == t
    ensures forall i | 0 <= i < r :: rows[i].statType != t
  {
    if rows[0].statType == t then 0 else 1 + FirstIndex(rows[1..], t)
  }

  predicate HasType(rows: seq<StatRow>, t: string)
  {
    exists i | 0 <= i < |rows| :: rows[i].statType == t
  }

  /** No key appears twice, and the dictionary's keys are those listed in the order. */
  ghost predicate WellFormed(g: Grouping)
  {
    && (forall i, j | 0 <= i < j < |g.order| :: g.order[i] != g.order[j])
    && (forall t :: t in g.groups <==> t in g.order)
  }

  /** The keys are the types met, and each list holds that type's keys in query order. */
  ghost predicate ListsMatch(g: Grouping, rows: seq<StatRow>)
  {
    && (forall t :: t in g.groups <==> HasType(rows, t))
    && (forall t | t in g.groups :: g.groups[t] == KeysOf(rows, t))
  }

  /** The keys come in the order of their first row. */
  ghost predicate FirstSeenOrder(g: Grouping, rows: seq<StatRow>)
  {
    forall i, j | 0 <= i < j < |g.order| :: HasType(rows, g.order[i]) && HasType(rows, g.order[j]) &&
      FirstIndex(rows, g.order[i]) < FirstIndex(rows, g.order[j])
  }

  /** The keys are exactly the types met, each once, in the order of their first row, and each list holds that type's keys in query order. */
  ghost predicate Describes(g: Grouping, rows: seq<StatRow>)
  {
    WellFormed(g) && ListsMatch(g, rows) && FirstSeenOrder(g, rows)
  }

  lemma FirstIndexExtended(rows: seq<StatRow>, row: StatRow, t: string)
    requires HasType(rows, t)
    ensures HasType(rows + [row], t) && FirstIndex(rows + [row], t) == FirstIndex(rows, t)
  {
    assert forall i | 0 <= i < |rows| :: (rows + [row])[i] == rows[i];
  }

  lemma FirstIndexNew(rows: seq<StatRow>, row: StatRow)
    requires !HasType(rows, row.statType)
    ensures HasType(rows + [row], row.statType) && FirstIndex(rows + [row], row.statType) == |rows|
  {
    assert (rows + [row])[|rows|] == row;
    assert forall i | 0 <= i < |rows| :: (rows + [row])[i] == rows[i];
  }

  lemma HasTypeExtended(rows: seq<StatRow>, row: StatRow, t: string)
    ensures HasType(rows + [row], t) <==> HasType(rows, t) || row.statType == t
  {
    if HasType(rows + [row], t) {
      var i :| 0 <= i < |rows| + 1 && (rows + [row])[i].statType == t;
      if i < |rows| {
        assert rows[i] == (rows + [row])[i];
      }
    }
    if HasType(rows, t) {
      var i :| 0 <= i < |rows| && rows[i].statType == t;
      assert (rows + [row])[i] == rows[i];
    }
    assert (rows + [row])[|rows|] == row;
  }

  lemma {:induction false} KeysOfAbsent(rows: seq<StatRow>, t: string)
    requires !HasType(rows, t)
    ensures KeysOf(rows, t) == []
  {
    if rows != [] {
      var prefix := rows[..|rows| - 1];
      assert forall i | 0 <= i < |prefix| :: prefix[i] == rows[i];
      KeysOfAbsent(prefix, t);
    }
  }

  lemma PushWellFormed(g: Grouping, row: StatRow)
    requires WellFormed(g)
    ensures WellFormed(Push(g, row))
  {
  }

  lemma KeysOfExtended(rows: seq<StatRow>, row: StatRow, t: string)
    ensures KeysOf(rows + [row], t) == KeysOf(rows, t) + (if row.statType == t then [row.statKey] else [])
  {
    assert (rows + [row])[..|rows|] == rows;
  }

  lemma PushListsMatch(g: Grouping, rows: seq<StatRow>, row: StatRow)
    requires ListsMatch(g, rows)
    ensures ListsMatch(Push(g, row), rows + [row])
  {
    forall t
      ensures HasType(rows + [row], t) <==> HasType(rows, t) || row.statType == t
      ensures KeysOf(rows + [row], t) == KeysOf(rows, t) + (if row.statType == t then [row.statKey] else [])
    {
      HasTypeExtended(rows, row, t);
      KeysOfExtended(rows, row, t);
    }
    if row.statType !in g.groups {
      KeysOfAbsent(rows, row.statType);
    }
  }

  lemma PushFirstSeenOrder(g: Grouping, rows: seq<StatRow>, row: StatRow)
    requires WellFormed(g) && ListsMatch(g, rows) && FirstSeenOrder(g, rows)
    ensures FirstSeenOrder(Push(g, row), rows + [row])
  {
    var rows' := rows + [row];
    var g' := Push(g, row);
    forall t | HasType(rows, t)
      ensures HasType(rows', t) && FirstIndex(rows', t) == FirstIndex(rows, t)
    {
      FirstIndexExtended(rows, row, t);
    }
    if row.statType !in g.groups {
      FirstIndexNew(rows, row);
      forall i, j | 0 <= i < j < |g'.order|
        ensures HasType(rows', g'.order[i]) && HasType(rows', g'.order[j]) &&
                FirstIndex(rows', g'.order[i]) < FirstIndex(rows', g'.order[j])
      {
        if j == |g.order| {
          assert g'.order[i] == g.order[i] && g.order[i] in g.groups;
        }
      }
    }
  }

  /** One step keeps the description: what `Push` does to the grouping of a prefix is what one more row does to it. */
  lemma PushDescribes(g: Grouping, rows: seq<StatRow>, row: StatRow)
    requires Describes(g, rows)
    ensures Describes(Push(g, row), rows + [row])
  {
    PushWellFormed(g, row);
    PushListsMatch(g, rows, row);
    PushFirstSeenOrder(g, rows, row);
  }

  /** The loop's result describes the rows it read. */
  lemma {:induction false} GroupedDescribes(rows: seq<StatRow>)
    ensures Describes(Grouped(rows), rows)
  {
    if rows != [] {
      var prefix := rows[..|rows| - 1];
      GroupedDescribes(prefix);
      PushDescribes(Grouped(prefix), prefix, rows[|rows| - 1]);
      assert prefix + [rows[|rows| - 1]] == rows;
    }
  }

  /** The grouping loop, into a dictionary that keeps its insertion order. */
  method GroupRows(rows: seq<StatRow>) returns (g: Grouping)
    ensures g == Grouped(rows)
    ensures Describes(g, rows)
  {
    var order: seq<string> := [];
    var groups: map<string, seq<string>> := map[];
    for i := 0 to |rows|
      invariant Grouping(order, groups) == Grouped(rows[..i])
    {
      var row := rows[i];
      assert rows[..i + 1][..i] == rows[..i] && rows[..i + 1][i] == row;
      if row.statType in groups {
        groups := groups[row.statType := groups[row.statType] + [row.statKey]];
      } else {
        order := order + [row.statType];
        groups := groups[row.statType := [row.statKey]];
      }
    }
    assert rows[..|rows|] == rows;
    g := Grouping(order, groups);
    GroupedDescribes(rows);
  }

  datatype InfoReply = InfoWait(remainingMs: int) | Exported(grouping: Grouping) | Failed

  /** /stats-info: `rows` is the query's result (`None` when it failed) and `sent` whether the export reached the user; only a sent export starts the day-long cooldown. */
  function Info(uses: map<string, int>, userId: string, now: int, rows: Option<seq<StatRow>>, sent: bool): (map<string, int>, InfoReply)
  {
    match DecideIfPresent(uses, userId, now, OneDayMs)
    case Refused(ms) => (uses, InfoWait(ms))
    case Accepted =>
      if rows.None? || !sent then (uses, Failed)
      else (uses[userId := now], Exported(Grouped(rows.value)))
  }

  /** A first use is never refused; a failure consumes nothing; a sent export records the time. */
  lemma InfoCooldownRule(uses: map<string, int>, userId: string, now: int, rows: Option<seq<StatRow>>, sent: bool)
    ensures var (uses', r) := Info(uses, userId, now, rows, sent);
            && (userId !in uses ==> !r.InfoWait?)
            && (r.Exported? <==> (userId !in uses || now - uses[userId] >= OneDayMs) && rows.Some? && sent)
            && (r.Exported? ==> uses' == uses[userId := now] && Describes(r.grouping, rows.value))
            && (!r.Exported? ==> uses' == uses)
  {
    if rows.Some? {
      GroupedDescribes(rows.value);
    }
  }

  method InfoCommand(cd: CooldownMap, userId: string, now: int, rows: Option<seq<StatRow>>, sent: bool) returns (r: InfoReply)
    modifies cd
    ensures (cd.uses, r) == Info(old(cd.uses), userId, now, rows, sent)
  {
    if userId in cd.uses && now - cd.uses[userId] < OneDayMs {
      return InfoWait(OneDayMs - (now - cd.uses[userId]));
    }
    if rows.None? {
      return Failed;
    }
    var grouped := GroupRows(rows.value);
    if !sent {
      return Failed;
    }
    cd.Record(userId, now);
    r := Exported(grouped);
  }
}
