// How the public and the admin chat pages read a relayed chat line: which
// side of the bridge it came from (web, Discord or Minecraft), who sent it
// and what to show, with Xaero map waypoints turned into map links; and how
// they find a player's skin UUID. Both pages carry the same parser.
module ChatParse {
  import opened Wrappers
  import opened Text

  // ---- The lazy-group regular expressions ----

  /** The characters JavaScript's `.` does not match. */
  predicate IsLineTerminator(c: char)
  {
    c == '\n' || c == '\r' || c == '\U{2028}' || c == '\U{2029}'
  }

  predicate NoLineTerminator(s: string)
  {
    forall i :: 0 <= i < |s| ==> !IsLineTerminator(s[i])
  }

  /** What follows the closing text of the lazy group in each pattern. */
  datatype Tail =
    | SpacedRest         // `\s*(.*)$`
    | OptTickEnd         // `` `?$ ``
    | OptTickSpacedRest  // `` `?\s+(.*)$ ``

  function DropTick(r: string): string
  {
    if r != [] && r[0] == '`' then r[1..] else r
  }

  /** `\s*(.*)$` matches `r`: no line terminator once the leading white space is skipped. */
  predicate SpacedRestFits(r: string)
  {
    if r != [] && IsSpace(r[0]) then SpacedRestFits(r[1..]) else NoLineTerminator(r)
  }

  predicate TailMatches(kind: Tail, r: string)
  {
    match kind
    case SpacedRest => SpacedRestFits(r)
    case OptTickEnd => r == "" || r == "`"
    case OptTickSpacedRest =>
      var r' := DropTick(r);
      r' != [] && IsSpace(r'[0]) && SpacedRestFits(r')
  }

  /** The recursive test is the one on the trimmed rest. */
  lemma {:induction false} SpacedRestFitsTrimmed(r: string)
    ensures SpacedRestFits(r) <==> NoLineTerminator(TrimStart(r))
  {
    if r != [] && IsSpace(r[0]) {
      SpacedRestFitsTrimmed(r[1..]);
    }
  }

  /** The second capture group, where the pattern has one: the greedy white space is skipped. */
  function TailGroup(kind: Tail, r: string): string
  {
    match kind
    case SpacedRest => TrimStart(r)
    case OptTickEnd => ""
    case OptTickSpacedRest => TrimStart(DropTick(r))
  }

  /** The pattern can finish when the lazy group stops just before position `e`. */
  predicate ClosesAt(s: string, e: nat, close: string, kind: Tail)
    requires e <= |s|
  {
    StartsWith(s[e..], close) && TailMatches(kind, s[e + |close|..])
  }

  /** No line terminator in `s[i..j]`, where `(.+?)` could not step. */
  predicate Unbroken(s: string, i: nat, j: nat)
    requires i <= j <= |s|
  {
    forall k :: i <= k < j ==> !IsLineTerminator(s[k])
  }

  /** The end of `(.+?)` opened at `start`, trying ends from `e` on: the first end that `fits` (where the rest of the pattern can finish), unless a line terminator stops the group first. */
  function LazyEnd(s: string, start: nat, e: nat, fits: nat -> bool): (r: Option<nat>)
    requires start < e <= |s| && Unbroken(s, start, e - 1)
    decreases |s| - e
    ensures r.Some? ==> e <= r.value <= |s| && Unbroken(s, start, r.value) && fits(r.value)
    ensures r.Some? ==> forall e2 :: e <= e2 < r.value ==> !fits(e2)
    ensures r.None? ==> forall e2 :: e <= e2 <= |s| && Unbroken(s, start, e2) ==> !fits(e2)
  {
    if IsLineTerminator(s[e - 1]) then None
    else
      assert Unbroken(s, start, e) by {
        forall k | start <= k < e
          ensures !IsLineTerminator(s[k])
        {
          if k < e - 1 {
            assert Unbroken(s, start, e - 1);
          }
        }
      }
      if fits(e) then Some(e)
      else if e == |s| then None
      else LazyEnd(s, start, e + 1, fits)
  }

  /** The ends at which the pattern with closing text `close` and tail `kind` can finish. */
  function Fits(s: string, close: string, kind: Tail): nat -> bool
  {
    (e: nat) => e <= |s| && ClosesAt(s, e, close, kind)
  }

  datatype Groups = Groups(name: string, rest: string)

  /** Where `(.+?)` opened at `start` ends in a match, if the pattern matches there. */
  function FirstFit(s: string, start: nat, close: string, kind: Tail): (r: Option<nat>)
    ensures r.Some? ==> start < r.value <= |s| && r.value + |close| <= |s|
  {
    if start >= |s| then None else LazyEnd(s, start, start + 1, Fits(s, close, kind))
  }

  /** The match of `(.+?)` at `start` followed by `close` and the tail, as the two capture groups. */
  function MatchGroups(s: string, start: nat, close: string, kind: Tail): Option<Groups>
  {
    var f := FirstFit(s, start, close, kind);
    if f.None? then None else Some(GroupsAt(s, start, f.value, close, kind))
  }

  /** The two capture groups when the lazy group stops just before `e`. */
  function GroupsAt(s: string, start: nat, e: nat, close: string, kind: Tail): Groups
    requires start <= e && e + |close| <= |s|
  {
    Groups(s[start..e], TailGroup(kind, s[e + |close|..]))
  }

  /** The lazy group ends at the first end that fits. */
  lemma LazyEndAt(s: string, start: nat, e: nat, fits: nat -> bool)
    requires start < e <= |s| && Unbroken(s, start, e) && fits(e)
    requires forall e2 :: start < e2 < e ==> !fits(e2)
    ensures LazyEnd(s, start, start + 1, fits) == Some(e)
  {
  }

  /** The two groups of the match that ends the lazy group at `e`: the first place after `start` where the rest of the pattern fits, with no line break before it. */
  lemma MatchAt(s: string, start: nat, e: nat, close: string, kind: Tail)
    requires start < e <= |s| && Unbroken(s, start, e) && ClosesAt(s, e, close, kind)
    requires forall e2 :: start < e2 < e ==> !ClosesAt(s, e2, close, kind)
    ensures MatchGroups(s, start, close, kind) == Some(Groups(s[start..e], TailGroup(kind, s[e + |close|..])))
  {
    FitsFirstAt(s, start, e, close, kind);
    LazyEndAt(s, start, e, Fits(s, close, kind));
    assert FirstFit(s, start, close, kind) == Some(e);
    GroupsAtEnd(s, start, e, close, kind);
  }

  lemma GroupsAtEnd(s: string, start: nat, e: nat, close: string, kind: Tail)
    requires FirstFit(s, start, close, kind) == Some(e)
    ensures MatchGroups(s, start, close, kind) == Some(Groups(s[start..e], TailGroup(kind, s[e + |close|..])))
  {
    assert MatchGroups(s, start, close, kind) == Some(GroupsAt(s, start, e, close, kind));
  }

  lemma FitsFirstAt(s: string, start: nat, e: nat, close: string, kind: Tail)
    requires start < e <= |s| && ClosesAt(s, e, close, kind)
    requires forall e2 :: start < e2 < e ==> !ClosesAt(s, e2, close, kind)
    ensures Fits(s, close, kind)(e)
    ensures forall e2 :: start < e2 < e ==> !Fits(s, close, kind)(e2)
  {
  }

  /** Where the pattern can finish nowhere, there is no match. */
  lemma NoMatch(s: string, start: nat, close: string, kind: Tail)
    requires forall e2 :: start < e2 <= |s| ==> !ClosesAt(s, e2, close, kind)
    ensures MatchGroups(s, start, close, kind) == None
  {
    if start < |s| {
      var fits := Fits(s, close, kind);
      var r := LazyEnd(s, start, start + 1, fits);
      assert FirstFit(s, start, close, kind) == r;
      if r.Some? {
        assert false;
      }
    }
  }

  /** `/^<(.+?)>\s*(.*)$/` */
  function WebMatch(msg: string): Option<Groups>
  {
    if msg != [] && msg[0] == '<' then MatchGroups(msg, 1, ">", SpacedRest) else None
  }

  /** `/^\[(.+?)\]:\s*(.*)$/` */
  function DiscordMatch(msg: string): Option<Groups>
  {
    if msg != [] && msg[0] == '[' then MatchGroups(msg, 1, "]:", SpacedRest) else None
  }

  /** Where the name starts after the optional backtick and the "<" of `` ^`?< ``. */
  function McStart(msg: string): Option<nat>
  {
    if |msg| >= 2 && msg[0] == '`' && msg[1] == '<' then Some(2)
    else if msg != [] && msg[0] == '<' then Some(1)
    else None
  }

  /** `` /^`?<(.+?)>`?$/ `` */
  function McOnlyMatch(msg: string): Option<Groups>
  {
    match McStart(msg)
    case None => None
    case Some(p) => MatchGroups(msg, p, ">", OptTickEnd)
  }

  /** `` /^`?<(.+?)>`?\s+(.*)$/ `` */
  function McFullMatch(msg: string): Option<Groups>
  {
    match McStart(msg)
    case None => None
    case Some(p) => MatchGroups(msg, p, ">", OptTickSpacedRest)
  }

  // ---- Xaero waypoints ----

  const WaypointPrefix := "xaero-waypoint:"

  datatype Waypoint = Waypoint(name: string, x: string, y: string, z: string, dimension: string)

  /** `n` fields each ended by ":" (none holding one), and the text after the last. */
  function Fields(s: string, n: nat): (r: Option<(seq<string>, string)>)
    ensures r.Some? ==> |r.value.0| == n && |r.value.1| + n <= |s|
    ensures r.Some? ==> forall i :: 0 <= i < n ==> ':' !in r.value.0[i]
  {
    if n == 0 then Some(([], s))
    else
      var k := IndexOf(s, ':');
      if k < 0 then None
      else match Fields(s[k + 1..], n - 1)
        case None => None
        case Some((fs, rest)) => Some(([s[..k]] + fs, rest))
  }

  /** `(-?\d+|~)` followed by ":" matches the whole field. */
  predicate IsCoordinate(f: string)
  {
    f == "~" || (var d := if f != [] && f[0] == '-' then f[1..] else f; d != [] && forall i :: 0 <= i < |d| ==> IsDigit(d[i]))
  }

  /** The length of the longest prefix of `[\w-]` characters. */
  function WordRun(s: string): (n: nat)
    ensures n <= |s|
    ensures forall i :: 0 <= i < n ==> IsWordChar(s[i]) || s[i] == '-'
    ensures n < |s| ==> !(IsWordChar(s[n]) || s[n] == '-')
  {
    if s == [] || !(IsWordChar(s[0]) || s[0] == '-') then 0 else 1 + WordRun(s[1..])
  }

  /** The waypoint pattern matched at the start of `s`, and the text after the match. */
  function WaypointAt(s: string): (r: Option<(Waypoint, string)>)
    ensures r.Some? ==> |r.value.1| < |s|
    ensures r.Some? ==> IsCoordinate(r.value.0.x) && IsCoordinate(r.value.0.y) && IsCoordinate(r.value.0.z)
    ensures r.Some? ==> StartsWith(r.value.0.dimension, "Internal-") && |r.value.0.dimension| > 9
  {
    if !StartsWith(s, WaypointPrefix) then None
    else match Fields(s[|WaypointPrefix|..], 8)
      case None => None
      case Some((fs, r)) =>
        if fs[0] == "" || !IsCoordinate(fs[2]) || !IsCoordinate(fs[3]) || !IsCoordinate(fs[4]) || !StartsWith(r, "Internal-") then None
        else
          var run := WordRun(r[9..]);
          if run == 0 then None
          else Some((Waypoint(fs[0], fs[2], fs[3], fs[4], r[..9 + run]), r[9 + run..]))
  }

  /** The map destination of a waypoint link. */
  datatype MapTarget = MapTarget(world: string, x: string, y: string, z: string)

  function WorldOf(dimension: string): string
  {
    if Contains(dimension, "nether") then "world_the_nether"
    else if Contains(dimension, "end") then "world_the_end"
    else "world"
  }

  function Target(w: Waypoint): MapTarget
  {
    MapTarget(WorldOf(w.dimension),
              if w.x == "~" then "0" else w.x,
              if w.y == "~" then "64" else w.y,
              if w.z == "~" then "0" else w.z)
  }

  function Badge(world: string): string
  {
    if world == "world_the_nether" then "<span style=\"color: red;\">[Nether]</span>"
    else if world == "world_the_end" then "<span style=\"color: purple;\">[The End]</span>"
    else "<span style=\"color: green;\">[Overworld]</span>"
  }

  /** The replacement text: a dimension badge and a link into the web map. */
  function Render(w: Waypoint): string
  {
    var t := Target(w);
    var url := "https://create-rington.com/bluemap/#" + t.world + ":" + t.x + ":" + t.y + ":" + t.z + ":1500:0:0:0:0:perspective";
    Badge(t.world) + " <a href=\"" + url + "\" target=\"_blank\" rel=\"noopener noreferrer\">" + w.name + " (" + t.x + ", " + t.y + ", " + t.z + ")</a>"
  }

  /** `transformWaypointToLink`: every waypoint, scanning left to right without overlap, replaced by its link. */
  function Waypoints(s: string): string
    decreases |s|
  {
    if s == [] then []
    else match WaypointAt(s)
      case Some((w, rest)) => Render(w) + Waypoints(rest)
      case None => [s[0]] + Waypoints(s[1..])
  }

  /** The world is the Nether when the dimension names it, else the End when it names that, else the overworld; a "~" coordinate is shown as x 0, y 64, z 0. */
  lemma TargetRule(w: Waypoint)
    ensures Target(w).world == "world_the_nether" <==> Contains(w.dimension, "nether")
    ensures Target(w).world == "world_the_end" <==> !Contains(w.dimension, "nether") && Contains(w.dimension, "end")
    ensures Target(w).world == "world" <==> !Contains(w.dimension, "nether") && !Contains(w.dimension, "end")
    ensures w.x == "~" ==> Target(w).x == "0"
    ensures w.y == "~" ==> Target(w).y == "64"
    ensures w.z == "~" ==> Target(w).z == "0"
    ensures w.x != "~" ==> Target(w).x == w.x
  {
  }

  /** Text without a waypoint is shown unchanged. */
  lemma {:induction false} NoWaypointUnchanged(s: string)
    requires !Contains(s, WaypointPrefix)
    ensures Waypoints(s) == s
    decreases |s|
  {
    if s != [] {
      assert !StartsWith(s, WaypointPrefix);
      assert !Contains(s[1..], WaypointPrefix);
      NoWaypointUnchanged(s[1..]);
    }
  }

  // ---- Classification ----

  /** A socket message: a bare string, an object with optional `text`, `image` and `authorType`, or anything else. */
  datatype ChatMessage =
    | Plain(line: string)
    | Record(text: Option<string>, image: Option<string>, authorType: Option<string>)
    | Other

  datatype Side = Web | Discord | Minecraft

  /** Text shown as is, or the source of a Markdown rendering (done by the Markdown library). */
  datatype Content = Shown(text: string) | Markdown(source: string)

  datatype Parts = Parts(side: Side, name: string, content: Content, image: Option<string>)

  function RawText(m: ChatMessage): string
  {
    match m
    case Plain(t) => t
    case Record(t, _, _) => t.GetOr("")
    case Other => ""
  }

  /** `msgObj.image || null`: an empty string is no image. */
  function ImageOf(m: ChatMessage): Option<string>
  {
    if m.Record? && m.image.Some? && m.image.value != "" then m.image else None
  }

  /** `msgObj.authorType || "web"`. */
  function AuthorType(m: ChatMessage): string
  {
    if m.Record? && m.authorType.Some? && m.authorType.value != "" then m.authorType.value else "web"
  }

  const ServerPrefix := "[Createrington]:"

  /** The server's prefix and the white space after it removed, then the text trimmed. */
  function Cleaned(raw: string): string
  {
    Trim(if StartsWith(raw, ServerPrefix) then raw[|ServerPrefix|..] else raw)
  }

  /** `getMessageParts`. */
  function MessageParts(m: ChatMessage): Parts
  {
    Classify(AuthorType(m), Cleaned(RawText(m)), ImageOf(m))
  }

  /** The patterns tried in order on the cleaned text: a web line (only for web authors), a Discord line, a bare Minecraft name, a Minecraft line, else Markdown. */
  function Classify(authorType: string, msg: string, image: Option<string>): Parts
  {
    if authorType == "web" && WebMatch(msg).Some? then
      var g := WebMatch(msg).value;
      Parts(Web, "web", Shown("&lt;" + g.name + "&gt; " + g.rest), image)
    else if DiscordMatch(msg).Some? then
      var g := DiscordMatch(msg).value;
      var isWebBot := g.name == "WebChatBot" || g.name == "Web";
      Parts(if isWebBot then Web else Discord, if isWebBot then "web" else g.name, Shown(g.rest), image)
    else if McOnlyMatch(msg).Some? then
      Parts(Minecraft, McOnlyMatch(msg).value.name, Shown(""), image)
    else if McFullMatch(msg).Some? then
      var g := McFullMatch(msg).value;
      Parts(Minecraft, g.name, Shown(Waypoints(g.rest)), image)
    else
      Parts(Web, "web", Markdown(msg), image)
  }

  /** A plain name: at least one character, no ">" and no line break. */
  predicate PlainName(n: string)
  {
    |n| > 0 && '>' !in n && NoLineTerminator(n)
  }

  /** Message text that trimming leaves alone and that holds no line break. */
  predicate PlainText(t: string)
  {
    |t| > 0 && !IsSpace(t[0]) && !IsSpace(t[|t| - 1]) && NoLineTerminator(t)
  }

  /** A name of plain characters followed by the closing text and a fitting tail is captured whole. */
  lemma NamedMatch(s: string, start: nat, n: string, close: string, kind: Tail)
    requires close != [] && |n| > 0 && close[0] !in n && NoLineTerminator(n)
    requires start + |n| + |close| <= |s| && s[start..start + |n|] == n && s[start + |n|..start + |n| + |close|] == close
    requires TailMatches(kind, s[start + |n| + |close|..])
    ensures MatchGroups(s, start, close, kind) == Some(Groups(n, TailGroup(kind, s[start + |n| + |close|..])))
  {
    var e := start + |n|;
    ClosesHere(s, e, close, kind);
    NoCloseInsideName(s, start, n, close, kind);
    NameUnbroken(s, start, n);
    MatchAt(s, start, e, close, kind);
    assert s[start..e] == n;
    assert s[e + |close|..] == s[start + |n| + |close|..];
  }

  /** The pattern cannot finish inside a name that does not hold the first character of the closing text. */
  lemma NoCloseInsideName(s: string, start: nat, n: string, close: string, kind: Tail)
    requires close != [] && close[0] !in n
    requires start + |n| <= |s| && s[start..start + |n|] == n
    ensures forall e2 :: start < e2 < start + |n| ==> !ClosesAt(s, e2, close, kind)
  {
    forall e2 | start < e2 < start + |n|
      ensures !ClosesAt(s, e2, close, kind)
    {
      assert s[e2] == n[e2 - start];
      WrongFirstChar(s, e2, close, kind);
    }
  }

  /** A name without line terminators leaves the lazy group unbroken. */
  lemma NameUnbroken(s: string, start: nat, n: string)
    requires NoLineTerminator(n) && start + |n| <= |s| && s[start..start + |n|] == n
    ensures Unbroken(s, start, start + |n|)
  {
    forall k | start <= k < start + |n|
      ensures !IsLineTerminator(s[k])
    {
      assert s[k] == n[k - start];
    }
  }

  /** The closing text in place, followed by a fitting tail, finishes the pattern. */
  lemma ClosesHere(s: string, e: nat, close: string, kind: Tail)
    requires e + |close| <= |s| && s[e..e + |close|] == close && TailMatches(kind, s[e + |close|..])
    ensures ClosesAt(s, e, close, kind)
  {
    assert s[e..][..|close|] == close;
  }

  /** A character other than the closing text's first cannot start it. */
  lemma WrongFirstChar(s: string, e: nat, close: string, kind: Tail)
    requires e < |s| && close != [] && s[e] != close[0]
    ensures !ClosesAt(s, e, close, kind)
  {
    assert s[e..][0] == s[e];
  }

  /** Where the pieces of `a + n + c + rest` sit. */
  lemma Pieces(a: string, n: string, c: string, rest: string)
    ensures var s := a + n + c + rest;
            && s[|a|..|a| + |n|] == n
            && s[|a| + |n|..|a| + |n| + |c|] == c
            && s[|a| + |n| + |c|..] == rest
  {
  }

  /** One space before plain text: the tail `\s*(.*)$` fits and its group is the text. */
  lemma SpacedText(t: string)
    requires PlainText(t)
    ensures SpacedRestFits(" " + t) && TrimStart(" " + t) == t
  {
    assert (" " + t)[1..] == t;
  }

  /** A web or Discord line is left as it is by the cleaning step. */
  lemma CleanedKeeps(s: string)
    requires |s| > 1 && (s[0] == '<' || s[0] == '[' || s[0] == '`') && !IsSpace(s[|s| - 1])
    requires s[0] == '[' ==> s[1] != 'C'
    ensures Cleaned(s) == s
  {
    assert !StartsWith(s, ServerPrefix) by {
      assert s[0] != ServerPrefix[0] || s[1] != ServerPrefix[1];
    }
    TrimKeeps(s);
  }

  /** "<name> text" matches the web pattern with the name and the text as its groups. */
  lemma WebLineParts(n: string, t: string)
    requires PlainName(n) && PlainText(t)
    ensures WebMatch("<" + n + "> " + t) == Some(Groups(n, t))
  {
    var s := "<" + n + ">" + (" " + t);
    assert "<" + n + "> " + t == s;
    WebGroups(n, t);
  }

  lemma WebGroups(n: string, t: string)
    requires PlainName(n) && PlainText(t)
    ensures MatchGroups("<" + n + ">" + (" " + t), 1, ">", SpacedRest) == Some(Groups(n, t))
  {
    Pieces("<", n, ">", " " + t);
    SpacedText(t);
    NamedMatch("<" + n + ">" + (" " + t), 1, n, ">", SpacedRest);
  }

  /** An unquoted "<name> text" counts as a web message whenever the author type is web (the default), before any Minecraft pattern is tried. */
  lemma UnquotedNameIsWeb(n: string, t: string, image: Option<string>, authorType: Option<string>)
    requires PlainName(n) && PlainText(t) && authorType in {None, Some(""), Some("web")}
    ensures var m := Record(Some("<" + n + "> " + t), image, authorType);
            MessageParts(m) == Parts(Web, "web", Shown("&lt;" + n + "&gt; " + t), ImageOf(m))
  {
    var s := "<" + n + "> " + t;
    assert s[|s| - 1] == t[|t| - 1];
    CleanedKeeps(s);
    WebLineParts(n, t);
  }

  /** "[name]: text" matches the Discord pattern with the name and the text as its groups. */
  lemma DiscordLineMatch(n: string, t: string)
    requires |n| > 0 && ']' !in n && NoLineTerminator(n) && PlainText(t)
    ensures DiscordMatch("[" + n + "]: " + t) == Some(Groups(n, t))
  {
    var s := "[" + n + "]:" + (" " + t);
    assert "[" + n + "]: " + t == s;
    DiscordGroups(n, t);
  }

  lemma DiscordGroups(n: string, t: string)
    requires |n| > 0 && ']' !in n && NoLineTerminator(n) && PlainText(t)
    ensures MatchGroups("[" + n + "]:" + (" " + t), 1, "]:", SpacedRest) == Some(Groups(n, t))
  {
    Pieces("[", n, "]:", " " + t);
    SpacedText(t);
    NamedMatch("[" + n + "]:" + (" " + t), 1, n, "]:", SpacedRest);
  }

  /** "[name]: text" not from the web side is a Discord message from `name`, except that the web bridge's own names read as web. */
  lemma DiscordLineParts(n: string, t: string, authorType: string)
    requires |n| > 0 && ']' !in n && NoLineTerminator(n) && PlainText(t) && n[0] != 'C'
    requires authorType != "" && authorType != "web"
    ensures var m := Record(Some("[" + n + "]: " + t), None, Some(authorType));
            var isBot := n == "WebChatBot" || n == "Web";
            MessageParts(m) == Parts(if isBot then Web else Discord, if isBot then "web" else n, Shown(t), None)
  {
    var s := "[" + n + "]: " + t;
    assert s[1] == n[0] && s[|s| - 1] == t[|t| - 1];
    CleanedKeeps(s);
    var m := Record(Some(s), None, Some(authorType));
    assert AuthorType(m) == authorType && ImageOf(m) == None;
    DiscordLineMatch(n, t);
  }

  /** "`<name>` text" never fits the name-only pattern when the text holds no ">". */
  lemma QuotedNotNameOnly(n: string, t: string)
    requires PlainName(n) && PlainText(t) && '>' !in t
    ensures McOnlyMatch("`<" + n + ">` " + t) == None
  {
    var s := "`<" + n + ">` " + t;
    var e := 2 + |n|;
    assert s[e + 1..] == "` " + t;
    forall e2 | 2 < e2 <= |s|
      ensures !ClosesAt(s, e2, ">", OptTickEnd)
    {
      if e2 < e {
        assert s[e2..][0] == n[e2 - 2];
      } else if e + 3 <= e2 < |s| {
        assert s[e2..][0] == t[e2 - e - 3];
      } else if e < e2 < |s| {
        assert s[e2..][0] == (if e2 == e + 1 then '`' else ' ');
      }
    }
    NoMatch(s, 2, ">", OptTickEnd);
  }

  /** "`<name>` text" fits the Minecraft pattern with the name and the text as its groups. */
  lemma QuotedMatch(n: string, t: string)
    requires PlainName(n) && PlainText(t)
    ensures McFullMatch("`<" + n + ">` " + t) == Some(Groups(n, t))
  {
    var s := "`<" + n + ">" + ("` " + t);
    assert "`<" + n + ">` " + t == s;
    QuotedGroups(n, t);
  }

  lemma QuotedGroups(n: string, t: string)
    requires PlainName(n) && PlainText(t)
    ensures MatchGroups("`<" + n + ">" + ("` " + t), 2, ">", OptTickSpacedRest) == Some(Groups(n, t))
  {
    Pieces("`<", n, ">", "` " + t);
    assert DropTick("` " + t) == " " + t;
    SpacedText(t);
    NamedMatch("`<" + n + ">" + ("` " + t), 2, n, ">", OptTickSpacedRest);
  }

  /** "`<name>` text", as the game relays it, is a Minecraft message from `name` whose text has its waypoints linked, whatever the author type says. */
  lemma QuotedNameIsMinecraft(n: string, t: string, authorType: Option<string>)
    requires PlainName(n) && PlainText(t) && '>' !in t
    ensures var m := Record(Some("`<" + n + ">` " + t), None, authorType);
            MessageParts(m) == Parts(Minecraft, n, Shown(Waypoints(t)), None)
  {
    var s := "`<" + n + ">` " + t;
    assert s[|s| - 1] == t[|t| - 1];
    CleanedKeeps(s);
    var m := Record(Some(s), None, authorType);
    assert ImageOf(m) == None && WebMatch(s) == None && DiscordMatch(s) == None;
    QuotedNotNameOnly(n, t);
    QuotedMatch(n, t);
  }

  /** "<name> text" never fits the name-only pattern when the text holds no ">". */
  lemma UnquotedNotNameOnly(n: string, t: string)
    requires PlainName(n) && PlainText(t) && '>' !in t
    ensures McOnlyMatch("<" + n + "> " + t) == None
  {
    var s := "<" + n + "> " + t;
    var e := 1 + |n|;
    assert s[e + 1..] == " " + t;
    forall e2 | 1 < e2 <= |s|
      ensures !ClosesAt(s, e2, ">", OptTickEnd)
    {
      if e2 < e {
        assert s[e2..][0] == n[e2 - 1];
      } else if e + 2 <= e2 < |s| {
        assert s[e2..][0] == t[e2 - e - 2];
      } else if e2 == e + 1 {
        assert s[e2..][0] == ' ';
      }
    }
    NoMatch(s, 1, ">", OptTickEnd);
  }

  lemma UnquotedGameGroups(n: string, t: string)
    requires PlainName(n) && PlainText(t)
    ensures MatchGroups("<" + n + ">" + (" " + t), 1, ">", OptTickSpacedRest) == Some(Groups(n, t))
  {
    Pieces("<", n, ">", " " + t);
    SpacedText(t);
    NamedMatch("<" + n + ">" + (" " + t), 1, n, ">", OptTickSpacedRest);
  }

  lemma UnquotedGameMatch(n: string, t: string)
    requires PlainName(n) && PlainText(t)
    ensures McFullMatch("<" + n + "> " + t) == Some(Groups(n, t))
  {
    var s := "<" + n + "> " + t;
    assert s == "<" + n + ">" + (" " + t);
    assert s[0] == '<' && McStart(s) == Some(1);
    UnquotedGameGroups(n, t);
  }

  /** The same "<name> text" from a non-web author is read as a Minecraft line: the backtick of the Minecraft pattern is optional. */
  lemma UnquotedFromElsewhereIsMinecraft(n: string, t: string, authorType: string)
    requires PlainName(n) && PlainText(t) && '>' !in t && authorType != "" && authorType != "web"
    ensures var m := Record(Some("<" + n + "> " + t), None, Some(authorType));
            MessageParts(m) == Parts(Minecraft, n, Shown(Waypoints(t)), None)
  {
    var s := "<" + n + "> " + t;
    assert s[|s| - 1] == t[|t| - 1];
    CleanedKeeps(s);
    var m := Record(Some(s), None, Some(authorType));
    assert AuthorType(m) == authorType && ImageOf(m) == None && DiscordMatch(s) == None;
    UnquotedNotNameOnly(n, t);
    UnquotedGameMatch(n, t);
  }

  // ---- Player lookups ----

  /** The name-keyed player statuses of the public chat. */
  datatype Status = Status(online: bool, uuid: string)

  const SteveUuid := "8667ba71b85a4004af54457a9734eed7"

  /** The first key equal to `name` ignoring case. */
  function FindName<T>(entries: seq<(string, T)>, name: string): (r: Option<nat>)
    ensures r.Some? ==> r.value < |entries| && EqualsIgnoreCase(entries[r.value].0, name)
    ensures r.Some? ==> forall i :: 0 <= i < r.value ==> !EqualsIgnoreCase(entries[i].0, name)
    ensures r.None? ==> forall i :: 0 <= i < |entries| ==> !EqualsIgnoreCase(entries[i].0, name)
  {
    if entries == [] then None
    else if EqualsIgnoreCase(entries[0].0, name) then Some(0)
    else match FindName(entries[1..], name)
      case None => None
      case Some(i) => Some(i + 1)
  }

  /** `getPlayerUUID`: the UUID under the first key matching ignoring case; an empty key or UUID, or no match, gives Steve. */
  function PlayerUuid(statuses: seq<(string, Status)>, name: string): string
  {
    match FindName(statuses, name)
    case None => SteveUuid
    case Some(i) => if statuses[i].0 != "" && statuses[i].1.uuid != "" then statuses[i].1.uuid else SteveUuid
  }

  /** `getUuidByName` of the admin chat, over the online-player list (name, id, online). */
  function UuidByName(players: seq<(string, (string, bool))>, name: string): string
  {
    match FindName(players, name)
    case None => SteveUuid
    case Some(i) => if players[i].1.0 != "" then players[i].1.0 else SteveUuid
  }

  /** `isPlayerOnline`: an exact-case name match with the online flag set. */
  predicate IsPlayerOnline(players: seq<(string, (string, bool))>, name: string)
  {
    exists i :: 0 <= i < |players| && players[i].0 == name && players[i].1.1
  }

  /** Looking a name up ignores its case, and a name nobody matches gets Steve's skin. */
  lemma PlayerUuidIgnoresCase(statuses: seq<(string, Status)>, name: string)
    ensures PlayerUuid(statuses, name) == PlayerUuid(statuses, ToLower(name))
    ensures (forall i :: 0 <= i < |statuses| ==> !EqualsIgnoreCase(statuses[i].0, name)) ==> PlayerUuid(statuses, name) == SteveUuid
  {
    LowerIdempotent(name);
    FindSameIgnoringCase(statuses, name, ToLower(name));
  }

  lemma {:induction false} FindSameIgnoringCase<T>(entries: seq<(string, T)>, a: string, b: string)
    requires ToLower(a) == ToLower(b)
    ensures FindName(entries, a) == FindName(entries, b)
  {
    if entries != [] {
      FindSameIgnoringCase(entries[1..], a, b);
    }
  }

  /** The two admin lookups disagree on case: the UUID lookup finds "Steve" for "steve", the online check does not. */
  lemma AdminLookupsDifferOnCase()
    ensures var players := [("Steve", ("abc", true))];
            UuidByName(players, "steve") == "abc" && !IsPlayerOnline(players, "steve")
  {
    var players := [("Steve", ("abc", true))];
    assert ToLower("Steve") == ToLower("steve");
    assert FindName(players, "steve") == Some(0);
  }
}
