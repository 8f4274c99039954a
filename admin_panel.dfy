// The admin page's own state: whether the session was validated, the signed-
// in admin, the players online and the shared console log that the other
// admin tools append to, kept to the newest fifty entries.
module AdminPanel {
  import opened Wrappers
  import opened Durations
  import opened Sequences
  import OnlinePlayers

  const LogCap := 50

  /** A console entry: its text and the time it was logged, in milliseconds. */
  datatype LogEntry = LogEntry(text: string, time: int)

  /** The `/api/admin/me` row the page shows. */
  datatype AdminUser = AdminUser(name: string, uuid: string, discordId: string, playTimeSeconds: Option<int>)

  datatype View = Loading | Nothing | Panel(user: AdminUser)

  /** "Loading..." until the check is done and, when allowed, the admin is loaded; nothing when not allowed. */
  function ViewOf(checked: bool, allowed: bool, user: Option<AdminUser>): View
  {
    if !checked || (allowed && user.None?) then Loading
    else if !allowed then Nothing
    else Panel(user.value)
  }

  /** `Math.floor(s / 3600)` h and `Math.floor((s % 3600) / 60)` m; a missing time reads as zero. */
  function PlaytimeShown(u: AdminUser): (r: HourMin)
    ensures u.playTimeSeconds.None? ==> r == HourMin(0, 0)
    ensures u.playTimeSeconds.Some? && u.playTimeSeconds.value >= 0 ==>
              0 <= r.minutes < 60 && r.hours * 3600 + r.minutes * 60 <= u.playTimeSeconds.value < r.hours * 3600 + r.minutes * 60 + 60
  {
    HoursMinutes(if u.playTimeSeconds.Some? then u.playTimeSeconds.value else 0)
  }

  /** `players.filter((p) => p.online === true)`. */
  function OnlineOnly(players: seq<OnlinePlayers.PlayerRow>): seq<OnlinePlayers.PlayerRow>
  {
    OnlinePlayers.Online(players)
  }

  class Panel {
    var allowed: bool
    var checked: bool
    var user: Option<AdminUser>
    var redirected: bool
    var onlinePlayers: seq<OnlinePlayers.PlayerRow>
    var logs: seq<LogEntry>
    /** Every entry ever appended, oldest first. */
    ghost var history: seq<LogEntry>

    /** The log is the newest fifty entries of the history, and an admin is shown only once allowed and with a name. */
    ghost predicate Valid()
      reads this
    {
      && logs == LastN(history, LogCap)
      && (user.Some? ==> allowed && user.value.name != "")
    }

    constructor ()
      ensures Valid()
      ensures !allowed && !checked && user.None? && !redirected && onlinePlayers == [] && logs == [] && history == []
    {
      allowed, checked, user, redirected := false, false, None, false;
      onlinePlayers, logs := [], [];
      history := [];
    }

    function Shown(): View
      reads this
    {
      ViewOf(checked, allowed, user)
    }

    /** `/api/admin/validate`'s answer; None when the request or its JSON failed. A valid session is allowed in, anything else sent home; either way the check is done. */
    method OnValidate(valid: Option<bool>)
      requires Valid()
      modifies this
      ensures Valid()
      ensures checked && allowed == (old(allowed) || valid == Some(true))
      ensures redirected == (old(redirected) || valid != Some(true))
      ensures user == old(user) && logs == old(logs) && history == old(history) && onlinePlayers == old(onlinePlayers)
    {
      if valid == Some(true) {
        allowed := true;
      } else {
        redirected := true;
      }
      checked := true;
    }

    /** `/api/admin/me`'s answer, fetched once allowed: a row with a name is shown, anything else sends the admin home. */
    method OnMe(reply: Option<AdminUser>)
      requires Valid() && allowed
      modifies this
      ensures Valid()
      ensures reply.Some? && reply.value.name != "" ==> user == reply && redirected == old(redirected)
      ensures !(reply.Some? && reply.value.name != "") ==> user == old(user) && redirected
      ensures allowed == old(allowed) && checked == old(checked) && logs == old(logs) && history == old(history) && onlinePlayers == old(onlinePlayers)
    {
      if reply.Some? && reply.value.name != "" {
        user := reply;
      } else {
        redirected := true;
      }
    }

    /** One poll of `/api/players`; a missing list reads as empty. */
    method OnPlayers(players: Option<seq<OnlinePlayers.PlayerRow>>)
      requires Valid()
      modifies this`onlinePlayers
      ensures Valid()
      ensures onlinePlayers == OnlineOnly(if players.Some? then players.value else [])
    {
      onlinePlayers := OnlineOnly(if players.Some? then players.value else []);
    }

    /** `appendLog`: the newest fifty entries, the new one last. */
    method AppendLog(entry: LogEntry)
      requires Valid()
      modifies this`logs, this`history
      ensures Valid()
      ensures history == old(history) + [entry]
      ensures logs == AppendBounded(old(logs), entry, LogCap)
      ensures |logs| <= LogCap && logs[|logs| - 1] == entry
    {
      AppendBoundedKeepsNewest(history, entry, LogCap);
      logs := LastN(logs, LogCap - 1) + [entry];
      history := history + [entry];
    }
  }

  /** The panel shows exactly when the session was checked and allowed and the admin loaded; with a valid panel its admin has a name. */
  lemma ViewRule(checked: bool, allowed: bool, user: Option<AdminUser>)
    ensures ViewOf(checked, allowed, user).Panel? <==> checked && allowed && user.Some?
    ensures ViewOf(checked, allowed, user) == Loading <==> !checked || (allowed && user.None?)
    ensures ViewOf(checked, allowed, user).Panel? ==> ViewOf(checked, allowed, user).user == user.value
  {
  }

  /** The page's flow: after a valid session and a named admin, the panel shows that admin and nobody is sent home. */
  method SignIn(p: Panel, valid: Option<bool>, me: Option<AdminUser>) returns (v: View)
    requires p.Valid() && !p.checked && !p.allowed && p.user.None? && !p.redirected
    modifies p
    ensures p.Valid()
    ensures valid == Some(true) && me.Some? && me.value.name != "" ==> v == Panel(me.value) && !p.redirected
    ensures valid != Some(true) ==> v == Nothing && p.redirected
    ensures v == p.Shown()
  {
    p.OnValidate(valid);
    if p.allowed {
      p.OnMe(me);
    }
    v := p.Shown();
  }
}
