// The admin API: every route reads the `admin_session` cookie, refuses a
// missing one and then a Discord id without an `admins` row, and only then
// does its work: run an RCON command and log it unless it is a vanish
// query, read or set the admin's vanish flag, or e-mail a waitlist entry its
// invite token.
module AdminRoutes {
  import opened Wrappers
  import opened Text
  import opened Db
  import Forms

  /** `isAdmin`: no id is never an admin; otherwise an `admins` row must exist. */
  predicate IsAdmin(admins: map<string, bool>, discordId: Option<string>)
  {
    !Forms.Falsy(discordId) && discordId.value in admins
  }

  /** An answer of the admin API. */
  datatype Reply =
    | Refused(status: int, error: string)
    | Validity(status: int, valid: bool)
    | AdminRows(uuids: set<string>)
    | RconResponse(response: string)
    | VanishFlag(vanished: bool)
    | Done

  const Unauthorized := Refused(403, "Unauthorized")
  const NotAnAdmin := Refused(403, "Not an admin")

  /** The two guards every route but /validate starts with; `None` lets the request through. */
  function Gate(admins: map<string, bool>, cookie: Option<string>): Option<Reply>
  {
    if Forms.Falsy(cookie) then Some(Unauthorized)
    else if cookie.value !in admins then Some(NotAnAdmin)
    else None
  }

  /** A request gets through exactly when its cookie names an admin; a missing cookie is refused as unauthorised whatever the table holds. */
  lemma GateRule(admins: map<string, bool>, cookie: Option<string>)
    ensures Gate(admins, cookie).None? <==> IsAdmin(admins, cookie)
    ensures Forms.Falsy(cookie) ==> Gate(admins, cookie) == Some(Unauthorized)
    ensures !Forms.Falsy(cookie) && !IsAdmin(admins, cookie) ==> Gate(admins, cookie) == Some(NotAnAdmin)
  {
  }

  /** GET /admin/validate: 400 without a cookie, otherwise whether the cookie names an admin. */
  function Validate(admins: map<string, bool>, cookie: Option<string>): (r: Reply)
    ensures r.Validity?
    ensures r.valid <==> IsAdmin(admins, cookie)
    ensures r.status == (if Forms.Falsy(cookie) then 400 else 200)
  {
    if Forms.Falsy(cookie) then Validity(400, false)
    else Validity(200, cookie.value in admins)
  }

  /** GET /admin/me: the admin's own `users` rows, or 404 when none carries the id. The route answers with the first row the query returns; the model returns the set of rows it chooses from, since the rows' order is not part of this model. */
  function Me(admins: map<string, bool>, users: map<string, User>, cookie: Option<string>): (r: Reply)
  {
    match Gate(admins, cookie)
    case Some(refusal) => refusal
    case None =>
      var rows := LinkedTo(users, cookie.value);
      if rows == {} then Refused(404, "User not found in database") else AdminRows(rows)
  }

  lemma MeRule(admins: map<string, bool>, users: map<string, User>, cookie: Option<string>)
    ensures var r := Me(admins, users, cookie);
            && (r.Refused? && r.status == 403 <==> !IsAdmin(admins, cookie))
            && (r.AdminRows? <==> IsAdmin(admins, cookie) && LinkedTo(users, cookie.value) != {})
            && (r.AdminRows? ==> forall u | u in r.uuids :: u in users && users[u].discordId == cookie)
  {
  }

  /** `/^\/v get\b/i`: "/v get" in any letter case at the start, not followed by a word character. */
  predicate IsSilent(command: string)
  {
    && |command| >= 6
    && ToLower(command[..6]) == "/v get"
    && (|command| == 6 || !IsWordChar(command[6]))
  }

  /** "/v get" in any letter case, alone or followed by a space, is a silent vanish query. */
  lemma SilentQueries(head: string, rest: string)
    requires ToLower(head) == "/v get" && (rest == "" || rest[0] == ' ')
    ensures IsSilent(head + rest)
  {
    assert (head + rest)[..6] == head;
  }

  /** A longer word, another command or a leading space is not. */
  lemma LoudCommands()
    ensures !IsSilent("/v getter") && !IsSilent("/v list") && !IsSilent(" /v get Steve") && !IsSilent("/v ge")
  {
    assert IsWordChar(("/v getter")[6]);
    assert ToLower(("/v list")[..6])[3] == 'l';
    assert ToLower((" /v get Steve")[..6])[0] == ' ';
  }

  /** `userRes.rows[0]?.name || "unknown"`, given the name of the first `users` row with the admin's id, if any. */
  function AdminMcName(linkedName: Option<string>): (r: string)
    ensures r != ""
    ensures !Forms.Falsy(linkedName) ==> r == linkedName.value
  {
    if Forms.Falsy(linkedName) then "unknown" else linkedName.value
  }

  /** POST /admin/rcon: `response` is the server's reply to the command, `None` when the RCON connection failed. */
  function Rcon(admins: map<string, bool>, logs: seq<RconLog>, cookie: Option<string>, command: string,
                linkedName: Option<string>, response: Option<string>): (seq<RconLog>, Reply)
  {
    match Gate(admins, cookie)
    case Some(refusal) => (logs, refusal)
    case None =>
      if response.None? then (logs, Refused(500, "RCON failure"))
      else if IsSilent(command) then (logs, RconResponse(response.value))
      else (logs + [RconLog(cookie.value, AdminMcName(linkedName), command)], RconResponse(response.value))
  }

  /** A command is logged exactly when an admin ran it, it reached the server and it is not a vanish query; the entry carries the admin's id, in-game name and the command. */
  lemma RconLogRule(admins: map<string, bool>, logs: seq<RconLog>, cookie: Option<string>, command: string,
                    linkedName: Option<string>, response: Option<string>)
    ensures var (logs', r) := Rcon(admins, logs, cookie, command, linkedName, response);
            && (logs' != logs <==> IsAdmin(admins, cookie) && response.Some? && !IsSilent(command))
            && (logs' != logs ==> logs' == logs + [RconLog(cookie.value, AdminMcName(linkedName), command)])
            && (logs' == logs || |logs'| == |logs| + 1)
            && (r.RconResponse? <==> IsAdmin(admins, cookie) && response.Some?)
            && (r.RconResponse? ==> r.response == response.value)
  {
    var (logs', r) := Rcon(admins, logs, cookie, command, linkedName, response);
    if IsAdmin(admins, cookie) && response.Some? && !IsSilent(command) {
      assert |logs'| == |logs| + 1;
    }
  }

  /** GET /admin/vanish-status. */
  function VanishStatus(admins: map<string, bool>, cookie: Option<string>): (r: Reply)
  {
    match Gate(admins, cookie)
    case Some(refusal) => refusal
    case None => if cookie.value !in admins then Refused(404, "Admin not found") else VanishFlag(admins[cookie.value])
  }

  /** The server's reply matches `/no player found/i`: the pattern is already in lower case, so only the reply is lower-cased. */
  predicate NoPlayerFound(response: string)
  {
    Contains(ToLower(response), "no player found")
  }

  /** POST /admin/vanish-status: `vanished` is `None` when the body's value is not a boolean, and `response` is the reply to "/v get <name>", `None` when the RCON connection failed. */
  function SetVanish(admins: map<string, bool>, cookie: Option<string>, vanished: Option<bool>, response: Option<string>): (map<string, bool>, Reply)
  {
    if Forms.Falsy(cookie) then (admins, Unauthorized)
    else if vanished.None? then (admins, Refused(400, "Invalid vanish value"))
    else if cookie.value !in admins then (admins, NotAnAdmin)
    else if response.None? then (admins, Refused(500, "Internal server error"))
    else if NoPlayerFound(response.value) then (admins, Refused(400, "Player must be online to update vanish status."))
    else if cookie.value in admins then (admins[cookie.value := vanished.value], Done)
    else (admins, Done)
  }

  /** The vanish update's guards, in order, and its effect: only the caller's flag changes, and nobody gains or loses admin rights. */
  lemma SetVanishRule(admins: map<string, bool>, cookie: Option<string>, vanished: Option<bool>, response: Option<string>)
    ensures var (admins', r) := SetVanish(admins, cookie, vanished, response);
            && admins'.Keys == admins.Keys
            && (!Forms.Falsy(cookie) && vanished.None? ==> r == Refused(400, "Invalid vanish value"))
            && (response.Some? && NoPlayerFound(response.value) ==> admins' == admins && r != Done)
            && (r == Done <==>
                  IsAdmin(admins, cookie) && vanished.Some? && response.Some? && !NoPlayerFound(response.value))
            && (r == Done ==> admins' == admins[cookie.value := vanished.value])
            && (r != Done ==> admins' == admins)
  {
    var (admins', r) := SetVanish(admins, cookie, vanished, response);
    if IsAdmin(admins, cookie) && vanished.Some? && response.Some? {
      if !NoPlayerFound(response.value) {
        assert admins' == admins[cookie.value := vanished.value];
        assert admins'.Keys == admins.Keys;
      }
    }
  }

  /** After a successful update, reading the flag gives the value just set. */
  lemma VanishReadBack(admins: map<string, bool>, cookie: Option<string>, vanished: Option<bool>, response: Option<string>)
    ensures var (admins', r) := SetVanish(admins, cookie, vanished, response);
            r == Done ==> VanishStatus(admins', cookie) == VanishFlag(vanished.value)
  {
  }

  /** An invite token counts when it is a non-empty string. */
  predicate Invited(e: WaitlistEntry)
  {
    !Forms.Falsy(e.token)
  }

  /** POST /admin/send-invite for waitlist row `id`: `newToken` is the generated UUID and `mailSent` whether the mail went out. */
  function SendInvite(admins: map<string, bool>, waitlist: map<int, WaitlistEntry>, cookie: Option<string>, id: int,
                      newToken: string, mailSent: bool): (map<int, WaitlistEntry>, Reply)
  {
    match Gate(admins, cookie)
    case Some(refusal) => (waitlist, refusal)
    case None =>
      if id !in waitlist then (waitlist, Refused(404, "Waitlist entry not found"))
      else if Invited(waitlist[id]) then (waitlist, Refused(400, "User already invited"))
      else if !mailSent then (waitlist, Refused(500, "Failed to send invite"))
      else (waitlist[id := waitlist[id].(token := Some(newToken))], Done)
  }

  /** An entry already invited keeps its token; a token is stored only once the mail is sent, on that entry alone, leaving its e-mail and name. */
  lemma SendInviteRule(admins: map<string, bool>, waitlist: map<int, WaitlistEntry>, cookie: Option<string>, id: int,
                       newToken: string, mailSent: bool)
    ensures var (w', r) := SendInvite(admins, waitlist, cookie, id, newToken, mailSent);
            && (id in waitlist && Invited(waitlist[id]) ==> w' == waitlist)
            && (r == Done <==> IsAdmin(admins, cookie) && id in waitlist && !Invited(waitlist[id]) && mailSent)
            && (r != Done ==> w' == waitlist)
            && (r == Done ==>
                  && w'.Keys == waitlist.Keys
                  && w'[id].token == Some(newToken)
                  && w'[id].email == waitlist[id].email && w'[id].discordName == waitlist[id].discordName
                  && (forall k | k in waitlist && k != id :: w'[k] == waitlist[k]))
  {
  }

  /** Sending invites keeps the waitlist's invariant. */
  lemma SendInviteKeepsValid(admins: map<string, bool>, waitlist: map<int, WaitlistEntry>, nextId: int, cookie: Option<string>,
                             id: int, newToken: string, mailSent: bool)
    requires Forms.WaitlistValid(waitlist, nextId)
    ensures Forms.WaitlistValid(SendInvite(admins, waitlist, cookie, id, newToken, mailSent).0, nextId)
  {
    var (w', r) := SendInvite(admins, waitlist, cookie, id, newToken, mailSent);
    if r == Done {
      assert w' == waitlist[id := waitlist[id].(token := Some(newToken))];
      Forms.SameNamesKeepValid(waitlist, w', nextId);
    }
  }

  /** The routes that change the database. */
  method RconRoute(db: Database, cookie: Option<string>, command: string, linkedName: Option<string>, response: Option<string>)
    returns (r: Reply)
    modifies db`rconLogs
    ensures (db.rconLogs, r) == Rcon(db.admins, old(db.rconLogs), cookie, command, linkedName, response)
  {
    if Forms.Falsy(cookie) {
      return Unauthorized;
    }
    var discordId := cookie.value;
    if discordId !in db.admins {
      return NotAnAdmin;
    }
    var adminMcName := AdminMcName(linkedName);
    var isSilentCommand := IsSilent(command);
    if response.None? {
      return Refused(500, "RCON failure");
    }
    if !isSilentCommand {
      db.rconLogs := db.rconLogs + [RconLog(discordId, adminMcName, command)];
    }
    r := RconResponse(response.value);
  }

  method SetVanishRoute(db: Database, cookie: Option<string>, vanished: Option<bool>, response: Option<string>) returns (r: Reply)
    modifies db`admins
    ensures (db.admins, r) == SetVanish(old(db.admins), cookie, vanished, response)
  {
    if Forms.Falsy(cookie) {
      return Unauthorized;
    }
    if vanished.None? {
      return Refused(400, "Invalid vanish value");
    }
    var discordId := cookie.value;
    if discordId !in db.admins {
      return NotAnAdmin;
    }
    if response.None? {
      return Refused(500, "Internal server error");
    }
    if NoPlayerFound(response.value) {
      return Refused(400, "Player must be online to update vanish status.");
    }
    if discordId in db.admins {
      db.admins := db.admins[discordId := vanished.value];
    }
    r := Done;
  }

  method SendInviteRoute(db: Database, cookie: Option<string>, id: int, newToken: string, mailSent: bool) returns (r: Reply)
    modifies db`waitlist
    ensures (db.waitlist, r) == SendInvite(db.admins, old(db.waitlist), cookie, id, newToken, mailSent)
    ensures Forms.WaitlistValid(old(db.waitlist), db.nextWaitlistId) ==> Forms.WaitlistValid(db.waitlist, db.nextWaitlistId)
  {
    if Forms.WaitlistValid(db.waitlist, db.nextWaitlistId) {
      SendInviteKeepsValid(db.admins, db.waitlist, db.nextWaitlistId, cookie, id, newToken, mailSent);
    }
    if Forms.Falsy(cookie) {
      return Unauthorized;
    }
    if cookie.value !in db.admins {
      return NotAnAdmin;
    }
    if id !in db.waitlist {
      return Refused(404, "Waitlist entry not found");
    }
    var entry := db.waitlist[id];
    if Invited(entry) {
      return Refused(400, "User already invited");
    }
    if !mailSent {
      return Refused(500, "Failed to send invite");
    }
    db.waitlist := db.waitlist[id := entry.(token := Some(newToken))];
    r := Done;
  }
}
