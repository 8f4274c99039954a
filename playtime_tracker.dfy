// The once-a-minute playtime sync: every player the server lists as online
// gets an open session, and every open session of a player who is no
// longer listed is closed and its length added to the player's playtime.
module PlaytimeTracker {
  import opened Wrappers
  import opened Db

  /** A player of the server's status sample. */
  datatype Player = Player(id: string, name: string)

  /** The upsert of one online player: insert a fresh online row, or mark the row online, opening a session if none is open. */
  function Upserted(users: map<string, User>, p: Player, now: int): map<string, User>
  {
    if p.id !in users then users[p.id := User(p.name, None, true, Some(now), Some(now), PlayTimeDefault)]
    else
      var u := users[p.id];
      var start := if !u.online || u.sessionStart.None? then Some(now) else u.sessionStart;
      users[p.id := u.(name := p.name, online := true, lastSeen := Some(now), sessionStart := start)]
  }

  /** The upserts of `players`, in order. */
  function UpsertAll(users: map<string, User>, players: seq<Player>, now: int): map<string, User>
  {
    if players == [] then users
    else Upserted(UpsertAll(users, players[..|players| - 1], now), players[|players| - 1], now)
  }

  /** A session closed at `now`: its length is added to the playtime (NULL stays NULL, as in SQL). */
  function ClosedSession(u: User, now: int): User
    requires u.sessionStart.Some?
  {
    var added := match u.playTimeSeconds
      case None => None
      case Some(t) => Some(t + (now - u.sessionStart.value));
    u.(online := false, lastSeen := Some(now), playTimeSeconds := added, sessionStart := None)
  }

  /** The bulk update: close every open session whose UUID is not in `online`. */
  function Closed(users: map<string, User>, online: set<string>, now: int): map<string, User>
  {
    map id | id in users ::
      if users[id].sessionStart.Some? && id !in online then ClosedSession(users[id], now) else users[id]
  }

  function Ids(players: seq<Player>): set<string>
  {
    set i | 0 <= i < |players| :: players[i].id
  }

  /** One run of `syncPlayersInBackground`. */
  function Synced(users: map<string, User>, players: seq<Player>, now: int): map<string, User>
  {
    Closed(UpsertAll(users, players, now), Ids(players), now)
  }

  lemma {:induction false} UpsertAllKeys(users: map<string, User>, players: seq<Player>, now: int)
    ensures UpsertAll(users, players, now).Keys == users.Keys + Ids(players)
  {
    if players != [] {
      var init := players[..|players| - 1];
      UpsertAllKeys(users, init, now);
      assert Ids(players) == Ids(init) + {players[|players| - 1].id};
    }
  }

  /** Upserts leave the rows of players not in the list untouched. */
  lemma {:induction false} UpsertAllOthers(users: map<string, User>, players: seq<Player>, now: int, id: string)
    requires id !in Ids(players)
    ensures id in UpsertAll(users, players, now) <==> id in users
    ensures id in users ==> UpsertAll(users, players, now)[id] == users[id]
  {
    if players != [] {
      var init := players[..|players| - 1];
      assert Ids(players) == Ids(init) + {players[|players| - 1].id};
      UpsertAllOthers(users, init, now, id);
    }
  }

  /** After the upserts a listed player is online, seen now, under the last name listed for it, with a session that was kept if one was already open and otherwise starts now. */
  lemma {:induction false} UpsertAllListed(users: map<string, User>, players: seq<Player>, now: int, i: nat)
    requires i < |players|
    ensures var after := UpsertAll(users, players, now);
            var id := players[i].id;
            && id in after
            && after[id].online && after[id].lastSeen == Some(now)
            && after[id].sessionStart ==
                 (if id in users && users[id].online && users[id].sessionStart.Some? then users[id].sessionStart else Some(now))
            && ((forall j :: i < j < |players| ==> players[j].id != id) ==> after[id].name == players[i].name)
            && after[id].playTimeSeconds == (if id in users then users[id].playTimeSeconds else PlayTimeDefault)
            && after[id].discordId == (if id in users then users[id].discordId else None)
  {
    var n := |players| - 1;
    var init := players[..n];
    var id := players[i].id;
    if i < n {
      assert init[i] == players[i];
      UpsertAllListed(users, init, now, i);
    } else {
      if j :| 0 <= j < n && players[j].id == id {
        assert init[j] == players[j];
        UpsertAllListed(users, init, now, j);
      } else {
        assert id !in Ids(init);
        UpsertAllOthers(users, init, now, id);
      }
    }
  }

  /** A listed player ends the sync online with an open session: kept if one was open, otherwise started now. */
  lemma SyncOpensSessions(users: map<string, User>, players: seq<Player>, now: int, i: nat)
    requires i < |players|
    ensures var after := Synced(users, players, now);
            var id := players[i].id;
            && id in after && after[id].online && after[id].lastSeen == Some(now)
            && after[id].sessionStart ==
                 (if id in users && users[id].online && users[id].sessionStart.Some? then users[id].sessionStart else Some(now))
            && ((forall j :: i < j < |players| ==> players[j].id != id) ==> after[id].name == players[i].name)
            && after[id].playTimeSeconds == (if id in users then users[id].playTimeSeconds else PlayTimeDefault)
  {
    UpsertAllListed(users, players, now, i);
    assert players[i].id in Ids(players);
  }

  /** A player not listed loses an open session, whose length is added to the playtime; one without a session is untouched. */
  lemma SyncClosesAbsentSessions(users: map<string, User>, players: seq<Player>, now: int, id: string)
    requires id in users && id !in Ids(players)
    ensures var after := Synced(users, players, now);
            var u := users[id];
            && id in after
            && (u.sessionStart.Some? ==>
                  && !after[id].online && after[id].lastSeen == Some(now) && after[id].sessionStart.None?
                  && after[id].playTimeSeconds ==
                       (if u.playTimeSeconds.Some? then Some(u.playTimeSeconds.value + (now - u.sessionStart.value)) else None))
            && (u.sessionStart.None? ==> after[id] == u)
  {
    UpsertAllOthers(users, players, now, id);
  }

  /** No row appears or disappears except the inserts for listed players. */
  lemma SyncKeys(users: map<string, User>, players: seq<Player>, now: int)
    ensures Synced(users, players, now).Keys == users.Keys + Ids(players)
  {
    UpsertAllKeys(users, players, now);
  }

  /** Closing twice adds nothing: the second pass finds every absent session already closed, so playtime is never counted twice. */
  lemma ClosingIsIdempotent(users: map<string, User>, online: set<string>, now: int)
    ensures Closed(Closed(users, online, now), online, now) == Closed(users, online, now)
  {
  }

  /** With nobody online, the second form of the update closes every open session, exactly as the first would with an empty list. */
  lemma EmptyListClosesAll(users: map<string, User>, now: int)
    ensures Synced(users, [], now) == map id | id in users ::
              if users[id].sessionStart.Some? then ClosedSession(users[id], now) else users[id]
  {
    assert Ids([]) == {};
  }

  /** `syncPlayersInBackground`, with the status response passed in and the upserts run one by one. */
  method SyncPlayers(db: Database, onlinePlayers: seq<Player>, now: int)
    modifies db`users
    ensures db.users == Synced(old(db.users), onlinePlayers, now)
  {
    var i := 0;
    while i < |onlinePlayers|
      invariant 0 <= i <= |onlinePlayers|
      invariant db.users == UpsertAll(old(db.users), onlinePlayers[..i], now)
    {
      assert onlinePlayers[..i + 1][..i] == onlinePlayers[..i];
      db.users := Upserted(db.users, onlinePlayers[i], now);
      i := i + 1;
    }
    assert onlinePlayers[..|onlinePlayers|] == onlinePlayers;
    var onlineUUIDs := set j | 0 <= j < |onlinePlayers| :: onlinePlayers[j].id;
    if |onlineUUIDs| > 0 {
      db.users := Closed(db.users, onlineUUIDs, now);
    } else {
      db.users := map id | id in db.users ::
        if db.users[id].sessionStart.Some? then ClosedSession(db.users[id], now) else db.users[id];
    }
  }
}
