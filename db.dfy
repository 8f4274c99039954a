// The Postgres tables the server's routes, services and Discord commands
// read and write, as maps, sets and sequences of rows. Times are whole
// seconds of the database clock.
module Db {
  import opened Wrappers

  /** A row of `users`, keyed by Minecraft UUID. */
  datatype User = User(
    name: string,
    discordId: Option<string>,
    online: bool,
    lastSeen: Option<int>,
    sessionStart: Option<int>,
    playTimeSeconds: Option<int>)

  /** The value `play_time_seconds` takes in a row inserted without it (the column default). */
  const PlayTimeDefault: Option<int> := Some(0)

  /** A row of `waitlist_emails`, keyed by its serial id. */
  datatype WaitlistEntry = WaitlistEntry(email: string, discordName: string, token: Option<string>)

  /** A row of `applications`; every column may hold NULL. */
  datatype Application = Application(
    mcName: Option<string>,
    dcName: Option<string>,
    age: Option<string>,
    howFound: Option<string>,
    experience: Option<string>,
    whyJoin: Option<string>)

  /** A row of `rcon_logs`. */
  datatype RconLog = RconLog(discordId: string, mcName: string, command: string)

  /** A ticket's `status`: closing a ticket only hides its channel, so a row is open until deleted. */
  datatype TicketStatus = Open | Deleted

  /** A row of `tickets`. */
  datatype Ticket = Ticket(number: int, discordId: string, mcName: string, channelId: string, status: TicketStatus, adminMessageId: Option<string>)

  /** A row of `chat_tokens`, keyed by the token: the Discord name it was issued to and when it expires. */
  datatype ChatToken = ChatToken(discordName: string, expiresAt: int)

  /** The key of `player_stats`: one value per player, stat type and stat key. */
  datatype StatKey = StatKey(uuid: string, statType: string, statKey: string)

  class Database {
    var users: map<string, User>
    var waitlist: map<int, WaitlistEntry>
    var nextWaitlistId: int
    var verifiedDiscords: set<string>
    /** `admins`: Discord id to the `vanished` flag. */
    var admins: map<string, bool>
    var rconLogs: seq<RconLog>
    var applications: seq<Application>
    var tickets: seq<Ticket>
    /** `ticket_counter.last_number`. */
    var ticketCounter: int
    var chatTokens: map<string, ChatToken>
    var playerStats: map<StatKey, int>

    constructor ()
      ensures users == map[] && waitlist == map[] && verifiedDiscords == {} && admins == map[]
      ensures rconLogs == [] && applications == [] && tickets == [] && ticketCounter == 0 && playerStats == map[]
      ensures chatTokens == map[]
    {
      users, waitlist, nextWaitlistId, verifiedDiscords := map[], map[], 1, {};
      admins, rconLogs, applications, tickets, ticketCounter := map[], [], [], [], 0;
      playerStats, chatTokens := map[], map[];
    }
  }

  /** The UUIDs whose row carries Discord id `d`. */
  function LinkedTo(users: map<string, User>, d: string): set<string>
  {
    set u | u in users && users[u].discordId == Some(d)
  }
}
