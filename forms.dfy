// The two public form endpoints: an application to join, stored as sent
// with empty optional answers as NULL, and the waitlist sign-up, which checks
// its fields, the e-mail's shape and both kinds of duplicate before it adds
// exactly one row.
module Forms {
  import opened Wrappers
  import opened Text
  import opened Db

  /** A form field as the request body carries it: absent, or a string. */
  predicate Falsy(v: Option<string>)
  {
    v.None? || v.value == ""
  }

  /** `value || null`. */
  function OrNull(v: Option<string>): (r: Option<string>)
    ensures r.None? <==> Falsy(v)
    ensures r.Some? ==> r == v
  {
    if Falsy(v) then None else v
  }

  /** The body of a POST to /apply. */
  datatype ApplyForm = ApplyForm(
    mcName: Option<string>,
    dcName: Option<string>,
    age: Option<string>,
    howFound: Option<string>,
    experience: Option<string>,
    whyJoin: Option<string>)

  /** The row /apply inserts. */
  function ApplicationRow(f: ApplyForm): Application
  {
    Application(f.mcName, f.dcName, f.age, OrNull(f.howFound), OrNull(f.experience), f.whyJoin)
  }

  /** The required answers are stored as sent; an empty or missing optional answer becomes NULL and any other is kept. */
  lemma ApplyRule(f: ApplyForm)
    ensures var row := ApplicationRow(f);
            && row.mcName == f.mcName && row.dcName == f.dcName && row.age == f.age && row.whyJoin == f.whyJoin
            && (row.howFound.None? <==> Falsy(f.howFound))
            && (row.experience.None? <==> Falsy(f.experience))
            && (!Falsy(f.howFound) ==> row.howFound == f.howFound)
            && (!Falsy(f.experience) ==> row.experience == f.experience)
            && row.howFound != Some("") && row.experience != Some("")
  {
  }

  /** POST /apply: one row is appended to `applications`. */
  method Apply(db: Database, f: ApplyForm) returns (row: Application)
    modifies db`applications
    ensures row == ApplicationRow(f)
    ensures db.applications == old(db.applications) + [row]
  {
    row := Application(f.mcName, f.dcName, f.age, OrNull(f.howFound), OrNull(f.experience), f.whyJoin);
    db.applications := db.applications + [row];
  }

  /** A character `[^\s@]` accepts. */
  predicate EmailChar(c: char)
  {
    !IsSpace(c) && c != '@'
  }

  /** `[^\s@]+` matching all of `s`. */
  predicate EmailRun(s: string)
  {
    |s| > 0 && forall k | 0 <= k < |s| :: EmailChar(s[k])
  }

  /** `/^[^\s@]+@[^\s@]+\.[^\s@]+$/`: the text before the only '@' and the text after it are runs, and the latter holds a '.' with a character on either side. */
  predicate IsValidEmail(e: string)
  {
    var i := IndexOf(e, '@');
    && i > 0
    && EmailRun(e[..i])
    && EmailRun(e[i + 1..])
    && exists j | i + 1 < j < |e| - 1 :: e[j] == '.'
  }

  /** Every accepted address splits into a local part, '@', a host, '.' and a last tld, none of them empty and none holding a space or an '@'. */
  lemma ValidEmailParts(e: string) returns (local: string, host: string, tld: string)
    requires IsValidEmail(e)
    ensures e == local + "@" + host + "." + tld
    ensures EmailRun(local) && EmailRun(host) && EmailRun(tld)
  {
    var i := IndexOf(e, '@');
    var j :| i + 1 < j < |e| - 1 && e[j] == '.';
    var domain := e[i + 1..];
    local, host, tld := e[..i], domain[..j - i - 1], domain[j - i..];
    RunPrefix(domain, j - i - 1);
    RunSuffix(domain, j - i);
    assert [domain[j - i - 1]] == "." && [e[i]] == "@";
    SplitAt(domain, j - i - 1);
    assert domain == host + "." + tld;
    SplitAt(e, i);
    assert e == local + "@" + domain;
    Regroup5(local, "@", host, ".", tld);
  }

  lemma SplitAt(s: string, k: nat)
    requires k < |s|
    ensures s == s[..k] + [s[k]] + s[k + 1..]
  {
  }

  lemma Regroup5(a: string, b: string, c: string, d: string, f: string)
    ensures a + b + (c + d + f) == a + b + c + d + f
  {
  }

  /** Non-empty ends of a run are runs. */
  lemma RunPrefix(s: string, b: nat)
    requires EmailRun(s) && 0 < b <= |s|
    ensures EmailRun(s[..b])
  {
    assert forall k | 0 <= k < b :: s[..b][k] == s[k];
  }

  lemma RunSuffix(s: string, a: nat)
    requires EmailRun(s) && a < |s|
    ensures EmailRun(s[a..])
  {
    assert forall k | 0 <= k < |s| - a :: s[a..][k] == s[a + k];
  }

  /** Conversely every such address is accepted, whatever dots the host or tld hold. */
  lemma EmailAccepted(local: string, host: string, tld: string)
    requires EmailRun(local) && EmailRun(host) && EmailRun(tld)
    ensures IsValidEmail(local + "@" + host + "." + tld)
  {
    var e := local + "@" + host + "." + tld;
    assert '@' !in local by {
      forall k | 0 <= k < |local| ensures local[k] != '@' {
        assert EmailChar(local[k]);
      }
    }
    assert e[..|local|] == local && e[|local|] == '@';
    var i := IndexOf(e, '@');
    assert i == |local|;
    var domain := host + "." + tld;
    assert e[i + 1..] == domain;
    forall k | 0 <= k < |domain| ensures EmailChar(domain[k]) {
      if k < |host| {
        assert domain[k] == host[k];
      } else if k > |host| {
        assert domain[k] == tld[k - |host| - 1];
      }
    }
    var j := |local| + 1 + |host|;
    assert e[j] == '.';
  }

  /** Addresses without a dot after the '@', without a local part, or with a space are refused; a plain address is accepted. */
  lemma EmailExamples()
    ensures IsValidEmail("test@example.com")
    ensures !IsValidEmail("a@b") && !IsValidEmail("@b.c") && !IsValidEmail("a b@c.d") && !IsValidEmail("a@b.")
  {
    PlainAddressAccepted();
    NoDotRefused();
    NoLocalPartRefused();
    SpaceRefused();
    TrailingDotRefused();
  }

  lemma PlainAddressAccepted()
    ensures IsValidEmail("test@example.com")
  {
    SimpleAddressAccepted("test@example.com", 4, 12);
  }

  /** An address of lower-case letters with one '@' at `at` and a '.' at `dot` inside the domain is accepted. */
  lemma SimpleAddressAccepted(e: string, at: nat, dot: nat)
    requires 0 < at && at + 1 < dot < |e| - 1 && e[at] == '@' && e[dot] == '.'
    requires forall k | 0 <= k < |e| && k != at :: 'a' <= e[k] <= 'z' || e[k] == '.'
    ensures IsValidEmail(e)
  {
    var local, domain := e[..at], e[at + 1..];
    assert forall k | 0 <= k < |local| :: local[k] == e[k];
    assert forall k | 0 <= k < |domain| :: domain[k] == e[at + 1 + k];
    assert '@' !in local;
    IndexOfFirst(e, '@', at);
    assert EmailRun(local) && EmailRun(domain);
    assert e[dot] == '.';
  }

  lemma NoDotRefused()
    ensures !IsValidEmail("a@b")
  {
    assert IndexOf("a@b", '@') == 1;
  }

  lemma NoLocalPartRefused()
    ensures !IsValidEmail("@b.c")
  {
    assert IndexOf("@b.c", '@') == 0;
  }

  lemma SpaceRefused()
    ensures !IsValidEmail("a b@c.d")
  {
    assert IndexOf("a b@c.d", '@') == 3;
    assert !EmailChar(("a b@c.d"[..3])[1]);
  }

  lemma TrailingDotRefused()
    ensures !IsValidEmail("a@b.")
  {
    assert IndexOf("a@b.", '@') == 1;
  }

  datatype WaitlistOutcome = MissingField | InvalidEmail | EmailTaken | DiscordNameTaken | Added(id: int)

  /** The HTTP status each outcome is answered with. */
  function WaitlistStatus(o: WaitlistOutcome): int
  {
    match o
    case MissingField => 400
    case InvalidEmail => 400
    case EmailTaken => 409
    case DiscordNameTaken => 409
    case Added(_) => 200
  }

  /** `SELECT 1 FROM waitlist_emails WHERE LOWER(email) = LOWER($1)` finds a row. */
  predicate EmailListed(w: map<int, WaitlistEntry>, email: string)
  {
    exists id | id in w :: EqualsIgnoreCase(w[id].email, email)
  }

  /** The same for `discord_name`. */
  predicate DiscordNameListed(w: map<int, WaitlistEntry>, name: string)
  {
    exists id | id in w :: EqualsIgnoreCase(w[id].discordName, name)
  }

  /** POST /wait-list on the table `w` whose serial would hand out `nextId` next. */
  function JoinWaitlist(w: map<int, WaitlistEntry>, nextId: int, email: Option<string>, discordName: Option<string>): (map<int, WaitlistEntry>, int, WaitlistOutcome)
  {
    if Falsy(email) || Falsy(discordName) then (w, nextId, MissingField)
    else if !IsValidEmail(email.value) then (w, nextId, InvalidEmail)
    else if EmailListed(w, email.value) then (w, nextId, EmailTaken)
    else if DiscordNameListed(w, discordName.value) then (w, nextId, DiscordNameTaken)
    else (w[nextId := WaitlistEntry(email.value, discordName.value, None)], nextId + 1, Added(nextId))
  }

  /** The table's invariant: ids come from the serial, and no two rows share an e-mail or a Discord name up to letter case. */
  predicate WaitlistValid(w: map<int, WaitlistEntry>, nextId: int)
  {
    && (forall id | id in w :: id < nextId)
    && (forall a, b | a in w && b in w && a != b :: !EqualsIgnoreCase(w[a].email, w[b].email))
    && (forall a, b | a in w && b in w && a != b :: !EqualsIgnoreCase(w[a].discordName, w[b].discordName))
  }

  /** Rows rewritten under the same ids, keeping each e-mail and Discord name, keep the invariant. */
  lemma SameNamesKeepValid(w: map<int, WaitlistEntry>, w': map<int, WaitlistEntry>, nextId: int)
    requires WaitlistValid(w, nextId) && w'.Keys == w.Keys
    requires forall k | k in w :: w'[k].email == w[k].email && w'[k].discordName == w[k].discordName
    ensures WaitlistValid(w', nextId)
  {
  }

  /** The checks run in order: a missing field, then the e-mail's shape, then a taken e-mail, then a taken Discord name; each refusal leaves the table alone. */
  lemma WaitlistLadder(w: map<int, WaitlistEntry>, nextId: int, email: Option<string>, discordName: Option<string>)
    ensures var (w', n', o) := JoinWaitlist(w, nextId, email, discordName);
            && (o == MissingField <==> Falsy(email) || Falsy(discordName))
            && (o == InvalidEmail <==> !Falsy(email) && !Falsy(discordName) && !IsValidEmail(email.value))
            && (o == EmailTaken <==> !Falsy(email) && !Falsy(discordName) && IsValidEmail(email.value) && EmailListed(w, email.value))
            && (o == DiscordNameTaken <==>
                  !Falsy(email) && !Falsy(discordName) && IsValidEmail(email.value) && !EmailListed(w, email.value)
                  && DiscordNameListed(w, discordName.value))
            && (!o.Added? ==> w' == w && n' == nextId)
            && (o.Added? ==> WaitlistStatus(o) == 200 && !Falsy(email) && !Falsy(discordName))
  {
  }

  /** A sign-up that succeeds adds exactly one row, under the serial's next id, holding the e-mail and Discord name as sent and no invite token. */
  lemma AddedRow(w: map<int, WaitlistEntry>, nextId: int, email: string, discordName: string)
    requires WaitlistValid(w, nextId)
    ensures var (w', n', o) := JoinWaitlist(w, nextId, Some(email), Some(discordName));
            o.Added? ==>
              && o.id == nextId && nextId !in w && n' == nextId + 1
              && w'.Keys == w.Keys + {nextId}
              && w'[nextId] == WaitlistEntry(email, discordName, None)
              && (forall id | id in w :: w'[id] == w[id])
  {
  }

  /** Signing the same e-mail up again, in any letter case, is refused as taken. */
  lemma SecondSignUpRefused(w: map<int, WaitlistEntry>, nextId: int, email: string, discordName: string, email2: string, discordName2: string)
    requires EqualsIgnoreCase(email, email2) && discordName2 != "" && IsValidEmail(email2)
    ensures var (w', n', o) := JoinWaitlist(w, nextId, Some(email), Some(discordName));
            o.Added? ==> JoinWaitlist(w', n', Some(email2), Some(discordName2)).2 == EmailTaken
  {
    var (w', n', o) := JoinWaitlist(w, nextId, Some(email), Some(discordName));
    if o.Added? {
      AddedShape(w, nextId, Some(email), Some(discordName));
      ListedOnceAdded(w, nextId, WaitlistEntry(email, discordName, None), email2);
      ListedRefused(w', n', email2, discordName2);
    }
  }

  lemma AddedShape(w: map<int, WaitlistEntry>, nextId: int, email: Option<string>, discordName: Option<string>)
    requires JoinWaitlist(w, nextId, email, discordName).2.Added?
    ensures email.Some? && discordName.Some?
    ensures JoinWaitlist(w, nextId, email, discordName).0 == w[nextId := WaitlistEntry(email.value, discordName.value, None)]
  {
  }

  lemma ListedRefused(w: map<int, WaitlistEntry>, nextId: int, email: string, discordName: string)
    requires EmailListed(w, email) && IsValidEmail(email) && discordName != ""
    ensures JoinWaitlist(w, nextId, Some(email), Some(discordName)).2 == EmailTaken
  {
    assert email != "" by { assert !IsValidEmail(""); }
  }

  lemma ListedOnceAdded(w: map<int, WaitlistEntry>, id: int, entry: WaitlistEntry, email: string)
    requires EqualsIgnoreCase(entry.email, email)
    ensures EmailListed(w[id := entry], email)
  {
    assert w[id := entry][id] == entry;
  }

  /** The sign-up keeps the table's invariant. */
  lemma JoinKeepsValid(w: map<int, WaitlistEntry>, nextId: int, email: Option<string>, discordName: Option<string>)
    requires WaitlistValid(w, nextId)
    ensures var (w', n', _) := JoinWaitlist(w, nextId, email, discordName);
            WaitlistValid(w', n')
  {
    var (w', n', o) := JoinWaitlist(w, nextId, email, discordName);
    if o.Added? {
      assert !EmailListed(w, email.value) && !DiscordNameListed(w, discordName.value);
    }
  }

  /** POST /wait-list on the database. */
  method WaitList(db: Database, email: Option<string>, discordName: Option<string>) returns (o: WaitlistOutcome)
    modifies db`waitlist, db`nextWaitlistId
    ensures (db.waitlist, db.nextWaitlistId, o) == JoinWaitlist(old(db.waitlist), old(db.nextWaitlistId), email, discordName)
    ensures WaitlistValid(old(db.waitlist), old(db.nextWaitlistId)) ==> WaitlistValid(db.waitlist, db.nextWaitlistId)
  {
    ghost var w0, n0 := db.waitlist, db.nextWaitlistId;
    if Falsy(email) || Falsy(discordName) {
      o := MissingField;
    } else if !IsValidEmail(email.value) {
      o := InvalidEmail;
    } else if EmailListed(db.waitlist, email.value) {
      o := EmailTaken;
    } else if DiscordNameListed(db.waitlist, discordName.value) {
      o := DiscordNameTaken;
    } else {
      var id := db.nextWaitlistId;
      db.waitlist := db.waitlist[id := WaitlistEntry(email.value, discordName.value, None)];
      db.nextWaitlistId := id + 1;
      o := Added(id);
    }
    assert (db.waitlist, db.nextWaitlistId, o) == JoinWaitlist(w0, n0, email, discordName);
    if WaitlistValid(w0, n0) {
      JoinKeepsValid(w0, n0, email, discordName);
    }
  }
}
