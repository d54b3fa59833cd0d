/**
  The demo account store: a users table keyed by normalised email and the
  session's copy of the signed-in user, with account creation, login, the
  merge-and-write update of the user record, the per-user check-in log and
  the statistics shown for an account.
*/
module Auth {

  import opened Wrappers
  import opened Text
  import opened Records
  import Storage

  /** A stored account. The stored health type is represented by its code. */
  datatype User = User(
    id: string,
    email: string,
    name: string,
    createdAt: int,
    checkInHistory: seq<CheckInRecord>,
    companionScores: Option<seq<ScoredCompanion>>,
    completedQuests: seq<CompletedQuest>,
    activeQuests: seq<Quest>,
    healthType: Option<string>,
    gardenElements: seq<GardenElement>,
    lastCheckIn: Option<int>,
    updatedAt: Option<int>,
    notifications: bool)

  /** The fields an update may carry; `None` means the field is not in the
      update object. `Some(None)` overwrites a nullable field with nothing. */
  datatype UserUpdate = UserUpdate(
    checkInHistory: Option<seq<CheckInRecord>>,
    companionScores: Option<Option<seq<ScoredCompanion>>>,
    completedQuests: Option<seq<CompletedQuest>>,
    activeQuests: Option<seq<Quest>>,
    healthType: Option<Option<string>>,
    gardenElements: Option<seq<GardenElement>>,
    lastCheckIn: Option<int>)

  const NoChanges := UserUpdate(None, None, None, None, None, None, None)

  datatype AuthResult = Success(user: User) | Failure(error: string)

  const DuplicateAccountError := "An account with this email already exists"
  const UnknownAccountError := "No account found with this email"

  // ---------------------------------------------------------------------
  // Email normalisation
  // ---------------------------------------------------------------------

  /** `email.toLowerCase().trim()`. */
  function Normalize(email: string): (key: string)
    ensures |key| <= |email|
  {
    Trim(Lower(email))
  }

  /** Two spellings of an address that differ only in ASCII case and in
      surrounding white space normalise to the same key. */
  lemma NormalizeIgnoresCaseAndSpaces(email: string, w1: string, variant: string, w2: string)
    requires AllWhitespace(w1) && AllWhitespace(w2)
    requires Lower(variant) == Lower(email)
    ensures Normalize(w1 + variant + w2) == Normalize(email)
  {
    LowerAppend(w1 + variant, w2);
    LowerAppend(w1, variant);
    LowerKeepsWhitespace(w1);
    LowerKeepsWhitespace(w2);
    TrimIgnoresSurroundingWhitespace(w1, Lower(variant), w2);
  }

  // ---------------------------------------------------------------------
  // The user record
  // ---------------------------------------------------------------------

  /** The record `createAccount` builds. */
  function NewUser(key: string, name: string, now: nat): (u: User)
    ensures u.email == key && u.name == Trim(name) && u.createdAt == now
    ensures u.checkInHistory == [] && u.completedQuests == [] && u.activeQuests == []
    ensures u.companionScores.None? && u.notifications
  {
    User("user_" + NatToString(now), key, Trim(name), now, [], None, [], [], None, [], None, None, true)
  }

  /** `{ ...user, ...updates, updatedAt: now }`: every field the update
      carries replaces the record's, every other field is kept, and the
      update time is stamped. */
  function ApplyUpdate(u: User, up: UserUpdate, now: int): (r: User)
    ensures r.id == u.id && r.email == u.email && r.name == u.name && r.createdAt == u.createdAt
    ensures r.notifications == u.notifications && r.updatedAt == Some(now)
    ensures r.checkInHistory == up.checkInHistory.GetOr(u.checkInHistory)
    ensures r.companionScores == up.companionScores.GetOr(u.companionScores)
    ensures r.completedQuests == up.completedQuests.GetOr(u.completedQuests)
    ensures r.activeQuests == up.activeQuests.GetOr(u.activeQuests)
    ensures r.healthType == up.healthType.GetOr(u.healthType)
    ensures r.gardenElements == up.gardenElements.GetOr(u.gardenElements)
    ensures r.lastCheckIn == (if up.lastCheckIn.Some? then up.lastCheckIn else u.lastCheckIn)
  {
    u.(checkInHistory := up.checkInHistory.GetOr(u.checkInHistory),
       companionScores := up.companionScores.GetOr(u.companionScores),
       completedQuests := up.completedQuests.GetOr(u.completedQuests),
       activeQuests := up.activeQuests.GetOr(u.activeQuests),
       healthType := up.healthType.GetOr(u.healthType),
       gardenElements := up.gardenElements.GetOr(u.gardenElements),
       lastCheckIn := if up.lastCheckIn.Some? then up.lastCheckIn else u.lastCheckIn,
       updatedAt := Some(now))
  }

  /** An update that carries nothing changes only the update time. */
  lemma EmptyUpdateKeepsRecord(u: User, now: int)
    ensures ApplyUpdate(u, NoChanges, now) == u.(updatedAt := Some(now))
  {
  }

  /** The update `saveUserCheckIn` sends: the capped history, the check-in's
      scores (absent scores clear the stored ones), the check-in's quests
      and type when it has them, else the stored ones, and the time. */
  function CheckInUpdate(u: User, entry: CheckInRecord, now: int): UserUpdate {
    UserUpdate(
      Some(LastN(u.checkInHistory + [entry], HistoryCap)),
      Some(entry.data.companionScores),
      None,
      Some(entry.data.activeQuests.GetOr(u.activeQuests)),
      Some(if entry.data.healthType.Some? then entry.data.healthType else u.healthType),
      None,
      Some(now))
  }

  /** After a check-in the history is capped at 52 with the new entry last,
      and omitted quests and type keep their stored values. */
  lemma CheckInUpdateKeeps(u: User, data: CheckInData, now: int)
    ensures var entry := StampCheckIn(data, now);
      var r := ApplyUpdate(u, CheckInUpdate(u, entry, now), now);
      && |r.checkInHistory| == (if |u.checkInHistory| + 1 < HistoryCap then |u.checkInHistory| + 1 else HistoryCap)
      && r.checkInHistory[|r.checkInHistory| - 1] == entry
      && (data.activeQuests.None? ==> r.activeQuests == u.activeQuests)
      && (data.healthType.None? ==> r.healthType == u.healthType)
      && r.completedQuests == u.completedQuests && r.gardenElements == u.gardenElements
  {
    AppendCapped(u.checkInHistory, StampCheckIn(data, now));
  }

  // ---------------------------------------------------------------------
  // Statistics: `getUserStats`
  // ---------------------------------------------------------------------

  predicate SortedByDateDesc(s: seq<CheckInRecord>) {
    forall i, j :: 0 <= i < j < |s| ==> s[i].date >= s[j].date
  }

  /** Inserts `x` before the first entry that is not newer, which keeps
      equal dates in their original order. */
  function InsertByDate(x: CheckInRecord, s: seq<CheckInRecord>): (r: seq<CheckInRecord>)
    requires SortedByDateDesc(s)
    ensures SortedByDateDesc(r)
    ensures multiset(r) == multiset(s) + multiset{x}
    ensures |r| == |s| + 1
    ensures r[0] == x || (s != [] && r[0] == s[0])
  {
    if s == [] || x.date >= s[0].date then
      [x] + s
    else
      var t := InsertByDate(x, s[1..]);
      assert s == [s[0]] + s[1..];
      [s[0]] + t
  }

  /** `[...history].sort((a, b) => b.date - a.date)`: newest first, stable. */
  function SortByDateDesc(xs: seq<CheckInRecord>): (r: seq<CheckInRecord>)
    ensures SortedByDateDesc(r)
    ensures multiset(r) == multiset(xs)
    ensures |r| == |xs|
  {
    if xs == [] then []
    else
      assert xs == [xs[0]] + xs[1..];
      InsertByDate(xs[0], SortByDateDesc(xs[1..]))
  }

  /** The consecutive close-enough gaps walking forward from entry `i` of a
      newest-first list. */
  function RunForward(s: seq<CheckInRecord>, i: nat): (n: nat)
    requires i < |s|
    ensures n <= |s| - 1 - i
    decreases |s| - i
  {
    if i == |s| - 1 then 0
    else if s[i].date - s[i + 1].date <= Storage.StreakTolerance then 1 + RunForward(s, i + 1)
    else 0
  }

  /** The account's streak: 0 without check-ins, else 1 plus the run of
      gaps of at most a week and a half, newest first after sorting. */
  function UserStreak(history: seq<CheckInRecord>): (n: nat)
    ensures history == [] <==> n == 0
    ensures n <= |history|
  {
    if history == [] then 0 else 1 + RunForward(SortByDateDesc(history), 0)
  }

  /** The statistics `getUserStats` reports. */
  datatype UserStats = UserStats(checkIns: nat, quests: nat, streak: nat, memberSince: int)

  predicate StrictlyAscending(h: seq<CheckInRecord>) {
    forall i, j :: 0 <= i < j < |h| ==> h[i].date < h[j].date
  }

  function Reverse<T>(s: seq<T>): (r: seq<T>)
    ensures |r| == |s| && forall i :: 0 <= i < |s| ==> r[i] == s[|s| - 1 - i]
  {
    if s == [] then [] else Reverse(s[1..]) + [s[0]]
  }

  /** Inserting an entry older than everything puts it last. */
  lemma {:induction false} InsertOldestGoesLast(x: CheckInRecord, s: seq<CheckInRecord>)
    requires SortedByDateDesc(s)
    requires forall i :: 0 <= i < |s| ==> x.date < s[i].date
    ensures InsertByDate(x, s) == s + [x]
  {
    if s != [] {
      InsertOldestGoesLast(x, s[1..]);
      assert [s[0]] + (s[1..] + [x]) == s + [x];
    }
  }

  /** A log stored oldest first with distinct dates sorts into its reverse. */
  lemma {:induction false} SortOfAscendingIsReverse(h: seq<CheckInRecord>)
    requires StrictlyAscending(h)
    ensures SortByDateDesc(h) == Reverse(h)
  {
    if h != [] {
      assert StrictlyAscending(h[1..]);
      SortOfAscendingIsReverse(h[1..]);
      InsertOldestGoesLast(h[0], Reverse(h[1..]));
    }
  }

  /** Walking a reversed list forward is walking the list backward. */
  lemma {:induction false} RunForwardOfReverse(h: seq<CheckInRecord>, i: nat)
    requires i < |h|
    ensures RunForward(Reverse(h), |h| - 1 - i) == Storage.RunBack(h, i)
  {
    if i > 0 {
      RunForwardOfReverse(h, i - 1);
    }
  }

  /** The two streak computations agree on a log stored oldest first with
      distinct dates, which is how both logs are appended: sorting first
      changes nothing there. */
  lemma StreaksAgree(h: seq<CheckInRecord>)
    requires StrictlyAscending(h)
    ensures UserStreak(h) == Storage.Streak(h)
  {
    if h != [] {
      SortOfAscendingIsReverse(h);
      RunForwardOfReverse(h, |h| - 1);
    }
  }

  // ---------------------------------------------------------------------
  // The store
  // ---------------------------------------------------------------------

  class AccountStore {
    /** The users table, keyed by normalised email. */
    var users: map<string, User>
    /** The signed-in user's record, as the session holds it. */
    var session: Option<User>

    /** Every record sits under its own email, and the session's record is
        the one in the table. */
    ghost predicate Valid()
      reads this
    {
      && (forall k :: k in users ==> users[k].email == k)
      && (session.Some? ==> session.value.email in users && users[session.value.email] == session.value)
    }

    constructor ()
      ensures Valid() && users == map[] && session.None?
    {
      users := map[];
      session := None;
    }

    /** `createAccount`: rejects an address already registered under its
        normalised form; otherwise stores a fresh record under it and signs
        the new user in. */
    method CreateAccount(email: string, name: string, now: nat) returns (r: AuthResult)
      requires Valid()
      modifies this
      ensures Valid()
      ensures Normalize(email) in old(users) ==>
        r == Failure(DuplicateAccountError) && users == old(users) && session == old(session)
      ensures Normalize(email) !in old(users) ==>
        && r == Success(NewUser(Normalize(email), name, now))
        && users == old(users)[Normalize(email) := r.user]
        && session == Some(r.user)
    {
      var key := Normalize(email);
      if key in users {
        return Failure(DuplicateAccountError);
      }
      var user := NewUser(key, name, now);
      users := users[key := user];
      session := Some(user);
      r := Success(user);
    }

    /** `login`: signs in the record stored under the normalised address. */
    method Login(email: string) returns (r: AuthResult)
      requires Valid()
      modifies this
      ensures Valid() && users == old(users)
      ensures Normalize(email) !in users ==> r == Failure(UnknownAccountError) && session == old(session)
      ensures Normalize(email) in users ==>
        r == Success(users[Normalize(email)]) && session == Some(users[Normalize(email)])
    {
      var key := Normalize(email);
      if key !in users {
        return Failure(UnknownAccountError);
      }
      session := Some(users[key]);
      r := Success(users[key]);
    }

    /** `logout`. */
    method Logout()
      requires Valid()
      modifies this
      ensures Valid() && users == old(users) && session.None?
    {
      session := None;
    }

    /** `checkEmailExists`. */
    method CheckEmailExists(email: string) returns (exists_: bool)
      ensures exists_ <==> Normalize(email) in users
    {
      exists_ := Normalize(email) in users;
    }

    /** `updateUser`: without a session nothing happens; otherwise the
        session's record with the update applied is written to both the
        table and the session. */
    method UpdateUser(up: UserUpdate, now: int) returns (r: Option<User>)
      requires Valid()
      modifies this
      ensures Valid()
      ensures old(session).None? ==> r.None? && users == old(users) && session == old(session)
      ensures old(session).Some? ==>
        && r == Some(ApplyUpdate(old(session).value, up, now))
        && users == old(users)[old(session).value.email := r.value]
        && session == r
    {
      if session.None? {
        return None;
      }
      var updated := ApplyUpdate(session.value, up, now);
      users := users[session.value.email := updated];
      session := Some(updated);
      r := Some(updated);
    }

    /** `saveUserCheckIn`: appends the stamped check-in to the signed-in
        user's capped history through `updateUser`. */
    method SaveUserCheckIn(data: CheckInData, now: nat) returns (r: Option<User>)
      requires Valid()
      modifies this
      ensures Valid()
      ensures old(session).None? ==> r.None? && users == old(users) && session == old(session)
      ensures old(session).Some? ==>
        var u := old(session).value;
        && r == Some(ApplyUpdate(u, CheckInUpdate(u, StampCheckIn(data, now), now), now))
        && users == old(users)[u.email := r.value]
        && session == r
    {
      if session.None? {
        return None;
      }
      var entry := StampCheckIn(data, now);
      r := UpdateUser(CheckInUpdate(session.value, entry, now), now);
    }

    /** `saveUserQuest`: appends one completion to the signed-in user's
        log. */
    method SaveUserQuest(questId: string, companionId: string, now: int) returns (r: Option<User>)
      requires Valid()
      modifies this
      ensures Valid()
      ensures old(session).None? ==> r.None? && users == old(users) && session == old(session)
      ensures old(session).Some? ==>
        var u := old(session).value;
        && r == Some(ApplyUpdate(u, NoChanges.(completedQuests := Some(u.completedQuests + [CompletedQuest(questId, companionId, now)])), now))
        && users == old(users)[u.email := r.value]
        && session == r
        && r.value.completedQuests == u.completedQuests + [CompletedQuest(questId, companionId, now)]
        && r.value.checkInHistory == u.checkInHistory
    {
      if session.None? {
        return None;
      }
      var quests := session.value.completedQuests + [CompletedQuest(questId, companionId, now)];
      r := UpdateUser(NoChanges.(completedQuests := Some(quests)), now);
    }

    /** `getUserStats`: counts, member-since date and the streak over the
        history sorted newest first. */
    method GetUserStats() returns (r: Option<UserStats>)
      ensures session.None? ==> r.None?
      ensures session.Some? ==> r == Some(UserStats(
        |session.value.checkInHistory|, |session.value.completedQuests|,
        UserStreak(session.value.checkInHistory), session.value.createdAt))
    {
      if session.None? {
        return None;
      }
      var user := session.value;
      var streak := 0;
      if |user.checkInHistory| > 0 {
        var sorted := SortByDateDesc(user.checkInHistory);
        streak := 1;
        var i := 0;
        while i < |sorted| - 1
          invariant 0 <= i <= |sorted| - 1
          invariant streak + RunForward(sorted, i) == UserStreak(user.checkInHistory)
        {
          if sorted[i].date - sorted[i + 1].date <= Storage.StreakTolerance {
            streak := streak + 1;
          } else {
            break;
          }
          i := i + 1;
        }
      }
      r := Some(UserStats(|user.checkInHistory|, |user.completedQuests|, streak, user.createdAt));
    }
  }

  /** Once an account exists, any spelling of its address that differs only
      in case and surrounding white space finds it. */
  lemma AccountFoundByVariants(users: map<string, User>, email: string, w1: string, variant: string, w2: string)
    requires Normalize(email) in users
    requires AllWhitespace(w1) && AllWhitespace(w2) && Lower(variant) == Lower(email)
    ensures Normalize(w1 + variant + w2) in users
  {
    NormalizeIgnoresCaseAndSpaces(email, w1, variant, w2);
  }
}
