/** The storage layer: three tables (users, resumes, cover letters) held as
    row sequences, with the database's primary-key, unique-email, foreign-key
    and cascade rules, a clock for `defaultNow()`/`new Date()` and a counter
    for fresh row identifiers. */
module Storage {
  import opened Wrappers
  import opened Seqs
  import opened Schema

  function UserIdOf(u: User): Id { u.id }
  function ResumeIdOf(r: Resume): Id { r.id }
  function LetterIdOf(c: CoverLetter): Id { c.id }
  function LetterCreatedAt(c: CoverLetter): nat { c.createdAt }

  function UserIds(users: seq<User>): set<Id> { set u | u in users :: u.id }
  function ResumeIds(resumes: seq<Resume>): set<Id> { set r | r in resumes :: r.id }

  /** The unique constraint on `users.email` (NULLs never clash). */
  predicate UniqueEmails(users: seq<User>) {
    forall i, j :: 0 <= i < j < |users| && users[i].email.Some? ==> users[i].email != users[j].email
  }

  predicate UsersOk(users: seq<User>, clock: nat) {
    && DistinctBy(users, UserIdOf)
    && UniqueEmails(users)
    && (forall i :: 0 <= i < |users| ==> users[i].createdAt <= users[i].updatedAt <= clock)
  }

  predicate ResumesOk(resumes: seq<Resume>, userIds: set<Id>, clock: nat, nextId: nat) {
    && DistinctBy(resumes, ResumeIdOf)
    && (forall i :: 0 <= i < |resumes| ==>
          resumes[i].id < nextId && resumes[i].updatedAt <= clock && resumes[i].userId in userIds)
  }

  predicate LettersOk(letters: seq<CoverLetter>, resumeIds: set<Id>, clock: nat, nextId: nat) {
    && DistinctBy(letters, LetterIdOf)
    && DistinctBy(letters, LetterCreatedAt)
    && (forall i :: 0 <= i < |letters| ==>
          letters[i].id < nextId && letters[i].createdAt <= clock && letters[i].resumeId in resumeIds)
  }

  /** The database invariants: primary keys, unique emails, foreign keys, and
      every id and timestamp below the store's counters. */
  predicate Consistent(users: seq<User>, resumes: seq<Resume>, letters: seq<CoverLetter>,
                       clock: nat, nextId: nat) {
    && UsersOk(users, clock)
    && ResumesOk(resumes, UserIds(users), clock, nextId)
    && LettersOk(letters, ResumeIds(resumes), clock, nextId)
  }

  // ---------------------------------------------------------------------
  // Lookups (`SELECT ... WHERE id = ?`)

  function UserIndex(users: seq<User>, id: Id): (k: int)
    ensures -1 <= k < |users|
    ensures k >= 0 <==> id in UserIds(users)
    ensures k >= 0 ==> users[k].id == id
  {
    var k := IndexWhere(users, (u: User) => u.id == id);
    forall x | x in users ensures k == -1 ==> x.id != id {
      var i :| 0 <= i < |users| && users[i] == x;
      assert ((u: User) => u.id == id)(users[i]) == (users[i].id == id);
    }
    k
  }

  function ResumeIndex(resumes: seq<Resume>, id: Id): (k: int)
    ensures -1 <= k < |resumes|
    ensures k >= 0 <==> id in ResumeIds(resumes)
    ensures k >= 0 ==> resumes[k].id == id
  {
    var k := IndexWhere(resumes, (r: Resume) => r.id == id);
    forall x | x in resumes ensures k == -1 ==> x.id != id {
      var i :| 0 <= i < |resumes| && resumes[i] == x;
      assert ((r: Resume) => r.id == id)(resumes[i]) == (resumes[i].id == id);
    }
    k
  }

  function LetterIndex(letters: seq<CoverLetter>, id: Id): (k: int)
    ensures -1 <= k < |letters|
    ensures k >= 0 ==> letters[k].id == id
    ensures k == -1 ==> forall i :: 0 <= i < |letters| ==> letters[i].id != id
  {
    IndexWhere(letters, (c: CoverLetter) => c.id == id)
  }

  function FindUser(users: seq<User>, id: Id): (u: Option<User>)
    ensures u.Some? <==> id in UserIds(users)
    ensures u.Some? ==> u.value in users && u.value.id == id
  {
    var k := UserIndex(users, id);
    if k < 0 then None else Some(users[k])
  }

  function FindResume(resumes: seq<Resume>, id: Id): (r: Option<Resume>)
    ensures r.Some? <==> id in ResumeIds(resumes)
    ensures r.Some? ==> r.value in resumes && r.value.id == id
  {
    var k := ResumeIndex(resumes, id);
    if k < 0 then None else Some(resumes[k])
  }

  /** With a primary key, the row found is the only one with that id. */
  lemma FindResumeUnique(resumes: seq<Resume>, i: int)
    requires DistinctBy(resumes, ResumeIdOf) && 0 <= i < |resumes|
    ensures FindResume(resumes, resumes[i].id) == Some(resumes[i])
  {
    var k := ResumeIndex(resumes, resumes[i].id);
    assert ResumeIdOf(resumes[k]) == ResumeIdOf(resumes[i]);
  }

  // ---------------------------------------------------------------------
  // `getUserResumes`: WHERE userId = ? ORDER BY updatedAt DESC

  predicate SortedByUpdatedDesc(s: seq<Resume>) {
    forall i, j :: 0 <= i < j < |s| ==> s[i].updatedAt >= s[j].updatedAt
  }

  function InsertByUpdated(x: Resume, s: seq<Resume>): (r: seq<Resume>)
    ensures |r| == |s| + 1
    ensures r[0] == x || (s != [] && r[0] == s[0])
    ensures SortedByUpdatedDesc(s) ==> SortedByUpdatedDesc(r)
    decreases |s|
  {
    if s == [] || x.updatedAt >= s[0].updatedAt then [x] + s
    else
      var rest := InsertByUpdated(x, s[1..]);
      var r := [s[0]] + rest;
      assert SortedByUpdatedDesc(s) ==> SortedByUpdatedDesc(r) by {
        if SortedByUpdatedDesc(s) {
          assert SortedByUpdatedDesc(s[1..]);
          assert s[0].updatedAt >= rest[0].updatedAt;
          forall i, j | 0 <= i < j < |r| ensures r[i].updatedAt >= r[j].updatedAt {
            assert r[j] == rest[j - 1];
            if i > 0 {
              assert r[i] == rest[i - 1];
            }
          }
        }
      }
      r
  }

  lemma {:induction false} InsertByUpdatedPermutes(x: Resume, s: seq<Resume>)
    ensures multiset(InsertByUpdated(x, s)) == multiset(s) + multiset{x}
    decreases |s|
  {
    if s != [] && x.updatedAt < s[0].updatedAt {
      InsertByUpdatedPermutes(x, s[1..]);
      assert s == [s[0]] + s[1..];
    }
  }

  function SortByUpdatedDesc(s: seq<Resume>): (r: seq<Resume>)
    ensures SortedByUpdatedDesc(r)
    decreases |s|
  {
    if s == [] then [] else InsertByUpdated(s[0], SortByUpdatedDesc(s[1..]))
  }

  lemma {:induction false} SortByUpdatedDescPermutes(s: seq<Resume>)
    ensures multiset(SortByUpdatedDesc(s)) == multiset(s)
    decreases |s|
  {
    if s != [] {
      SortByUpdatedDescPermutes(s[1..]);
      InsertByUpdatedPermutes(s[0], SortByUpdatedDesc(s[1..]));
      assert s == [s[0]] + s[1..];
    }
  }

  function OwnedBy(userId: Id): Resume -> bool { (r: Resume) => r.userId == userId }

  function UserResumes(resumes: seq<Resume>, userId: Id): seq<Resume> {
    SortByUpdatedDesc(Filter(OwnedBy(userId), resumes))
  }

  /** `getUserResumes(u)` holds exactly the rows owned by `u`, each once,
      most recently updated first. */
  lemma UserResumesExact(resumes: seq<Resume>, userId: Id)
    ensures multiset(UserResumes(resumes, userId)) == multiset(Filter(OwnedBy(userId), resumes))
    ensures forall x :: x in UserResumes(resumes, userId) <==> x in resumes && x.userId == userId
    ensures SortedByUpdatedDesc(UserResumes(resumes, userId))
  {
    var f := Filter(OwnedBy(userId), resumes);
    var r := UserResumes(resumes, userId);
    SortByUpdatedDescPermutes(f);
    forall x ensures x in r <==> x in resumes && x.userId == userId {
      assert x in r <==> x in multiset(r);
      assert x in f <==> x in multiset(f);
      if x in resumes {
        var i :| 0 <= i < |resumes| && resumes[i] == x;
        assert resumes[i] in f <==> OwnedBy(userId)(resumes[i]);
      }
    }
  }

  // ---------------------------------------------------------------------
  // `getCoverLetter`: WHERE resumeId = ? ORDER BY createdAt DESC, first row

  function LatestLetter(letters: seq<CoverLetter>, resumeId: Id): (c: Option<CoverLetter>)
    ensures c.None? <==> forall i :: 0 <= i < |letters| ==> letters[i].resumeId != resumeId
    ensures c.Some? ==> c.value in letters && c.value.resumeId == resumeId
    ensures c.Some? ==> forall i :: 0 <= i < |letters| && letters[i].resumeId == resumeId ==>
                          letters[i].createdAt <= c.value.createdAt
    decreases |letters|
  {
    if letters == [] then None
    else
      var rest := LatestLetter(letters[1..], resumeId);
      assert forall i :: 1 <= i < |letters| ==> letters[i] == letters[1..][i - 1];
      if letters[0].resumeId != resumeId then rest
      else if rest.Some? && rest.value.createdAt > letters[0].createdAt then rest
      else Some(letters[0])
  }

  /** With distinct creation times the latest letter is the only candidate. */
  lemma LatestLetterUnique(letters: seq<CoverLetter>, resumeId: Id, i: int)
    requires DistinctBy(letters, LetterCreatedAt) && 0 <= i < |letters|
    requires letters[i].resumeId == resumeId
    requires forall j :: 0 <= j < |letters| && letters[j].resumeId == resumeId ==>
               letters[j].createdAt <= letters[i].createdAt
    ensures LatestLetter(letters, resumeId) == Some(letters[i])
  {
    var c := LatestLetter(letters, resumeId).value;
    var k :| 0 <= k < |letters| && letters[k] == c;
    assert LetterCreatedAt(letters[k]) == LetterCreatedAt(letters[i]);
  }

  // ---------------------------------------------------------------------
  // Writes as functions of the tables

  /** `getUser`-then-insert-or-update on `users.id`; a clash on `email` with
      another user makes the statement fail. */
  predicate EmailTaken(users: seq<User>, data: UpsertUser) {
    data.email.Some? && data.email.value.Some?
    && exists i :: 0 <= i < |users| && users[i].id != data.id && users[i].email == data.email.value
  }

  /** The row an upsert leaves for `data.id`: `INSERT ... VALUES (userData)`
      when there is no row (absent keys become NULL), otherwise
      `SET {...userData, updatedAt}` on the existing row (absent keys are kept). */
  function UpsertedRow(data: UpsertUser, before: Option<User>, now: nat): User {
    match before
    case None => User(data.id, Supplied(data.email, None), Supplied(data.firstName, None),
                      Supplied(data.lastName, None), Supplied(data.profileImageUrl, None), now, now)
    case Some(b) => b.(email := Supplied(data.email, b.email), firstName := Supplied(data.firstName, b.firstName),
                       lastName := Supplied(data.lastName, b.lastName),
                       profileImageUrl := Supplied(data.profileImageUrl, b.profileImageUrl), updatedAt := now)
  }

  /** The user table after `insert(users).values(userData).onConflictDoUpdate(...)`. */
  function UpsertRows(users: seq<User>, data: UpsertUser, now: nat): seq<User> {
    var k := UserIndex(users, data.id);
    if k < 0 then users + [UpsertedRow(data, None, now)]
    else users[k := UpsertedRow(data, Some(users[k]), now)]
  }

  function KeepResume(id: Id): Resume -> bool { (r: Resume) => r.id != id }
  function KeepLettersOf(id: Id): CoverLetter -> bool { (c: CoverLetter) => c.resumeId != id }
  function KeepUser(id: Id): User -> bool { (u: User) => u.id != id }
  function KeepResumesOf(userId: Id): Resume -> bool { (r: Resume) => r.userId != userId }
  function KeepLettersAmong(ids: set<Id>): CoverLetter -> bool { (c: CoverLetter) => c.resumeId in ids }

  lemma FilterMembership<T(!new)>(p: T -> bool, s: seq<T>)
    ensures forall x :: x in Filter(p, s) <==> x in s && p(x)
  {
    forall x ensures x in Filter(p, s) <==> x in s && p(x) {
      if x in s {
        var i :| 0 <= i < |s| && s[i] == x;
      }
    }
  }

  /** Raising the clock and the id counter, or adding parent ids, keeps the
      per-table invariants. */
  lemma ResumesOkWeaken(resumes: seq<Resume>, ids: set<Id>, ids': set<Id>,
                        clock: nat, clock': nat, nextId: nat, nextId': nat)
    requires ResumesOk(resumes, ids, clock, nextId)
    requires ids <= ids' && clock <= clock' && nextId <= nextId'
    ensures ResumesOk(resumes, ids', clock', nextId')
  { }

  lemma LettersOkWeaken(letters: seq<CoverLetter>, ids: set<Id>, ids': set<Id>,
                        clock: nat, clock': nat, nextId: nat, nextId': nat)
    requires LettersOk(letters, ids, clock, nextId)
    requires ids <= ids' && clock <= clock' && nextId <= nextId'
    ensures LettersOk(letters, ids', clock', nextId')
  { }

  /** Appending a user whose id is new and whose email no other row holds
      keeps the user-table invariants. */
  lemma AppendUserOk(users: seq<User>, row: User, clock: nat)
    requires UsersOk(users, clock) && row.id !in UserIds(users)
    requires row.email.Some? ==> forall i :: 0 <= i < |users| ==> users[i].email != row.email
    requires row.createdAt <= row.updatedAt <= clock
    ensures UsersOk(users + [row], clock)
    ensures UserIds(users + [row]) == UserIds(users) + {row.id}
  {
    var rows := users + [row];
    forall i | 0 <= i < |users| ensures users[i].id != row.id {
      assert users[i] in users;
    }
    forall i, j | 0 <= i < j < |rows| ensures UserIdOf(rows[i]) != UserIdOf(rows[j]) {
      if j < |users| { assert rows[i] == users[i] && rows[j] == users[j]; }
    }
    forall i, j | 0 <= i < j < |rows| && rows[i].email.Some? ensures rows[i].email != rows[j].email {
      if j < |users| { assert rows[i] == users[i] && rows[j] == users[j]; }
    }
    assert forall u :: u in rows <==> u in users || u == row;
  }

  /** Replacing the row at `k` by one with the same id and an email no other
      row holds keeps the user-table invariants and the id set. */
  lemma ReplaceUserOk(users: seq<User>, k: int, row: User, clock: nat)
    requires UsersOk(users, clock) && 0 <= k < |users| && row.id == users[k].id
    requires row.email.Some? ==> forall i :: 0 <= i < |users| && i != k ==> users[i].email != row.email
    requires row.createdAt <= row.updatedAt <= clock
    ensures UsersOk(users[k := row], clock)
    ensures UserIds(users[k := row]) == UserIds(users)
  {
    var rows := users[k := row];
    forall i, j | 0 <= i < j < |rows| ensures UserIdOf(rows[i]) != UserIdOf(rows[j]) {
      assert UserIdOf(users[i]) != UserIdOf(users[j]);
    }
    forall i, j | 0 <= i < j < |rows| && rows[i].email.Some? ensures rows[i].email != rows[j].email {
      if i != k && j != k {
        assert rows[i] == users[i] && rows[j] == users[j];
      }
    }
    forall x ensures x in UserIds(rows) <==> x in UserIds(users) {
      if x in UserIds(users) {
        var v :| v in users && v.id == x;
        var i :| 0 <= i < |users| && users[i] == v;
        assert rows[i].id == x;
      }
      if x in UserIds(rows) {
        var v :| v in rows && v.id == x;
        var i :| 0 <= i < |rows| && rows[i] == v;
        assert users[i].id == x;
      }
    }
  }

  /** An upsert keeps one row per id and unique emails; the id set gains
      exactly the upserted id. Its row carries every supplied field; a field
      left out is NULL in a new row and keeps its value in an existing one. */
  lemma UpsertKeepsUsersOk(users: seq<User>, data: UpsertUser, clock: nat)
    requires UsersOk(users, clock) && !EmailTaken(users, data)
    ensures UsersOk(UpsertRows(users, data, clock + 1), clock + 1)
    ensures UserIds(UpsertRows(users, data, clock + 1)) == UserIds(users) + {data.id}
    ensures var u := FindUser(UpsertRows(users, data, clock + 1), data.id);
            var before := FindUser(users, data.id);
            u.Some? && u.value.updatedAt == clock + 1
            && (before.None? ==> u.value.createdAt == clock + 1
                                 && u.value.email == Supplied(data.email, None)
                                 && u.value.firstName == Supplied(data.firstName, None)
                                 && u.value.lastName == Supplied(data.lastName, None)
                                 && u.value.profileImageUrl == Supplied(data.profileImageUrl, None))
            && (before.Some? ==> u.value.createdAt == before.value.createdAt
                                 && u.value.email == Supplied(data.email, before.value.email)
                                 && u.value.firstName == Supplied(data.firstName, before.value.firstName)
                                 && u.value.lastName == Supplied(data.lastName, before.value.lastName)
                                 && u.value.profileImageUrl == Supplied(data.profileImageUrl, before.value.profileImageUrl))
  {
    var now := clock + 1;
    var k := UserIndex(users, data.id);
    var rows := UpsertRows(users, data, now);
    var at := if k < 0 then |users| else k;
    assert UsersOk(users, now);
    if k < 0 {
      AppendUserOk(users, rows[|users|], now);
    } else {
      forall i | 0 <= i < |users| && i != k ensures users[i].id != data.id {
        assert UserIdOf(users[i]) != UserIdOf(users[k]);
      }
      ReplaceUserOk(users, k, rows[k], now);
    }
    var f := UserIndex(rows, data.id);
    assert UserIdOf(rows[f]) == UserIdOf(rows[at]);
  }

  /** Removing user rows keeps the user-table invariants. */
  lemma FilterUsersOk(p: User -> bool, users: seq<User>, clock: nat)
    requires UsersOk(users, clock)
    ensures UsersOk(Filter(p, users), clock)
  {
    var us := Filter(p, users);
    FilterMembership(p, users);
    FilterKeepsDistinct(p, users, UserIdOf);
    forall i, j | 0 <= i < j < |us| && us[i].email.Some? ensures us[i].email != us[j].email {
      var a :| 0 <= a < |users| && users[a] == us[i];
      var b :| 0 <= b < |users| && users[b] == us[j];
      assert UserIdOf(us[i]) != UserIdOf(us[j]);
      assert a != b;
      if a > b {
        assert users[b].email.Some? ==> users[b].email != users[a].email;
      }
    }
    forall i | 0 <= i < |us| ensures us[i].createdAt <= us[i].updatedAt <= clock {
      var a :| 0 <= a < |users| && users[a] == us[i];
    }
  }

  /** Removing resume rows keeps the resume-table invariants, against any
      set of user ids that still holds every kept row's owner. */
  lemma FilterResumesOk(p: Resume -> bool, resumes: seq<Resume>, ids: set<Id>, ids': set<Id>,
                        clock: nat, nextId: nat)
    requires ResumesOk(resumes, ids, clock, nextId)
    requires forall x :: x in resumes && p(x) ==> x.userId in ids'
    ensures ResumesOk(Filter(p, resumes), ids', clock, nextId)
  {
    var rs := Filter(p, resumes);
    FilterMembership(p, resumes);
    FilterKeepsDistinct(p, resumes, ResumeIdOf);
    forall i | 0 <= i < |rs| ensures rs[i].id < nextId && rs[i].updatedAt <= clock && rs[i].userId in ids' {
      var a :| 0 <= a < |resumes| && resumes[a] == rs[i];
    }
  }

  /** Removing cover-letter rows keeps the letter-table invariants, against
      any set of resume ids that still holds every kept letter's resume. */
  lemma FilterLettersOk(p: CoverLetter -> bool, letters: seq<CoverLetter>, ids: set<Id>, ids': set<Id>,
                        clock: nat, nextId: nat)
    requires LettersOk(letters, ids, clock, nextId)
    requires forall x :: x in letters && p(x) ==> x.resumeId in ids'
    ensures LettersOk(Filter(p, letters), ids', clock, nextId)
  {
    var cs := Filter(p, letters);
    FilterMembership(p, letters);
    FilterKeepsDistinct(p, letters, LetterIdOf);
    FilterKeepsDistinct(p, letters, LetterCreatedAt);
    forall i | 0 <= i < |cs| ensures cs[i].id < nextId && cs[i].createdAt <= clock && cs[i].resumeId in ids' {
      var a :| 0 <= a < |letters| && letters[a] == cs[i];
    }
  }

  /** Appending a letter stamped after every stored one, with a fresh id and
      an existing resume, keeps the letter-table invariants, and the new letter
      is its resume's latest. */
  lemma AppendLetterOk(letters: seq<CoverLetter>, ids: set<Id>, clock: nat, nextId: nat, row: CoverLetter)
    requires LettersOk(letters, ids, clock, nextId)
    requires row.id == nextId && row.createdAt == clock + 1 && row.resumeId in ids
    ensures LettersOk(letters + [row], ids, clock + 1, nextId + 1)
    ensures LatestLetter(letters + [row], row.resumeId) == Some(row)
  {
    var cs := letters + [row];
    assert forall i :: 0 <= i < |letters| ==> cs[i] == letters[i];
    assert cs[|letters|] == row;
    LatestLetterUnique(cs, row.resumeId, |letters|);
  }

  /** Deleting a user and its dependants keeps every invariant. */
  lemma DeleteUserKeepsConsistent(users: seq<User>, resumes: seq<Resume>, letters: seq<CoverLetter>,
                                  clock: nat, nextId: nat, id: Id)
    requires Consistent(users, resumes, letters, clock, nextId)
    ensures var rs := Filter(KeepResumesOf(id), resumes);
            Consistent(Filter(KeepUser(id), users), rs,
                       Filter(KeepLettersAmong(ResumeIds(rs)), letters), clock, nextId)
  {
    var us := Filter(KeepUser(id), users);
    var rs := Filter(KeepResumesOf(id), resumes);
    FilterUsersOk(KeepUser(id), users, clock);
    FilterMembership(KeepUser(id), users);
    forall x | x in resumes && KeepResumesOf(id)(x) ensures x.userId in UserIds(us) {
      var a :| 0 <= a < |resumes| && resumes[a] == x;
      var v :| v in users && v.id == x.userId;
      assert v in us;
    }
    FilterResumesOk(KeepResumesOf(id), resumes, UserIds(users), UserIds(us), clock, nextId);
    FilterLettersOk(KeepLettersAmong(ResumeIds(rs)), letters, ResumeIds(resumes), ResumeIds(rs), clock, nextId);
  }

  /** Rewriting one resume in place, keeping its id and owner and stamping
      it with the next time, keeps every invariant. */
  lemma PatchKeepsConsistent(users: seq<User>, resumes: seq<Resume>, letters: seq<CoverLetter>,
                             clock: nat, nextId: nat, k: nat, row: Resume)
    requires Consistent(users, resumes, letters, clock, nextId) && k < |resumes|
    requires row.id == resumes[k].id && row.userId == resumes[k].userId && row.updatedAt == clock + 1
    ensures Consistent(users, resumes[k := row], letters, clock + 1, nextId)
    ensures ResumeIds(resumes[k := row]) == ResumeIds(resumes)
  {
    var rs := resumes[k := row];
    forall x ensures x in ResumeIds(rs) <==> x in ResumeIds(resumes) {
      if x in ResumeIds(resumes) {
        var v :| v in resumes && v.id == x;
        var i :| 0 <= i < |resumes| && resumes[i] == v;
        assert rs[i].id == x;
      }
      if x in ResumeIds(rs) {
        var v :| v in rs && v.id == x;
        var i :| 0 <= i < |rs| && rs[i] == v;
        assert resumes[i].id == x;
      }
    }
    forall i, j | 0 <= i < j < |rs| ensures ResumeIdOf(rs[i]) != ResumeIdOf(rs[j]) {
      assert ResumeIdOf(resumes[i]) != ResumeIdOf(resumes[j]);
    }
    ResumesOkWeaken(resumes, UserIds(users), UserIds(users), clock, clock + 1, nextId, nextId);
    LettersOkWeaken(letters, ResumeIds(resumes), ResumeIds(rs), clock, clock + 1, nextId, nextId);
  }

  /** An upsert that passes the email check keeps every invariant, and the
      upserted id is then present. */
  lemma UpsertKeepsConsistent(users: seq<User>, resumes: seq<Resume>, letters: seq<CoverLetter>,
                              clock: nat, nextId: nat, data: UpsertUser)
    requires Consistent(users, resumes, letters, clock, nextId) && !EmailTaken(users, data)
    ensures Consistent(UpsertRows(users, data, clock + 1), resumes, letters, clock + 1, nextId)
    ensures UserIds(UpsertRows(users, data, clock + 1)) == UserIds(users) + {data.id}
    ensures FindUser(UpsertRows(users, data, clock + 1), data.id).Some?
  {
    var rows := UpsertRows(users, data, clock + 1);
    UpsertKeepsUsersOk(users, data, clock);
    ResumesOkWeaken(resumes, UserIds(users), UserIds(rows), clock, clock + 1, nextId, nextId);
    LettersOkWeaken(letters, ResumeIds(resumes), ResumeIds(resumes), clock, clock + 1, nextId, nextId);
  }

  /** Deleting a resume and its cover letters keeps every invariant. */
  lemma DeleteResumeKeepsConsistent(users: seq<User>, resumes: seq<Resume>, letters: seq<CoverLetter>,
                                    clock: nat, nextId: nat, id: Id)
    requires Consistent(users, resumes, letters, clock, nextId)
    ensures Consistent(users, Filter(KeepResume(id), resumes), Filter(KeepLettersOf(id), letters), clock, nextId)
  {
    var rs := Filter(KeepResume(id), resumes);
    FilterMembership(KeepResume(id), resumes);
    forall x | x in resumes && KeepResume(id)(x) ensures x.userId in UserIds(users) {
      var a :| 0 <= a < |resumes| && resumes[a] == x;
    }
    FilterResumesOk(KeepResume(id), resumes, UserIds(users), UserIds(users), clock, nextId);
    forall x | x in letters && KeepLettersOf(id)(x) ensures x.resumeId in ResumeIds(rs) {
      var a :| 0 <= a < |letters| && letters[a] == x;
      var v :| v in resumes && v.id == x.resumeId;
      assert v in rs;
    }
    FilterLettersOk(KeepLettersOf(id), letters, ResumeIds(resumes), ResumeIds(rs), clock, nextId);
  }
}
