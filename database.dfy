/** `DatabaseStorage`: the store object whose methods run the queries of
    the storage layer. Its fields hold the three tables, the clock and the id
    counter, and every method keeps the table invariants of `Storage`. */
module Database {
  import opened Wrappers
  import opened Seqs
  import opened Schema
  import opened Storage

  class Store {
    var users: seq<User>
    var resumes: seq<Resume>
    var coverLetters: seq<CoverLetter>
    /** The last timestamp handed out. */
    var clock: nat
    /** The next fresh row id. */
    var nextId: nat

    ghost predicate Valid()
      reads this
    {
      Consistent(users, resumes, coverLetters, clock, nextId)
    }

    constructor ()
      ensures Valid()
      ensures users == [] && resumes == [] && coverLetters == []
    {
      users, resumes, coverLetters := [], [], [];
      clock, nextId := 0, 0;
    }

    method GetUser(id: Id) returns (u: Option<User>)
      requires Valid()
      ensures u.Some? <==> id in UserIds(users)
      ensures u.Some? ==> u.value in users && u.value.id == id
    {
      u := FindUser(users, id);
    }

    method UpsertUser(data: UpsertUser) returns (u: Option<User>)
      requires Valid()
      modifies this
      ensures Valid()
      ensures EmailTaken(old(users), data) ==> u.None? && unchanged(this)
      ensures !EmailTaken(old(users), data) ==>
                clock == old(clock) + 1 && users == UpsertRows(old(users), data, clock)
                && u == FindUser(users, data.id) && u.Some?
      ensures UserIds(users) == old(UserIds(users)) + (if u.Some? then {data.id} else {})
      ensures resumes == old(resumes) && coverLetters == old(coverLetters) && nextId == old(nextId)
    {
      if EmailTaken(users, data) {
        u := None;
        return;
      }
      WriteUpsert(data);
      u := FindUser(users, data.id);
    }

    /** The statement itself, once the unique email check has passed. */
    method WriteUpsert(data: UpsertUser)
      requires Valid() && !EmailTaken(users, data)
      modifies this
      ensures Valid()
      ensures clock == old(clock) + 1 && users == UpsertRows(old(users), data, clock)
      ensures UserIds(users) == old(UserIds(users)) + {data.id} && FindUser(users, data.id).Some?
      ensures resumes == old(resumes) && coverLetters == old(coverLetters) && nextId == old(nextId)
    {
      UpsertKeepsConsistent(users, resumes, coverLetters, clock, nextId, data);
      users, clock := UpsertRows(users, data, clock + 1), clock + 1;
    }

    method CreateResume(ins: InsertResume) returns (r: Option<Resume>)
      requires Valid()
      modifies this
      ensures Valid()
      ensures r.Some? <==> ins.userId in UserIds(old(users))
      ensures r.None? ==> unchanged(this)
      ensures r.Some? ==> clock == old(clock) + 1 && nextId == old(nextId) + 1
                          && r.value == NewResumeRow(ins, old(nextId), clock)
                          && r.value.id !in ResumeIds(old(resumes))
                          && resumes == old(resumes) + [r.value]
                          && FindResume(resumes, r.value.id) == r
      ensures users == old(users) && coverLetters == old(coverLetters)
    {
      if ins.userId !in UserIds(users) {
        r := None;
        return;
      }
      clock := clock + 1;
      var row := NewResumeRow(ins, nextId, clock);
      nextId := nextId + 1;
      assert row.id !in ResumeIds(resumes);
      resumes := resumes + [row];
      r := Some(row);
      assert resumes[|resumes| - 1] == row;
      assert ResumeIds(resumes) == old(ResumeIds(resumes)) + {row.id};
      FindResumeUnique(resumes, |resumes| - 1);
    }

    method GetResume(id: Id) returns (r: Option<Resume>)
      requires Valid()
      ensures r.Some? <==> id in ResumeIds(resumes)
      ensures r.Some? ==> r.value in resumes && r.value.id == id
      ensures r == FindResume(resumes, id)
    {
      r := FindResume(resumes, id);
    }

    method GetUserResumes(userId: Id) returns (rs: seq<Resume>)
      requires Valid()
      ensures rs == UserResumes(resumes, userId)
      ensures forall x :: x in rs <==> x in resumes && x.userId == userId
      ensures SortedByUpdatedDesc(rs)
    {
      rs := UserResumes(resumes, userId);
      UserResumesExact(resumes, userId);
    }

    method UpdateResume(id: Id, patch: ResumePatch) returns (r: Option<Resume>)
      requires Valid()
      modifies this
      ensures Valid()
      ensures r.Some? <==> id in ResumeIds(old(resumes))
      ensures r.None? ==> unchanged(this)
      ensures r.Some? ==> clock == old(clock) + 1
                          && r.value == Patched(FindResume(old(resumes), id).value, patch, clock)
                          && resumes == old(resumes)[ResumeIndex(old(resumes), id) := r.value]
      ensures users == old(users) && coverLetters == old(coverLetters) && nextId == old(nextId)
    {
      var k := ResumeIndex(resumes, id);
      if k < 0 {
        r := None;
        return;
      }
      var row := Patched(resumes[k], patch, clock + 1);
      PatchKeepsConsistent(users, resumes, coverLetters, clock, nextId, k, row);
      clock, resumes := clock + 1, resumes[k := row];
      r := Some(row);
    }

    /** `DELETE FROM resumes WHERE id = ?`, and by `ON DELETE CASCADE` the
        resume's cover letters. */
    method DeleteResume(id: Id)
      requires Valid()
      modifies this
      ensures Valid()
      ensures resumes == Filter(KeepResume(id), old(resumes))
      ensures coverLetters == Filter(KeepLettersOf(id), old(coverLetters))
      ensures users == old(users) && clock == old(clock) && nextId == old(nextId)
    {
      DeleteResumeKeepsConsistent(users, resumes, coverLetters, clock, nextId, id);
      resumes := Filter(KeepResume(id), resumes);
      coverLetters := Filter(KeepLettersOf(id), coverLetters);
    }

    /** Removing a user row (done by the identity collaborator, not by this
        layer) cascades to the user's resumes and, through them, to their
        cover letters. */
    method DeleteUser(id: Id)
      requires Valid()
      modifies this
      ensures Valid()
      ensures users == Filter(KeepUser(id), old(users))
      ensures resumes == Filter(KeepResumesOf(id), old(resumes))
      ensures coverLetters == Filter(KeepLettersAmong(ResumeIds(resumes)), old(coverLetters))
      ensures clock == old(clock) && nextId == old(nextId)
    {
      DeleteUserKeepsConsistent(users, resumes, coverLetters, clock, nextId, id);
      var rs := Filter(KeepResumesOf(id), resumes);
      users, resumes, coverLetters :=
        Filter(KeepUser(id), users), rs, Filter(KeepLettersAmong(ResumeIds(rs)), coverLetters);
    }

    method CreateCoverLetter(ins: InsertCoverLetter) returns (c: Option<CoverLetter>)
      requires Valid()
      modifies this
      ensures Valid()
      ensures c.Some? <==> ins.resumeId in ResumeIds(old(resumes))
      ensures c.None? ==> unchanged(this)
      ensures c.Some? ==> clock == old(clock) + 1 && nextId == old(nextId) + 1
                          && c.value == NewCoverLetterRow(ins, old(nextId), clock)
                          && coverLetters == old(coverLetters) + [c.value]
                          && LatestLetter(coverLetters, ins.resumeId) == c
      ensures users == old(users) && resumes == old(resumes)
    {
      if ins.resumeId !in ResumeIds(resumes) {
        c := None;
        return;
      }
      clock := clock + 1;
      var row := NewCoverLetterRow(ins, nextId, clock);
      nextId := nextId + 1;
      AppendLetterOk(coverLetters, ResumeIds(resumes), clock - 1, nextId - 1, row);
      ResumesOkWeaken(resumes, UserIds(users), UserIds(users), clock - 1, clock, nextId - 1, nextId);
      coverLetters := coverLetters + [row];
      c := Some(row);
    }

    method GetCoverLetter(resumeId: Id) returns (c: Option<CoverLetter>)
      requires Valid()
      ensures c == LatestLetter(coverLetters, resumeId)
      ensures c.None? <==> forall x :: x in coverLetters ==> x.resumeId != resumeId
    {
      c := LatestLetter(coverLetters, resumeId);
    }

    /** `UPDATE cover_letters SET content = ? WHERE id = ?`. */
    method UpdateCoverLetter(id: Id, content: string) returns (c: Option<CoverLetter>)
      requires Valid()
      modifies this
      ensures Valid()
      ensures var k := LetterIndex(old(coverLetters), id);
              if k < 0 then c.None? && coverLetters == old(coverLetters)
              else c == Some(old(coverLetters)[k].(content := content))
                   && coverLetters == old(coverLetters)[k := c.value]
      ensures users == old(users) && resumes == old(resumes)
      ensures clock == old(clock) && nextId == old(nextId)
    {
      var k := LetterIndex(coverLetters, id);
      if k < 0 {
        c := None;
        return;
      }
      var row := coverLetters[k].(content := content);
      coverLetters := coverLetters[k := row];
      c := Some(row);
    }
  }
}
