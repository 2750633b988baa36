/**
 * Face-verified attendance: one check-in per calendar day, ON_TIME before
 * 08:15, a check-out on the open record, and monthly counts. The face
 * recognition answer, the stored photo's url and the clock are inputs.
 */
module AttendanceService {
  import opened Common
  import opened Lists
  import opened Store

  /** What the recognition service answered. */
  datatype FaceResult = FaceResult(success: bool, userId: Id, confidence: Option<real>, message: string)

  datatype CheckInRequest = CheckInRequest(userId: Id, location: Option<string>, notes: Option<string>)

  datatype CheckOutRequest = CheckOutRequest(userId: Id, location: Option<string>, notes: Option<string>)

  /** 08:15, in seconds after midnight. */
  const LateThreshold: int := 8 * SecondsPerHour + 15 * SecondsPerMinute

  function CheckInStatus(t: Time): AttendanceStatus
  {
    if TimeOfDay(t) < LateThreshold then ON_TIME else LATE
  }

  /**
   * ON_TIME exactly when the time of day is before 08:15 (08:15:00 itself is
   * late), whatever the date; a check-in is never ABSENT or EARLY_LEAVE.
   */
  lemma CheckInStatusRule(t: Time, day: int)
    ensures CheckInStatus(t) == ON_TIME <==> TimeOfDay(t) < 29700
    ensures CheckInStatus(t) == ON_TIME || CheckInStatus(t) == LATE
    ensures CheckInStatus(day * SecondsPerDay + 29700) == LATE
    ensures CheckInStatus(day * SecondsPerDay + 29699) == ON_TIME
  {
    var late := day * SecondsPerDay + 29700;
    assert DayOf(late) == day by {
      assert late / SecondsPerDay == day;
    }
    var onTime := day * SecondsPerDay + 29699;
    assert DayOf(onTime) == day by {
      assert onTime / SecondsPerDay == day;
    }
  }

  /** `findByUserAndDate`: the user's records checked in on the given calendar day. */
  function SameDayRecords(att: map<Id, Attendance>, user: Id, day: int): set<Id>
  {
    set id | id in att && att[id].user == user && DayOf(att[id].checkInTime) == day
  }

  /** `findLatestUncheckedOut`: the user's records without a check-out. */
  function OpenRecords(att: map<Id, Attendance>, user: Id): set<Id>
  {
    set id | id in att && att[id].user == user && att[id].checkOutTime.None?
  }

  function NewAttendance(req: CheckInRequest, now: Time, face: FaceResult, photoUrl: string): Attendance
  {
    Attendance(req.userId, now, None, CheckInStatus(now), Some(photoUrl), None,
               req.location, None, req.notes, face.confidence, true)
  }

  /** A created record is verified, open, and stamped with its check-in status. */
  lemma NewAttendanceDefaults(req: CheckInRequest, now: Time, face: FaceResult, photoUrl: string)
    ensures NewAttendance(req, now, face, photoUrl).isVerified
    ensures NewAttendance(req, now, face, photoUrl).checkOutTime.None?
    ensures NewAttendance(req, now, face, photoUrl).status == ON_TIME <==> TimeOfDay(now) < LateThreshold
  {
  }

  /** `checkIn`. */
  method CheckIn(db: Database, req: CheckInRequest, now: Time, face: FaceResult, photoUrl: string)
    returns (r: Result<Id>)
    requires db.Valid()
    modifies db`attendance, db`users, db`nextId
    ensures db.Valid()
    ensures req.userId !in old(db.users) ==> r == Err(Runtime("User not found"))
    ensures req.userId in old(db.users) && |SameDayRecords(old(db.attendance), req.userId, DayOf(now))| == 1 ==>
      r == Err(Runtime("Already checked in today"))
    ensures req.userId in old(db.users) && |SameDayRecords(old(db.attendance), req.userId, DayOf(now))| > 1 ==>
      r == Err(NonUniqueResult("findByUserAndDate"))
    ensures req.userId in old(db.users) && SameDayRecords(old(db.attendance), req.userId, DayOf(now)) == {}
            && !face.success ==>
      r == Err(Runtime("Face recognition failed: " + face.message))
    ensures req.userId in old(db.users) && SameDayRecords(old(db.attendance), req.userId, DayOf(now)) == {}
            && face.success && face.userId != req.userId ==>
      r == Err(Runtime("Face does not match registered user"))
    ensures r.Ok? <==>
      && req.userId in old(db.users)
      && SameDayRecords(old(db.attendance), req.userId, DayOf(now)) == {}
      && face.success && face.userId == req.userId
    ensures r.Err? ==>
      db.attendance == old(db.attendance) && db.users == old(db.users) && db.nextId == old(db.nextId)
    ensures r.Ok? ==>
      && r.value !in old(db.attendance)
      && db.attendance == old(db.attendance)[r.value := NewAttendance(req, now, face, photoUrl)]
      && db.users == old(db.users)[req.userId := old(db.users)[req.userId].(lastLogin := Some(now))]
      && SameDayRecords(db.attendance, req.userId, DayOf(now)) == {r.value}
  {
    if req.userId !in db.users {
      return Err(Runtime("User not found"));
    }
    var today := SameDayRecords(db.attendance, req.userId, DayOf(now));
    if |today| > 1 {
      return Err(NonUniqueResult("findByUserAndDate"));
    }
    if |today| == 1 {
      return Err(Runtime("Already checked in today"));
    }
    if !face.success {
      return Err(Runtime("Face recognition failed: " + face.message));
    }
    if face.userId != req.userId {
      return Err(Runtime("Face does not match registered user"));
    }
    var id := db.nextId;
    var a := NewAttendance(req, now, face, photoUrl);
    db.attendance := db.attendance[id := a];
    db.nextId := db.nextId + 1;
    db.users := db.users[req.userId := db.users[req.userId].(lastLogin := Some(now))];
    assert SameDayRecords(db.attendance, req.userId, DayOf(now)) == {id};
    r := Ok(id);
  }

  /** `attendance.getNotes() + " | " + notes`: Java prints an absent note as "null". */
  function JavaString(s: Option<string>): string
  {
    if s.Some? then s.value else "null"
  }

  function CheckOutNotes(notes: Option<string>, added: Option<string>): Option<string>
  {
    if added.Some? then Some(JavaString(notes) + " | " + added.value) else notes
  }

  /**
   * Notes are untouched when none are given; otherwise the given note is
   * appended after " | ", behind the check-in note or behind "null".
   */
  lemma CheckOutNotesRule(notes: Option<string>, added: Option<string>)
    ensures added.None? ==> CheckOutNotes(notes, added) == notes
    ensures added.Some? ==>
      var n := CheckOutNotes(notes, added).value;
      && n[|n| - |added.value|..] == added.value
      && n[..|n| - |added.value|] == JavaString(notes) + " | "
    ensures added.Some? && notes.None? ==> CheckOutNotes(notes, added) == Some("null | " + added.value)
  {
    if added.Some? {
      var n := CheckOutNotes(notes, added).value;
      assert n == (JavaString(notes) + " | ") + added.value;
      assert "null" + " | " == "null | ";
    }
  }

  /** A set of one element is that element's singleton. */
  lemma SingletonOf(s: set<Id>, x: Id)
    requires |s| == 1 && x in s
    ensures s == {x}
  {
    assert |s - {x}| == 0;
  }

  /** `checkOut`: the single open record of the user is closed. */
  method CheckOut(db: Database, req: CheckOutRequest, now: Time, face: FaceResult, photoUrl: string)
    returns (r: Result<(Id, Attendance)>)
    requires db.Valid()
    modifies db`attendance
    ensures db.Valid()
    ensures req.userId !in db.users ==> r == Err(Runtime("User not found"))
    ensures req.userId in db.users && OpenRecords(old(db.attendance), req.userId) == {} ==>
      r == Err(Runtime("No check-in record found"))
    ensures req.userId in db.users && |OpenRecords(old(db.attendance), req.userId)| > 1 ==>
      r == Err(NonUniqueResult("findLatestUncheckedOut"))
    ensures req.userId in db.users && |OpenRecords(old(db.attendance), req.userId)| == 1
            && (!face.success || face.userId != req.userId) ==>
      r == Err(Runtime("Face recognition failed"))
    ensures r.Ok? <==>
      && req.userId in db.users
      && |OpenRecords(old(db.attendance), req.userId)| == 1
      && face.success && face.userId == req.userId
    ensures r.Err? ==> db.attendance == old(db.attendance)
    ensures r.Ok? ==>
      var (id, a) := r.value;
      && OpenRecords(old(db.attendance), req.userId) == {id}
      && a == old(db.attendance)[id].(checkOutTime := Some(now), checkOutPhotoUrl := Some(photoUrl),
                                      checkOutLocation := req.location,
                                      notes := CheckOutNotes(old(db.attendance)[id].notes, req.notes))
      && db.attendance == old(db.attendance)[id := a]
      && OpenRecords(db.attendance, req.userId) == {}
  {
    if req.userId !in db.users {
      return Err(Runtime("User not found"));
    }
    var open := OpenRecords(db.attendance, req.userId);
    if open == {} {
      return Err(Runtime("No check-in record found"));
    }
    if |open| > 1 {
      return Err(NonUniqueResult("findLatestUncheckedOut"));
    }
    if !face.success || face.userId != req.userId {
      return Err(Runtime("Face recognition failed"));
    }
    var id :| id in open;
    SingletonOf(open, id);
    var a := db.attendance[id];
    a := a.(checkOutTime := Some(now), checkOutPhotoUrl := Some(photoUrl), checkOutLocation := req.location,
            notes := CheckOutNotes(a.notes, req.notes));
    var att := db.attendance[id := a];
    forall x ensures x in OpenRecords(att, req.userId) <==> x in open - {id} {
      if x == id {
        assert att[x].checkOutTime.Some?;
      } else if x in att {
        assert att[x] == db.attendance[x];
        assert x in OpenRecords(att, req.userId) <==> x in open;
      }
    }
    db.attendance := att;
    r := Ok((id, a));
  }

  /**
   * A forgotten check-out is never repaired: after check-ins on two different
   * days without a check-out, the user has two open records, and from then on
   * every check-out fails on the non-unique query.
   */
  lemma ForgottenCheckOutBlocks(att: map<Id, Attendance>, user: Id, id1: Id, a1: Attendance, id2: Id, a2: Attendance)
    requires OpenRecords(att, user) == {}
    requires id1 !in att && id2 !in att && id1 != id2
    requires a1.user == user && a2.user == user && a1.checkOutTime.None? && a2.checkOutTime.None?
    ensures |OpenRecords(att[id1 := a1][id2 := a2], user)| == 2
  {
    assert OpenRecords(att[id1 := a1][id2 := a2], user) == {id1, id2};
  }

  // ---- Monthly statistics ----

  datatype Statistics = Statistics(totalDays: int, presentDays: int, lateDays: int)

  /** The end of the query window as written: the month's last day at 00:00. */
  function WindowEndAsWritten(monthStart: Time, daysInMonth: nat): Time
  {
    monthStart + (daysInMonth - 1) * SecondsPerDay
  }

  /** A check-in at 09:00 on the last day of a month falls outside the window as written. */
  lemma WindowAsWrittenMissesLastDay(monthStart: Time, daysInMonth: nat)
    requires daysInMonth >= 1
    ensures var t := monthStart + (daysInMonth - 1) * SecondsPerDay + 9 * SecondsPerHour;
      && monthStart <= t < monthStart + daysInMonth * SecondsPerDay
      && t > WindowEndAsWritten(monthStart, daysInMonth)
  {
  }

  /** The end of the month: its last second, so that BETWEEN covers every day of it. */
  function WindowEnd(monthStart: Time, daysInMonth: nat): Time
  {
    monthStart + daysInMonth * SecondsPerDay - 1
  }

  /** The corrected window holds exactly the times of the month's days. */
  lemma WindowCoversMonth(monthStart: Time, daysInMonth: nat, t: Time)
    ensures monthStart <= t <= WindowEnd(monthStart, daysInMonth)
      <==> monthStart <= t < monthStart + daysInMonth * SecondsPerDay
  {
  }

  /** `findByUserAndDateRange`: the user's records checked in between `start` and `end`, both included. */
  function RecordsBetween(records: seq<Attendance>, user: Id, start: Time, end: Time): seq<Attendance>
  {
    Filter(records, (a: Attendance) => a.user == user && start <= a.checkInTime <= end)
  }

  /** The records `getUserStatistics` reads, over the window as written. */
  function MonthRecords(records: seq<Attendance>, user: Id, monthStart: Time, daysInMonth: nat): seq<Attendance>
  {
    RecordsBetween(records, user, monthStart, WindowEndAsWritten(monthStart, daysInMonth))
  }

  /** The records of the whole month, over the corrected window. */
  function MonthRecordsIntended(records: seq<Attendance>, user: Id, monthStart: Time, daysInMonth: nat): seq<Attendance>
  {
    RecordsBetween(records, user, monthStart, WindowEnd(monthStart, daysInMonth))
  }

  predicate Present(a: Attendance) { a.status != ABSENT }
  predicate Late(a: Attendance) { a.status == LATE }

  /** The counting part of `getUserStatistics` over the records of one window. */
  function Counts(month: seq<Attendance>): Statistics
  {
    Statistics(|month|, |Filter(month, Present)|, |Filter(month, Late)|)
  }

  /**
   * `getTotalWorkingHours` is a SUM over the user's records of the calendar
   * month, which SQL makes NULL unless some of them has a check-out.
   */
  predicate HoursKnown(records: seq<Attendance>, user: Id, monthStart: Time, daysInMonth: nat)
  {
    exists i :: 0 <= i < |records| && records[i].user == user && records[i].checkOutTime.Some?
      && monthStart <= records[i].checkInTime < monthStart + daysInMonth * SecondsPerDay
  }

  /**
   * `getUserStatistics` as written; the month is given by its first instant
   * and its length. The average divides the total hours without the null
   * check the total gets, so a present day with no hours known throws.
   */
  function GetUserStatistics(users: map<Id, User>, records: seq<Attendance>, user: Id,
                             monthStart: Time, daysInMonth: nat): Result<Statistics>
  {
    if user !in users then Err(Runtime("User not found"))
    else
      var counts := Counts(MonthRecords(records, user, monthStart, daysInMonth));
      if counts.presentDays > 0 && !HoursKnown(records, user, monthStart, daysInMonth) then
        Err(NullUnboxing("totalHours"))
      else Ok(counts)
  }

  /** `getUserStatistics` with the window ending at the month's last second and the average guarded like the total. */
  function GetUserStatisticsIntended(users: map<Id, User>, records: seq<Attendance>, user: Id,
                                     monthStart: Time, daysInMonth: nat): Result<Statistics>
  {
    if user !in users then Err(Runtime("User not found"))
    else Ok(Counts(MonthRecordsIntended(records, user, monthStart, daysInMonth)))
  }

  /** Late days are present days, present days are days with a record. */
  lemma CountsOrdered(month: seq<Attendance>)
    ensures 0 <= Counts(month).lateDays <= Counts(month).presentDays <= Counts(month).totalDays
  {
    FilterStronger(month, Late, Present);
  }

  /**
   * lateDays ≤ presentDays ≤ totalDays in both versions. As written, the call
   * fails for an unknown user and for a present day without known hours; the
   * corrected version fails only for an unknown user.
   */
  lemma StatisticsOrdered(users: map<Id, User>, records: seq<Attendance>, user: Id, monthStart: Time, daysInMonth: nat)
    ensures GetUserStatistics(users, records, user, monthStart, daysInMonth).Err? <==>
      user !in users
      || (|Filter(MonthRecords(records, user, monthStart, daysInMonth), Present)| > 0
          && !HoursKnown(records, user, monthStart, daysInMonth))
    ensures GetUserStatistics(users, records, user, monthStart, daysInMonth).Ok? ==>
      var s := GetUserStatistics(users, records, user, monthStart, daysInMonth).value;
      0 <= s.lateDays <= s.presentDays <= s.totalDays <= |records|
    ensures GetUserStatisticsIntended(users, records, user, monthStart, daysInMonth).Err? <==> user !in users
    ensures GetUserStatisticsIntended(users, records, user, monthStart, daysInMonth).Ok? ==>
      var s := GetUserStatisticsIntended(users, records, user, monthStart, daysInMonth).value;
      0 <= s.lateDays <= s.presentDays <= s.totalDays <= |records|
  {
    if user in users {
      CountsOrdered(MonthRecords(records, user, monthStart, daysInMonth));
      CountsOrdered(MonthRecordsIntended(records, user, monthStart, daysInMonth));
    }
  }

  /**
   * A user who has checked in on the month's first day and not yet out gets
   * a NullPointerException as written, and one present day when corrected.
   */
  lemma OpenMonthStatisticsFail(users: map<Id, User>, user: Id, monthStart: Time, daysInMonth: nat, a: Attendance)
    requires user in users && daysInMonth >= 2
    requires a.user == user && a.status != ABSENT && a.checkOutTime.None?
    requires a.checkInTime == monthStart + 9 * SecondsPerHour
    ensures GetUserStatistics(users, [a], user, monthStart, daysInMonth) == Err(NullUnboxing("totalHours"))
    ensures GetUserStatisticsIntended(users, [a], user, monthStart, daysInMonth).value.presentDays == 1
  {
    assert [a][0] == a;
    assert MonthRecords([a], user, monthStart, daysInMonth) == [a];
    assert Filter([a], Present) == [a];
    assert MonthRecordsIntended([a], user, monthStart, daysInMonth) == [a];
  }

  /**
   * As written, the statistics read exactly the user's records checked in from
   * the month's first instant up to 00:00 of its last day.
   */
  lemma MonthRecordsAsWritten(records: seq<Attendance>, user: Id, monthStart: Time, daysInMonth: nat)
    requires daysInMonth >= 1
    ensures forall i :: 0 <= i < |MonthRecords(records, user, monthStart, daysInMonth)| ==>
      var a := MonthRecords(records, user, monthStart, daysInMonth)[i];
      a.user == user && monthStart <= a.checkInTime <= monthStart + (daysInMonth - 1) * SecondsPerDay
    ensures forall i :: 0 <= i < |records| && records[i].user == user
                        && monthStart <= records[i].checkInTime <= monthStart + (daysInMonth - 1) * SecondsPerDay ==>
      records[i] in MonthRecords(records, user, monthStart, daysInMonth)
  {
  }

  /** With the corrected window, the records are exactly the user's records checked in on a day of the month. */
  lemma MonthRecordsInMonth(records: seq<Attendance>, user: Id, monthStart: Time, daysInMonth: nat)
    ensures forall i :: 0 <= i < |MonthRecordsIntended(records, user, monthStart, daysInMonth)| ==>
      var a := MonthRecordsIntended(records, user, monthStart, daysInMonth)[i];
      a.user == user && monthStart <= a.checkInTime < monthStart + daysInMonth * SecondsPerDay
    ensures forall i :: 0 <= i < |records| && records[i].user == user
                        && monthStart <= records[i].checkInTime < monthStart + daysInMonth * SecondsPerDay ==>
      records[i] in MonthRecordsIntended(records, user, monthStart, daysInMonth)
  {
  }

  /** Check-ins of the user after 00:00 of the month's last day: the ones the code as written misses. */
  predicate LateOnLastDay(a: Attendance, user: Id, monthStart: Time, daysInMonth: nat)
  {
    a.user == user && WindowEndAsWritten(monthStart, daysInMonth) < a.checkInTime <= WindowEnd(monthStart, daysInMonth)
  }

  /**
   * The two versions agree whenever the user has no check-in after 00:00 of
   * the month's last day; otherwise the code as written counts fewer days.
   */
  lemma {:induction false} StatisticsAgreeOffLastDay(records: seq<Attendance>, user: Id, monthStart: Time, daysInMonth: nat)
    requires daysInMonth >= 1
    ensures |MonthRecords(records, user, monthStart, daysInMonth)|
            <= |MonthRecordsIntended(records, user, monthStart, daysInMonth)|
    ensures (forall i :: 0 <= i < |records| ==> !LateOnLastDay(records[i], user, monthStart, daysInMonth)) ==>
      MonthRecords(records, user, monthStart, daysInMonth) == MonthRecordsIntended(records, user, monthStart, daysInMonth)
    ensures (exists i :: 0 <= i < |records| && LateOnLastDay(records[i], user, monthStart, daysInMonth)) ==>
      |MonthRecords(records, user, monthStart, daysInMonth)|
      < |MonthRecordsIntended(records, user, monthStart, daysInMonth)|
    decreases |records|
  {
    if records != [] {
      var init := records[..|records| - 1];
      var last := records[|records| - 1];
      StatisticsAgreeOffLastDay(init, user, monthStart, daysInMonth);
      assert forall i :: 0 <= i < |init| ==> init[i] == records[i];
      if !LateOnLastDay(last, user, monthStart, daysInMonth) {
        if exists i :: 0 <= i < |records| && LateOnLastDay(records[i], user, monthStart, daysInMonth) {
          var i :| 0 <= i < |records| && LateOnLastDay(records[i], user, monthStart, daysInMonth);
          assert i < |init| && LateOnLastDay(init[i], user, monthStart, daysInMonth);
        }
      }
    }
  }

  /** One record at 09:00 on the last day: no day counted as written, one day counted with the corrected window. */
  lemma LastDayCheckInUncounted(users: map<Id, User>, user: Id, monthStart: Time, daysInMonth: nat, a: Attendance)
    requires user in users && daysInMonth >= 1
    requires a.user == user && a.checkInTime == monthStart + (daysInMonth - 1) * SecondsPerDay + 9 * SecondsPerHour
    ensures GetUserStatistics(users, [a], user, monthStart, daysInMonth).value.totalDays == 0
    ensures GetUserStatisticsIntended(users, [a], user, monthStart, daysInMonth).value.totalDays == 1
  {
    assert MonthRecords([a], user, monthStart, daysInMonth) == [];
    assert [a][0] == a;
    assert MonthRecordsIntended([a], user, monthStart, daysInMonth) == [a];
  }
}
