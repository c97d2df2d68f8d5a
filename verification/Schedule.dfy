/** The timetable cache: course rules (course_templates) and the (user, week, day) bitmask table
    (schedules) that rebuildUserSchedules derives from them (server/business/BusinessServer.cpp). */
module ScheduleModel {
  import opened Common

  /** A 32-bit mask as the set of its one bits: bitwise or is union, bitwise and is intersection. */
  type Mask = set<nat>

  datatype Rule = Rule(day: int, mask: Mask, startWeek: int, endWeek: int, weekType: int)

  /** A row of course_templates; None stands for NULL. */
  datatype Row = Row(user: Option<int>, class_: Option<string>, rule: Rule)

  const WEEKS: nat := 16
  const DAYS: nat := 7

  predicate OnGrid(week: int, day: int) { 1 <= week <= WEEKS && 1 <= day <= DAYS }

  /** A rule occupies its mask in this week and on this day: range and odd/even weeks. */
  predicate Active(r: Rule, week: int, day: int) {
    && r.day == day && r.startWeek <= week <= r.endWeek
    && (r.weekType == 1 ==> week % 2 == 1) && (r.weekType == 2 ==> week % 2 == 0)
  }

  /** The rules a SELECT with user_id = user AND class_identifier IS NULL returns. */
  function PersonalRules(rows: seq<Row>, user: int): seq<Rule> {
    if rows == [] then []
    else (if rows[0].user == Some(user) && rows[0].class_ == None then [rows[0].rule] else [])
         + PersonalRules(rows[1..], user)
  }

  function DayMask(rules: seq<Rule>, week: int, day: int): Mask {
    if rules == [] then {}
    else Part(rules[0], week, day) + DayMask(rules[1..], week, day)
  }

  function Part(r: Rule, week: int, day: int): Mask { if Active(r, week, day) then r.mask else {} }

  /** The test (mask & m) != 0. */
  predicate Meets(mask: Mask, m: Mask) { mask * m != {} }

  /** A bit is set exactly when a rule sets it that names the day, spans the week and fits its parity. */
  lemma {:induction false} DayMaskBits(rules: seq<Rule>, week: int, day: int, bit: nat)
    ensures bit in DayMask(rules, week, day) <==>
      exists r <- rules ::
        && bit in r.mask && r.day == day && r.startWeek <= week && week <= r.endWeek
        && !(r.weekType == 1 && week % 2 == 0) && !(r.weekType == 2 && week % 2 == 1)
  {
    if rules == [] {
    } else {
      DayMaskBits(rules[1..], week, day, bit);
      assert rules == [rules[0]] + rules[1..];
    }
  }

  lemma {:induction false} DayMaskAppend(rules: seq<Rule>, r: Rule, week: int, day: int)
    ensures DayMask(rules + [r], week, day) == DayMask(rules, week, day) + Part(r, week, day)
  {
    if rules == [] {
      assert (rules + [r])[1..] == [];
    } else {
      assert (rules + [r])[1..] == rules[1..] + [r];
      DayMaskAppend(rules[1..], r, week, day);
    }
  }

  /** The availability test on a derived mask is the test against every active rule. */
  lemma {:induction false} FreeIff(rules: seq<Rule>, week: int, day: int, m: Mask)
    ensures !Meets(DayMask(rules, week, day), m) <==> forall r <- rules | Active(r, week, day) :: !Meets(r.mask, m)
  {
    if rules == [] {
    } else {
      FreeIff(rules[1..], week, day, m);
      var first := Part(rules[0], week, day);
      assert (first + DayMask(rules[1..], week, day)) * m == first * m + DayMask(rules[1..], week, day) * m;
      assert rules == [rules[0]] + rules[1..];
    }
  }

  // ---------------------------------------------------------------------------------------
  // Uploads
  // ---------------------------------------------------------------------------------------

  /** One course of an upload; a malformed one makes the handler throw and roll back. */
  datatype Course = Course(rule: Rule) | Malformed

  datatype Upload = Upload(user: int, courses: seq<Course>, isPublic: bool, targetClass: string)

  datatype Store = Store(templates: seq<Row>, schedules: map<(int, int, int), Mask>)

  predicate WellFormed(courses: seq<Course>) { forall c <- courses :: c.Course? }

  /** The rows an upload owns: it deletes them first and then inserts its own. */
  predicate Owns(up: Upload, row: Row) {
    if up.isPublic then row.class_ == Some(up.targetClass) && row.user == None
    else row.user == Some(up.user) && row.class_ == None
  }

  function NewRow(up: Upload, rule: Rule): Row {
    if up.isPublic then Row(None, Some(up.targetClass), rule) else Row(Some(up.user), None, rule)
  }

  function Without(rows: seq<Row>, up: Upload): seq<Row> {
    if rows == [] then [] else (if Owns(up, rows[0]) then [] else [rows[0]]) + Without(rows[1..], up)
  }

  function RowsOf(up: Upload, courses: seq<Course>): seq<Row>
    requires WellFormed(courses)
  {
    if courses == [] then [] else [NewRow(up, courses[0].rule)] + RowsOf(up, courses[1..])
  }

  function RulesOf(courses: seq<Course>): seq<Rule>
    requires WellFormed(courses)
  {
    if courses == [] then [] else [courses[0].rule] + RulesOf(courses[1..])
  }

  /** The cache says for user what user's personal rules say, on the whole grid. */
  ghost predicate Agrees(s: Store, user: int) {
    forall w, d | OnGrid(w, d) :: (user, w, d) in s.schedules
      && s.schedules[(user, w, d)] == DayMask(PersonalRules(s.templates, user), w, d)
  }

  ghost predicate SameRowsExcept(before: map<(int, int, int), Mask>, after: map<(int, int, int), Mask>, user: int) {
    forall u, w, d | u != user || !OnGrid(w, d) ::
      ((u, w, d) in after <==> (u, w, d) in before) && ((u, w, d) in before ==> after[(u, w, d)] == before[(u, w, d)])
  }

  /** What a handled upload does, successful or rolled back. */
  ghost predicate Handled(s: Store, up: Upload, t: Store) {
    if WellFormed(up.courses) then
      && t.templates == Without(s.templates, up) + RowsOf(up, up.courses)
      && Agrees(t, up.user) && SameRowsExcept(s.schedules, t.schedules, up.user)
    else t == s
  }

  lemma {:induction false} PersonalAppend(x: seq<Row>, y: seq<Row>, user: int)
    ensures PersonalRules(x + y, user) == PersonalRules(x, user) + PersonalRules(y, user)
  {
    if x == [] {
      assert x + y == y;
    } else {
      assert (x + y)[1..] == x[1..] + y;
      PersonalAppend(x[1..], y, user);
    }
  }

  lemma {:induction false} PersonalWithout(rows: seq<Row>, up: Upload, user: int)
    ensures PersonalRules(Without(rows, up), user) ==
            if !up.isPublic && user == up.user then [] else PersonalRules(rows, user)
  {
    if rows == [] {
    } else {
      PersonalWithout(rows[1..], up, user);
      PersonalAppend(if Owns(up, rows[0]) then [] else [rows[0]], Without(rows[1..], up), user);
    }
  }

  lemma {:induction false} PersonalNew(up: Upload, courses: seq<Course>, user: int)
    requires WellFormed(courses)
    ensures PersonalRules(RowsOf(up, courses), user) ==
            if !up.isPublic && user == up.user then RulesOf(courses) else []
  {
    if courses == [] {
    } else {
      PersonalNew(up, courses[1..], user);
      assert RowsOf(up, courses)[1..] == RowsOf(up, courses[1..]);
    }
  }

  /** After a successful upload the uploading user's personal rules are exactly the uploaded ones
      (a public upload changes nobody's), and everybody else's are what they were. */
  lemma UploadRules(s: Store, up: Upload, t: Store, user: int)
    requires Handled(s, up, t) && WellFormed(up.courses)
    ensures PersonalRules(t.templates, user) ==
            if !up.isPublic && user == up.user then RulesOf(up.courses) else PersonalRules(s.templates, user)
  {
    PersonalAppend(Without(s.templates, up), RowsOf(up, up.courses), user);
    PersonalWithout(s.templates, up, user);
    PersonalNew(up, up.courses, user);
  }

  /** The rules of the template of class k: user_id IS NULL AND class_identifier = k. */
  function ClassRules(rows: seq<Row>, k: string): seq<Rule> {
    if rows == [] then []
    else (if rows[0].user == None && rows[0].class_ == Some(k) then [rows[0].rule] else [])
         + ClassRules(rows[1..], k)
  }

  lemma {:induction false} ClassAppend(x: seq<Row>, y: seq<Row>, k: string)
    ensures ClassRules(x + y, k) == ClassRules(x, k) + ClassRules(y, k)
  {
    if x == [] {
      assert x + y == y;
    } else {
      assert (x + y)[1..] == x[1..] + y;
      ClassAppend(x[1..], y, k);
    }
  }

  lemma {:induction false} ClassWithout(rows: seq<Row>, up: Upload, k: string)
    ensures ClassRules(Without(rows, up), k) == if up.isPublic && k == up.targetClass then [] else ClassRules(rows, k)
  {
    if rows == [] {
    } else {
      ClassWithout(rows[1..], up, k);
      ClassAppend(if Owns(up, rows[0]) then [] else [rows[0]], Without(rows[1..], up), k);
    }
  }

  lemma {:induction false} ClassNew(up: Upload, courses: seq<Course>, k: string)
    requires WellFormed(courses)
    ensures ClassRules(RowsOf(up, courses), k) == if up.isPublic && k == up.targetClass then RulesOf(courses) else []
  {
    if courses == [] {
    } else {
      ClassNew(up, courses[1..], k);
      assert RowsOf(up, courses)[1..] == RowsOf(up, courses[1..]);
    }
  }

  /** After a successful public upload the template of the target class is exactly the uploaded rules;
      every other class keeps its template, and a personal upload changes none. */
  lemma UploadClassRules(s: Store, up: Upload, t: Store, k: string)
    requires Handled(s, up, t) && WellFormed(up.courses)
    ensures ClassRules(t.templates, k) ==
            if up.isPublic && k == up.targetClass then RulesOf(up.courses) else ClassRules(s.templates, k)
  {
    ClassAppend(Without(s.templates, up), RowsOf(up, up.courses), k);
    ClassWithout(s.templates, up, k);
    ClassNew(up, up.courses, k);
  }

  /** The rows that a SELECT with some other condition returns, in order. */
  function Chosen(rows: seq<Row>, keep: Row -> bool): seq<Row> {
    if rows == [] then [] else (if keep(rows[0]) then [rows[0]] else []) + Chosen(rows[1..], keep)
  }

  lemma {:induction false} ChosenAppend(x: seq<Row>, y: seq<Row>, keep: Row -> bool)
    ensures Chosen(x + y, keep) == Chosen(x, keep) + Chosen(y, keep)
  {
    if x == [] {
      assert x + y == y;
    } else {
      assert (x + y)[1..] == x[1..] + y;
      ChosenAppend(x[1..], y, keep);
    }
  }

  /** The condition is met by no row of the user (personal upload) or of the class (public upload). */
  ghost predicate Elsewhere(up: Upload, keep: Row -> bool) {
    forall row | keep(row) ::
      if up.isPublic then row.user != None || row.class_ != Some(up.targetClass)
      else row.user != Some(up.user) || row.class_ != None
  }

  lemma {:induction false} ChosenWithout(rows: seq<Row>, up: Upload, keep: Row -> bool)
    requires Elsewhere(up, keep)
    ensures Chosen(Without(rows, up), keep) == Chosen(rows, keep)
  {
    if rows == [] {
    } else {
      ChosenWithout(rows[1..], up, keep);
      ChosenAppend(if Owns(up, rows[0]) then [] else [rows[0]], Without(rows[1..], up), keep);
    }
  }

  lemma {:induction false} ChosenNew(up: Upload, courses: seq<Course>, keep: Row -> bool)
    requires WellFormed(courses) && Elsewhere(up, keep)
    ensures Chosen(RowsOf(up, courses), keep) == []
  {
    if courses == [] {
    } else {
      ChosenNew(up, courses[1..], keep);
      assert RowsOf(up, courses)[1..] == RowsOf(up, courses[1..]);
    }
  }

  /** An upload, successful or not, changes nothing for a SELECT that asks for other rows; in particular
      rows with both a user and a class, or with neither, stay. */
  lemma UploadKeepsOthers(s: Store, up: Upload, t: Store, keep: Row -> bool)
    requires Handled(s, up, t) && Elsewhere(up, keep)
    ensures Chosen(t.templates, keep) == Chosen(s.templates, keep)
  {
    if WellFormed(up.courses) {
      ChosenAppend(Without(s.templates, up), RowsOf(up, up.courses), keep);
      ChosenWithout(s.templates, up, keep);
      ChosenNew(up, up.courses, keep);
    }
  }

  /** Such rows, by themselves. */
  lemma UploadKeepsLoose(s: Store, up: Upload, t: Store)
    requires Handled(s, up, t)
    ensures var loose := (row: Row) => row.user.Some? == row.class_.Some?;
            Chosen(t.templates, loose) == Chosen(s.templates, loose)
  {
    UploadKeepsOthers(s, up, t, (row: Row) => row.user.Some? == row.class_.Some?);
  }

  lemma UploadKeepsAgreement(s: Store, up: Upload, t: Store, user: int)
    requires Handled(s, up, t) && (Agrees(s, user) || (WellFormed(up.courses) && user == up.user))
    ensures Agrees(t, user)
  {
    if WellFormed(up.courses) && user != up.user {
      UploadRules(s, up, t, user);
    }
  }

  /** A history of stores, each reached from the one before by handling one upload. */
  ghost predicate History(stores: seq<Store>, ups: seq<Upload>) {
    |stores| == |ups| + 1 && forall i | 0 <= i < |ups| :: Handled(stores[i], ups[i], stores[i+1])
  }

  /** The user's schedule was rebuilt by a successful upload among the first n. */
  predicate Rebuilt(ups: seq<Upload>, n: nat, user: int)
    requires n <= |ups|
  {
    n > 0 && ((WellFormed(ups[n-1].courses) && ups[n-1].user == user) || Rebuilt(ups, n - 1, user))
  }

  /** Over any sequence of personal and public uploads, successful or rolled back: the cache agrees
      with the personal rules of every user that was ever rebuilt, and no row of any other user
      has been touched. */
  lemma {:induction false} CacheAgrees(stores: seq<Store>, ups: seq<Upload>, n: nat, user: int)
    requires History(stores, ups) && n <= |ups|
    ensures Rebuilt(ups, n, user) ==> Agrees(stores[n], user)
    ensures !Rebuilt(ups, n, user) ==> forall w, d ::
              ((user, w, d) in stores[n].schedules <==> (user, w, d) in stores[0].schedules)
              && ((user, w, d) in stores[0].schedules ==>
                 stores[n].schedules[(user, w, d)] == stores[0].schedules[(user, w, d)])
  {
    if n == 0 {
    } else {
      CacheAgrees(stores, ups, n - 1, user);
      assert Handled(stores[n-1], ups[n-1], stores[n-1+1]);
      if Rebuilt(ups, n, user) { UploadKeepsAgreement(stores[n-1], ups[n-1], stores[n], user); }
    }
  }

  /** So the availability test on the cache (a missing row counts as 0) finds a rebuilt user free
      exactly when no active personal rule meets the mask. */
  lemma AvailabilityIsRight(stores: seq<Store>, ups: seq<Upload>, user: int, week: int, day: int, m: Mask)
    requires History(stores, ups) && Rebuilt(ups, |ups|, user) && OnGrid(week, day)
    ensures var s := stores[|ups|];
            !Meets(Looked(s.schedules, user, week, day), m) <==>
            forall r <- PersonalRules(s.templates, user) | Active(r, week, day) :: !Meets(r.mask, m)
  {
    CacheAgrees(stores, ups, |ups|, user);
    FreeIff(PersonalRules(stores[|ups|].templates, user), week, day, m);
  }

  /** COALESCE(day_bitmask, 0) of the joined row. */
  function Looked(schedules: map<(int, int, int), Mask>, user: int, week: int, day: int): Mask {
    if (user, week, day) in schedules then schedules[(user, week, day)] else {}
  }
}

/** The mutable tables and the handlers that write them. */
module ScheduleObjects {
  import opened ScheduleModel

  class Database {
    var templates: seq<Row>
    var schedules: map<(int, int, int), Mask>

    constructor ()
      ensures View() == Store([], map[])
    { templates, schedules := [], map[]; }

    function View(): Store reads this { Store(templates, schedules) }

    /** rebuildUserSchedules. */
    method RebuildUserSchedules(user: int)
      modifies this`schedules
      ensures Agrees(View(), user) && SameRowsExcept(old(schedules), schedules, user)
      ensures forall w, d | 1 <= w <= 16 && 1 <= d <= 7 :: (user, w, d) in schedules
      ensures forall u, w, d | u != user ::
        ((u, w, d) in schedules <==> (u, w, d) in old(schedules))
              && ((u, w, d) in old(schedules) ==> schedules[(u, w, d)] == old(schedules)[(u, w, d)])
    {
      var rules := PersonalRules(templates, user);
      for week := 1 to WEEKS + 1
        invariant SameRowsExcept(old(schedules), schedules, user)
        invariant forall w, d | 1 <= w < week && 1 <= d <= DAYS ::
          (user, w, d) in schedules && schedules[(user, w, d)] == DayMask(rules, w, d)
      {
        RebuildWeek(user, rules, week);
      }
    }

    method RebuildWeek(user: int, rules: seq<Rule>, week: int)
      requires 1 <= week <= WEEKS
      modifies this`schedules
      ensures forall d | 1 <= d <= DAYS ::
        (user, week, d) in schedules && schedules[(user, week, d)] == DayMask(rules, week, d)
      ensures forall u, w, d | u != user || w != week || !OnGrid(w, d) ::
        ((u, w, d) in schedules <==> (u, w, d) in old(schedules))
              && ((u, w, d) in old(schedules) ==> schedules[(u, w, d)] == old(schedules)[(u, w, d)])
    {
      for day := 1 to DAYS + 1
        invariant forall d | 1 <= d < day ::
          (user, week, d) in schedules && schedules[(user, week, d)] == DayMask(rules, week, d)
        invariant forall u, w, d | u != user || w != week || !OnGrid(w, d) ::
          ((u, w, d) in schedules <==> (u, w, d) in old(schedules))
                && ((u, w, d) in old(schedules) ==> schedules[(u, w, d)] == old(schedules)[(u, w, d)])
      {
        var dayMask := MaskOfDay(rules, week, day);
        schedules := schedules[(user, week, day) := dayMask];
      }
    }

    /** The innermost loop: OR the masks of the rules that are active. */
    static method MaskOfDay(rules: seq<Rule>, week: int, day: int) returns (dayMask: Mask)
      ensures dayMask == DayMask(rules, week, day)
    {
      dayMask := {};
      for i := 0 to |rules|
        invariant dayMask == DayMask(rules[..i], week, day)
      {
        assert rules[..i+1] == rules[..i] + [rules[i]];
        DayMaskAppend(rules[..i], rules[i], week, day);
        var rule := rules[i];
        if rule.day != day { continue; }
        if week < rule.startWeek || week > rule.endWeek { continue; }
        if rule.weekType == 1 && week % 2 == 0 { continue; }
        if rule.weekType == 2 && week % 2 == 1 { continue; }
        dayMask := dayMask + rule.mask;
      }
      assert rules[..|rules|] == rules;
    }

    /** handleUploadSchedule inside its transaction: delete the owned rows, insert the courses one by
        one, then commit and rebuild, or roll everything back at the first malformed course. */
    method HandleUploadSchedule(up: Upload) returns (ok: bool)
      modifies this
      ensures ok <==> WellFormed(up.courses)
      ensures Handled(old(View()), up, View())
      ensures !ok ==> templates == old(templates) && schedules == old(schedules)
    {
      var saved := templates;
      templates := Without(templates, up);
      ghost var kept := templates;
      for i := 0 to |up.courses|
        invariant WellFormed(up.courses[..i]) && templates == kept + RowsOf(up, up.courses[..i])
        invariant schedules == old(schedules)
      {
        if up.courses[i].Malformed? {
          assert up.courses[i] in up.courses;
          templates := saved;
          return false;
        }
        assert up.courses[..i+1] == up.courses[..i] + [up.courses[i]];
        RowsAppend(up, up.courses[..i], up.courses[i]);
        templates := templates + [NewRow(up, up.courses[i].rule)];
      }
      assert up.courses[..|up.courses|] == up.courses;
      RebuildUserSchedules(up.user);
      ok := true;
    }

    /** The test of handleGetTimeSlotAnalytics. */
    method IsFree(user: int, week: int, day: int, checkMask: Mask) returns (free: bool)
      ensures free <==> !Meets(Looked(schedules, user, week, day), checkMask)
      ensures free <==> (user, week, day) !in schedules || schedules[(user, week, day)] * checkMask == {}
      ensures OnGrid(week, day) && Agrees(View(), user) ==>
        (free <==> forall r <- PersonalRules(templates, user) | Active(r, week, day) :: !Meets(r.mask, checkMask))
    {
      FreeIff(PersonalRules(templates, user), week, day, checkMask);
      free := !Meets(Looked(schedules, user, week, day), checkMask);
    }
  }

  lemma {:induction false} RowsAppend(up: Upload, courses: seq<Course>, c: Course)
    requires WellFormed(courses) && c.Course?
    ensures WellFormed(courses + [c]) && RowsOf(up, courses + [c]) == RowsOf(up, courses) + [NewRow(up, c.rule)]
  {
    if courses == [] {
      assert (courses + [c])[1..] == [];
    } else {
      assert (courses + [c])[1..] == courses[1..] + [c];
      RowsAppend(up, courses[1..], c);
    }
  }
}
