/** `scheduleReminders` and `nextReminderDate` of lib/scheduler.ts.
    For every unpaid invoice the scheduler lists its reminder points
    (one per "before" offset, one on the due date, one per "after"
    offset), shifts each to the next weekday when asked, drops those
    before `now`, renders the texts and returns everything sorted by
    time. The clock is the parameter `now`, an instant in local minutes. */
module Scheduler {
  import opened Wrappers
  import opened Strings
  import opened Types
  import opened Calendar
  import opened Template

  /** `toISOString` throws a RangeError on the Invalid Date that an
      unreadable due date gives. */
  datatype ScheduleError = InvalidDate

  /** An entry of the per-invoice `schedule` array. */
  datatype Point = Point(day: int, kind: Kind, phrase: string)

  function Shift(day: int, weekdaysOnly: bool): int {
    if weekdaysOnly then FirstWeekdayFrom(day) else day
  }

  function BeforePoint(due: int, d: int, weekdaysOnly: bool): Point {
    Point(Shift(due - d, weekdaysOnly), Before, IntToString(d) + " day(s) before due date")
  }

  function OnPoint(due: int, weekdaysOnly: bool): Point {
    Point(Shift(due, weekdaysOnly), On, "on the due date")
  }

  function AfterPoint(due: int, d: int, weekdaysOnly: bool): Point {
    Point(Shift(due + d, weekdaysOnly), After, IntToString(d) + " day(s) after due date")
  }

  function BeforePoints(due: int, days: seq<int>, weekdaysOnly: bool): (r: seq<Point>)
    ensures |r| == |days|
  {
    seq(|days|, i requires 0 <= i < |days| => BeforePoint(due, days[i], weekdaysOnly))
  }

  function AfterPoints(due: int, days: seq<int>, weekdaysOnly: bool): (r: seq<Point>)
    ensures |r| == |days|
  {
    seq(|days|, i requires 0 <= i < |days| => AfterPoint(due, days[i], weekdaysOnly))
  }

  function OnPoints(due: int, rules: Rules): seq<Point> {
    if rules.onDue then [OnPoint(due, rules.weekdaysOnly)] else []
  }

  /** The reminder points of an invoice due on day `due`, in generation
      order: befores, then on-due, then afters. Offsets are not
      de-duplicated. */
  function Candidates(due: int, rules: Rules): seq<Point> {
    BeforePoints(due, rules.beforeDays, rules.weekdaysOnly)
      + OnPoints(due, rules)
      + AfterPoints(due, rules.afterDays, rules.weekdaysOnly)
  }

  function PointCount(rules: Rules): nat {
    |rules.beforeDays| + (if rules.onDue then 1 else 0) + |rules.afterDays|
  }

  function ReminderId(inv: Invoice, day: int, kind: Kind): string {
    inv.id + "-" + ToISODate(day) + "-" + KindName(kind)
  }

  function MakeReminder(inv: Invoice, p: Point, settings: Settings, fmt: MoneyFormat): Reminder {
    Reminder(ReminderId(inv, p.day, p.kind), inv.id, At(p.day), p.kind, None, inv.clientEmail,
             Interpolate(settings.subject, inv, settings, p.phrase, fmt),
             Interpolate(settings.body, inv, settings, p.phrase, fmt))
  }

  /** The reminders of the points not before `now`, in point order. */
  function Emit(inv: Invoice, pts: seq<Point>, settings: Settings, now: int, fmt: MoneyFormat): (r: seq<Reminder>)
    ensures |r| <= |pts|
    decreases |pts|
  {
    if pts == [] then []
    else
      var prev := Emit(inv, pts[..|pts| - 1], settings, now, fmt);
      var p := pts[|pts| - 1];
      if At(p.day) < now then prev else prev + [MakeReminder(inv, p, settings, fmt)]
  }

  /** What one invoice contributes, or the error its invalid due date
      raises once a point of it is rendered. */
  function ForInvoice(inv: Invoice, settings: Settings, now: int, fmt: MoneyFormat): Result<seq<Reminder>, ScheduleError> {
    if inv.paid then Ok([])
    else match ParseIsoDay(inv.dueDate)
      case None => if PointCount(settings.rules) == 0 then Ok([]) else Err(InvalidDate)
      case Some(due) => Ok(Emit(inv, Candidates(due, settings.rules), settings, now, fmt))
  }

  /** What each invoice contributes. The list-level lemmas below take it
      as a parameter so that they need not look inside. */
  type Part = Invoice -> Result<seq<Reminder>, ScheduleError>

  function PartOf(settings: Settings, now: int, fmt: MoneyFormat): Part {
    inv => ForInvoice(inv, settings, now, fmt)
  }

  /** A loop over the invoices that appends what each contributes and
      stops at the first error. */
  function Gather(invoices: seq<Invoice>, part: Part): Result<seq<Reminder>, ScheduleError>
    decreases |invoices|
  {
    if invoices == [] then Ok([])
    else match Gather(invoices[..|invoices| - 1], part)
      case Err(e) => Err(e)
      case Ok(prev) =>
        match part(invoices[|invoices| - 1])
        case Err(e) => Err(e)
        case Ok(rs) => Ok(prev + rs)
  }

  /** The unsorted `result` array after the loop over the invoices. */
  function Collect(invoices: seq<Invoice>, settings: Settings, now: int, fmt: MoneyFormat): Result<seq<Reminder>, ScheduleError> {
    Gather(invoices, PartOf(settings, now, fmt))
  }

  predicate Sorted(s: seq<Reminder>) {
    forall i, j :: 0 <= i < j < |s| ==> s[i].when <= s[j].when
  }

  /** Puts `x` after every element of `s` that is not later than it. */
  function InsertByWhen(x: Reminder, s: seq<Reminder>): (r: seq<Reminder>)
    ensures |r| == |s| + 1
    decreases |s|
  {
    if s == [] then [x]
    else if x.when < s[0].when then [x] + s
    else [s[0]] + InsertByWhen(x, s[1..])
  }

  lemma {:induction false} InsertByWhenPermutes(x: Reminder, s: seq<Reminder>)
    ensures multiset(InsertByWhen(x, s)) == multiset(s) + multiset{x}
    decreases |s|
  {
    if s != [] && x.when >= s[0].when {
      InsertByWhenPermutes(x, s[1..]);
      assert s == [s[0]] + s[1..];
    }
  }

  lemma {:induction false} InsertByWhenSorted(x: Reminder, s: seq<Reminder>)
    requires Sorted(s)
    ensures Sorted(InsertByWhen(x, s))
    decreases |s|
  {
    if s == [] {
    } else if x.when < s[0].when {
      SortedBefore(x, s);
    } else {
      InsertByWhenSorted(x, s[1..]);
      InsertedNotEarlier(x, s);
      SortedBefore(s[0], InsertByWhen(x, s[1..]));
    }
  }

  /** A reminder due no later than everything in a sorted list can go in
      front of it. */
  lemma SortedBefore(h: Reminder, t: seq<Reminder>)
    requires Sorted(t)
    requires forall k :: 0 <= k < |t| ==> h.when <= t[k].when
    ensures Sorted([h] + t)
  {
    var r := [h] + t;
    forall i, j | 0 <= i < j < |r|
      ensures r[i].when <= r[j].when
    {
      if i > 0 {
        assert r[i] == t[i - 1] && r[j] == t[j - 1];
      } else {
        assert r[j] == t[j - 1];
      }
    }
  }

  /** Inserting a reminder not due before the head into the tail leaves
      nothing due before the head. */
  lemma InsertedNotEarlier(x: Reminder, s: seq<Reminder>)
    requires Sorted(s) && s != [] && s[0].when <= x.when
    ensures forall k :: 0 <= k < |InsertByWhen(x, s[1..])| ==> s[0].when <= InsertByWhen(x, s[1..])[k].when
  {
    var rest := InsertByWhen(x, s[1..]);
    InsertByWhenPermutes(x, s[1..]);
    forall k | 0 <= k < |rest|
      ensures s[0].when <= rest[k].when
    {
      assert rest[k] in multiset(rest);
      if rest[k] != x {
        assert rest[k] in multiset(s[1..]);
        var m :| 0 <= m < |s[1..]| && s[1..][m] == rest[k];
        assert s[m + 1] == rest[k];
      }
    }
  }

  /** Inserting the last reminder into the sorted rest sorts the whole. */
  lemma InsertLast(s: seq<Reminder>, init: seq<Reminder>)
    requires s != [] && Sorted(init) && multiset(init) == multiset(s[..|s| - 1])
    ensures Sorted(InsertByWhen(s[|s| - 1], init))
    ensures multiset(InsertByWhen(s[|s| - 1], init)) == multiset(s)
  {
    InsertByWhenSorted(s[|s| - 1], init);
    InsertByWhenPermutes(s[|s| - 1], init);
    assert s == s[..|s| - 1] + [s[|s| - 1]];
  }

  /** The stable sort of `result.sort((a, b) => a.when.localeCompare(b.when))`:
      sorted by time, and a permutation of its input. */
  function SortByWhen(s: seq<Reminder>): (r: seq<Reminder>)
    ensures Sorted(r)
    ensures multiset(r) == multiset(s)
    decreases |s|
  {
    if s == [] then []
    else
      var init := SortByWhen(s[..|s| - 1]);
      InsertLast(s, init);
      InsertByWhen(s[|s| - 1], init)
  }

  /** The value `scheduleReminders` returns or the error it throws. */
  function Schedule(invoices: seq<Invoice>, settings: Settings, now: int, fmt: MoneyFormat): Result<seq<Reminder>, ScheduleError> {
    match Collect(invoices, settings, now, fmt)
    case Err(e) => Err(e)
    case Ok(rs) => Ok(SortByWhen(rs))
  }

  lemma {:induction false} GatherErrSticks(invoices: seq<Invoice>, k: nat, part: Part)
    requires k <= |invoices|
    requires Gather(invoices[..k], part).Err?
    ensures Gather(invoices, part).Err?
    decreases |invoices| - k
  {
    if k < |invoices| {
      assert invoices[..k + 1][..k] == invoices[..k];
      GatherErrSticks(invoices, k + 1, part);
    } else {
      assert invoices[..k] == invoices;
    }
  }

  lemma PrefixSnoc(all: seq<Point>, j: nat)
    requires j < |all|
    ensures all[..j + 1] == all[..j] + [all[j]]
  {
  }

  lemma PrefixWhole(all: seq<Point>)
    ensures all[..|all|] == all
  {
  }

  /** The first loop of the `schedule` array: the "before" points. */
  method BeforeSchedule(due: int, rules: Rules) returns (schedule: seq<Point>)
    ensures schedule == BeforePoints(due, rules.beforeDays, rules.weekdaysOnly)
  {
    ghost var all := BeforePoints(due, rules.beforeDays, rules.weekdaysOnly);
    schedule := [];
    for j := 0 to |rules.beforeDays|
      invariant schedule == all[..j]
    {
      var d := rules.beforeDays[j];
      var adj := due - d;
      if rules.weekdaysOnly {
        adj := NextWeekday(due - d);
      }
      assert Point(adj, Before, IntToString(d) + " day(s) before due date") == all[j];
      PrefixSnoc(all, j);
      schedule := schedule + [Point(adj, Before, IntToString(d) + " day(s) before due date")];
    }
    PrefixWhole(all);
  }

  /** The last loop of the `schedule` array: the "after" points. */
  method AfterSchedule(due: int, rules: Rules) returns (schedule: seq<Point>)
    ensures schedule == AfterPoints(due, rules.afterDays, rules.weekdaysOnly)
  {
    ghost var all := AfterPoints(due, rules.afterDays, rules.weekdaysOnly);
    schedule := [];
    for j := 0 to |rules.afterDays|
      invariant schedule == all[..j]
    {
      var d := rules.afterDays[j];
      var adj := due + d;
      if rules.weekdaysOnly {
        adj := NextWeekday(due + d);
      }
      assert Point(adj, After, IntToString(d) + " day(s) after due date") == all[j];
      PrefixSnoc(all, j);
      schedule := schedule + [Point(adj, After, IntToString(d) + " day(s) after due date")];
    }
    PrefixWhole(all);
  }

  /** The `schedule` array of one invoice due on day `due`. */
  method PointsFor(due: int, rules: Rules) returns (schedule: seq<Point>)
    ensures schedule == Candidates(due, rules)
  {
    var befores := BeforeSchedule(due, rules);
    var ons: seq<Point> := [];
    if rules.onDue {
      var adj := due;
      if rules.weekdaysOnly {
        adj := NextWeekday(due);
      }
      ons := [Point(adj, On, "on the due date")];
    }
    var afters := AfterSchedule(due, rules);
    schedule := befores + ons + afters;
  }

  /** The inner loop that renders the points not before `now`. */
  method EmitPoints(inv: Invoice, schedule: seq<Point>, settings: Settings, now: int, fmt: MoneyFormat)
    returns (out: seq<Reminder>)
    ensures out == Emit(inv, schedule, settings, now, fmt)
  {
    out := [];
    for k := 0 to |schedule|
      invariant out == Emit(inv, schedule[..k], settings, now, fmt)
    {
      var s := schedule[k];
      assert schedule[..k + 1][..k] == schedule[..k];
      if At(s.day) < now {
        continue;
      }
      var id := inv.id + "-" + ToISODate(s.day) + "-" + KindName(s.kind);
      out := out + [Reminder(id, inv.id, At(s.day), s.kind, None, inv.clientEmail,
                             Interpolate(settings.subject, inv, settings, s.phrase, fmt),
                             Interpolate(settings.body, inv, settings, s.phrase, fmt))];
    }
    assert schedule[..|schedule|] == schedule;
  }

  /** The final `result.sort(...)`, as insertions into a sorted prefix. */
  method SortReminders(result: seq<Reminder>) returns (sorted: seq<Reminder>)
    ensures sorted == SortByWhen(result)
  {
    sorted := [];
    for k := 0 to |result|
      invariant sorted == SortByWhen(result[..k])
    {
      assert result[..k + 1][..k] == result[..k];
      sorted := InsertByWhen(result[k], sorted);
    }
    assert result[..|result|] == result;
  }

  lemma GatherSnoc(invoices: seq<Invoice>, i: nat, prev: seq<Reminder>, part: Part)
    requires i < |invoices|
    requires Gather(invoices[..i], part) == Ok(prev)
    ensures part(invoices[i]).Ok? ==> Gather(invoices[..i + 1], part) == Ok(prev + part(invoices[i]).value)
    ensures part(invoices[i]).Err? ==> Gather(invoices[..i + 1], part).Err?
  {
    assert invoices[..i + 1][..i] == invoices[..i];
  }

  /** `scheduleReminders`. */
  method ScheduleReminders(invoices: seq<Invoice>, settings: Settings, now: int, fmt: MoneyFormat)
    returns (r: Result<seq<Reminder>, ScheduleError>)
    ensures r == Schedule(invoices, settings, now, fmt)
  {
    var result: seq<Reminder> := [];
    for i := 0 to |invoices|
      invariant Collect(invoices[..i], settings, now, fmt) == Ok(result)
    {
      var inv := invoices[i];
      GatherSnoc(invoices, i, result, PartOf(settings, now, fmt));
      if inv.paid {
        assert result + [] == result;
        continue;
      }
      var parsed := ParseIsoDay(inv.dueDate);
      if parsed.None? {
        if PointCount(settings.rules) > 0 {
          GatherErrSticks(invoices, i + 1, PartOf(settings, now, fmt));
          assert Collect(invoices, settings, now, fmt).error.InvalidDate?;
          return Err(InvalidDate);
        }
        assert result + [] == result;
        continue;
      }
      var schedule := PointsFor(parsed.value, settings.rules);
      var rs := EmitPoints(inv, schedule, settings, now, fmt);
      assert ForInvoice(inv, settings, now, fmt) == Ok(rs);
      result := result + rs;
    }
    assert invoices[..|invoices|] == invoices;
    var sorted := SortReminders(result);
    return Ok(sorted);
  }

  // ---------------------------------------------------------------------
  // What a scheduled reminder is

  /** `x` is the reminder the scheduler renders for invoice `inv` at one
      of its reminder points that is not before `now`. */
  predicate Issued(x: Reminder, inv: Invoice, settings: Settings, now: int, fmt: MoneyFormat) {
    && !inv.paid
    && ParseIsoDay(inv.dueDate).Some?
    && exists p :: p in Candidates(ParseIsoDay(inv.dueDate).value, settings.rules)
                && now <= At(p.day) && x == MakeReminder(inv, p, settings, fmt)
  }

  /** `day` is the day a rule of kind `kind` names for an invoice due
      on `due`, moved to the first weekday at or after it when
      `weekdaysOnly` is set. */
  predicate RuleDay(kind: Kind, day: int, due: int, rules: Rules) {
    match kind
    case Before => exists d :: d in rules.beforeDays && day == Shift(due - d, rules.weekdaysOnly)
    case On => rules.onDue && day == Shift(due, rules.weekdaysOnly)
    case After => exists d :: d in rules.afterDays && day == Shift(due + d, rules.weekdaysOnly)
  }

  /** Every reminder point lies on the day its rule names, moved to the
      first weekday at or after it when `weekdaysOnly` is set. */
  lemma CandidateShape(due: int, rules: Rules, p: Point)
    requires p in Candidates(due, rules)
    ensures RuleDay(p.kind, p.day, due, rules)
    ensures rules.weekdaysOnly ==> !IsWeekend(p.day)
    ensures !rules.weekdaysOnly && p.kind == On ==> p.day == due
  {
    var b := BeforePoints(due, rules.beforeDays, rules.weekdaysOnly);
    var o := OnPoints(due, rules);
    var a := AfterPoints(due, rules.afterDays, rules.weekdaysOnly);
    assert p in b + o + a;
    if p in b {
      var i :| 0 <= i < |b| && b[i] == p;
      assert rules.beforeDays[i] in rules.beforeDays;
    } else if p in a {
      var i :| 0 <= i < |a| && a[i] == p;
      assert rules.afterDays[i] in rules.afterDays;
    }
  }

  /** The candidate list is exactly as long as the rules ask for. */
  lemma CandidateCount(due: int, rules: Rules)
    ensures |Candidates(due, rules)| == PointCount(rules)
  {
  }

  /** Each offset gets its own point, in generation order: the before
      offsets first, one point each on the shifted day `due - d`; then
      the due date when `onDue` is set; then the after offsets, one point
      each on the shifted day `due + d`. */
  lemma CandidatePositions(due: int, rules: Rules)
    ensures var c := Candidates(due, rules);
      var b := |rules.beforeDays|;
      var o := if rules.onDue then 1 else 0;
      && |c| == b + o + |rules.afterDays|
      && (forall i :: 0 <= i < b ==>
            c[i].kind == Before && c[i].day == Shift(due - rules.beforeDays[i], rules.weekdaysOnly))
      && (rules.onDue ==> c[b].kind == On && c[b].day == Shift(due, rules.weekdaysOnly))
      && (forall i :: 0 <= i < |rules.afterDays| ==>
            c[b + o + i].kind == After && c[b + o + i].day == Shift(due + rules.afterDays[i], rules.weekdaysOnly))
  {
    ConcatParts(BeforePoints(due, rules.beforeDays, rules.weekdaysOnly), OnPoints(due, rules),
                AfterPoints(due, rules.afterDays, rules.weekdaysOnly));
  }

  /** Where the elements of the three parts sit in their concatenation. */
  lemma ConcatParts(b: seq<Point>, o: seq<Point>, a: seq<Point>)
    ensures |b + o + a| == |b| + |o| + |a|
    ensures forall i :: 0 <= i < |b| ==> (b + o + a)[i] == b[i]
    ensures forall i :: 0 <= i < |o| ==> (b + o + a)[|b| + i] == o[i]
    ensures forall i :: 0 <= i < |a| ==> (b + o + a)[|b| + |o| + i] == a[i]
  {
  }

  /** The points not before `now`, in order. */
  function Upcoming(pts: seq<Point>, now: int): (r: seq<Point>)
    ensures |r| <= |pts|
    decreases |pts|
  {
    if pts == [] then []
    else (if now <= At(pts[0].day) then [pts[0]] else []) + Upcoming(pts[1..], now)
  }

  lemma {:induction false} UpcomingSnoc(pts: seq<Point>, p: Point, now: int)
    ensures Upcoming(pts + [p], now) == Upcoming(pts, now) + (if now <= At(p.day) then [p] else [])
    decreases |pts|
  {
    if pts == [] {
      assert [p][1..] == [];
    } else {
      var head := if now <= At(pts[0].day) then [pts[0]] else [];
      var tail := if now <= At(p.day) then [p] else [];
      assert (pts + [p])[0] == pts[0];
      assert (pts + [p])[1..] == pts[1..] + [p];
      UpcomingSnoc(pts[1..], p, now);
      assert Upcoming(pts + [p], now) == head + (Upcoming(pts[1..], now) + tail);
      assert head + (Upcoming(pts[1..], now) + tail) == (head + Upcoming(pts[1..], now)) + tail;
    }
  }

  /** Rendering a point of `inv` as its reminder. */
  function Renderer(inv: Invoice, settings: Settings, fmt: MoneyFormat): Point -> Reminder {
    p => MakeReminder(inv, p, settings, fmt)
  }

  /** `render` applied to each point, in order. */
  function MapPoints(render: Point -> Reminder, u: seq<Point>): (r: seq<Reminder>)
    ensures |r| == |u|
    ensures forall i :: 0 <= i < |u| ==> r[i] == render(u[i])
    decreases |u|
  {
    if u == [] then [] else [render(u[0])] + MapPoints(render, u[1..])
  }

  /** Appending a point, or nothing, to the mapped points. */
  lemma MapPointsStep(render: Point -> Reminder, u: seq<Point>, p: Point, keep: bool)
    ensures MapPoints(render, u) + (if keep then [render(p)] else []) ==
      MapPoints(render, u + (if keep then [p] else []))
  {
    if keep {
      assert MapPoints(render, u + [p]) == MapPoints(render, u) + [render(p)];
    } else {
      assert u + [] == u;
    }
  }

  /** `Emit` of a non-empty list, one step back. */
  lemma EmitLast(inv: Invoice, pts: seq<Point>, settings: Settings, now: int, fmt: MoneyFormat)
    requires pts != []
    ensures Emit(inv, pts, settings, now, fmt) ==
      Emit(inv, pts[..|pts| - 1], settings, now, fmt)
        + (if now <= At(pts[|pts| - 1].day) then [Renderer(inv, settings, fmt)(pts[|pts| - 1])] else [])
  {
  }

  /** `Upcoming` of a non-empty list, one step back. */
  lemma UpcomingLast(pts: seq<Point>, now: int)
    requires pts != []
    ensures Upcoming(pts, now) ==
      Upcoming(pts[..|pts| - 1], now) + (if now <= At(pts[|pts| - 1].day) then [pts[|pts| - 1]] else [])
  {
    assert pts == pts[..|pts| - 1] + [pts[|pts| - 1]];
    UpcomingSnoc(pts[..|pts| - 1], pts[|pts| - 1], now);
  }

  /** `Emit` is the rendering of the points not before `now`: one
      reminder per point and in point order, nothing merged or
      de-duplicated. */
  lemma {:induction false} EmitRenders(inv: Invoice, pts: seq<Point>, settings: Settings, now: int, fmt: MoneyFormat)
    ensures Emit(inv, pts, settings, now, fmt) == MapPoints(Renderer(inv, settings, fmt), Upcoming(pts, now))
    decreases |pts|
  {
    if pts != [] {
      var init := pts[..|pts| - 1];
      var last := pts[|pts| - 1];
      EmitRenders(inv, init, settings, now, fmt);
      EmitLast(inv, pts, settings, now, fmt);
      UpcomingLast(pts, now);
      MapPointsStep(Renderer(inv, settings, fmt), Upcoming(init, now), last, now <= At(last.day));
    }
  }

  /** `Emit` keeps exactly the points not before `now`, rendered. */
  lemma {:induction false} EmitExactly(inv: Invoice, pts: seq<Point>, settings: Settings, now: int, fmt: MoneyFormat)
    ensures forall x :: x in Emit(inv, pts, settings, now, fmt) ==>
      exists p :: p in pts && now <= At(p.day) && x == MakeReminder(inv, p, settings, fmt)
    ensures forall p :: p in pts && now <= At(p.day) ==>
      MakeReminder(inv, p, settings, fmt) in Emit(inv, pts, settings, now, fmt)
    decreases |pts|
  {
    if pts != [] {
      var init := pts[..|pts| - 1];
      EmitExactly(inv, init, settings, now, fmt);
      assert pts == init + [pts[|pts| - 1]];
      forall p | p in pts && now <= At(p.day)
        ensures MakeReminder(inv, p, settings, fmt) in Emit(inv, pts, settings, now, fmt)
      {
        if p != pts[|pts| - 1] {
          assert p in init;
        }
      }
    }
  }

  /** A reminder rendered for a point: addressed to the client, linked
      to the invoice, unsent, due at 09:00 on the point's day, with the
      id `<invoice id>-<ISO date>-<kind>`. */
  lemma RenderedReminder(inv: Invoice, p: Point, settings: Settings, fmt: MoneyFormat)
    ensures var x := MakeReminder(inv, p, settings, fmt);
      && x.invoiceId == inv.id
      && x.to == inv.clientEmail
      && x.sentAt == None
      && x.kind == p.kind
      && DayOf(x.when) == p.day
      && x.when == At(DayOf(x.when))
      && x.id == inv.id + "-" + ToISODate(DayOf(x.when)) + "-" + KindName(x.kind)
  {
    DayOfAt(p.day);
  }

  /** What one invoice contributes is exactly its issued reminders: none
      when it is paid, and otherwise one per candidate point not before
      `now`, in generation order. */
  lemma ForInvoiceExactly(inv: Invoice, settings: Settings, now: int, fmt: MoneyFormat)
    ensures inv.paid ==> ForInvoice(inv, settings, now, fmt) == Ok([])
    ensures !inv.paid && ParseIsoDay(inv.dueDate).Some? ==>
      var rs := ForInvoice(inv, settings, now, fmt);
      rs.Ok? && rs.value == MapPoints(Renderer(inv, settings, fmt),
                                      Upcoming(Candidates(ParseIsoDay(inv.dueDate).value, settings.rules), now))
    ensures ForInvoice(inv, settings, now, fmt).Ok? ==>
      forall x :: x in ForInvoice(inv, settings, now, fmt).value ==> Issued(x, inv, settings, now, fmt)
    ensures forall x :: Issued(x, inv, settings, now, fmt) ==>
      ForInvoice(inv, settings, now, fmt).Ok? && x in ForInvoice(inv, settings, now, fmt).value
    ensures ForInvoice(inv, settings, now, fmt).Err? <==>
      !inv.paid && ParseIsoDay(inv.dueDate).None? && PointCount(settings.rules) > 0
  {
    if !inv.paid && ParseIsoDay(inv.dueDate).Some? {
      var due := ParseIsoDay(inv.dueDate).value;
      EmitExactly(inv, Candidates(due, settings.rules), settings, now, fmt);
      EmitRenders(inv, Candidates(due, settings.rules), settings, now, fmt);
    }
  }

  /** An invoice gets at most one reminder per reminder point. */
  lemma ForInvoiceCount(inv: Invoice, settings: Settings, now: int, fmt: MoneyFormat)
    ensures ForInvoice(inv, settings, now, fmt).Ok? ==>
      |ForInvoice(inv, settings, now, fmt).value| <= PointCount(settings.rules)
  {
    if !inv.paid && ParseIsoDay(inv.dueDate).Some? {
      CandidateCount(ParseIsoDay(inv.dueDate).value, settings.rules);
    }
  }

  /** The loop fails exactly when some invoice's contribution does. */
  lemma {:induction false} GatherFailsIff(invoices: seq<Invoice>, part: Part)
    ensures Gather(invoices, part).Err? <==> exists k :: 0 <= k < |invoices| && part(invoices[k]).Err?
    decreases |invoices|
  {
    if invoices != [] {
      var init := invoices[..|invoices| - 1];
      GatherFailsIff(init, part);
      if exists k :: 0 <= k < |init| && part(init[k]).Err? {
        var k :| 0 <= k < |init| && part(init[k]).Err?;
        assert invoices[k] == init[k];
      }
      if exists k :: 0 <= k < |invoices| && part(invoices[k]).Err? {
        var k :| 0 <= k < |invoices| && part(invoices[k]).Err?;
        if k < |init| {
          assert init[k] == invoices[k];
        }
      }
    }
  }

  /** On success, the loop's result holds exactly what the invoices
      contribute, and no more than `n` per invoice when no contribution
      is longer than `n`. */
  lemma {:induction false} GatherMembers(invoices: seq<Invoice>, part: Part, n: nat)
    requires Gather(invoices, part).Ok?
    requires forall k :: 0 <= k < |invoices| && part(invoices[k]).Ok? ==> |part(invoices[k]).value| <= n
    ensures forall k :: 0 <= k < |invoices| ==> part(invoices[k]).Ok?
    ensures forall x :: x in Gather(invoices, part).value <==>
      exists k :: 0 <= k < |invoices| && x in part(invoices[k]).value
    ensures |Gather(invoices, part).value| <= |invoices| * n
    decreases |invoices|
  {
    if invoices != [] {
      var init := invoices[..|invoices| - 1];
      var last := invoices[|invoices| - 1];
      assert forall k :: 0 <= k < |init| ==> invoices[k] == init[k];
      GatherMembers(init, part, n);
      var prev := Gather(init, part).value;
      var rs := part(last).value;
      forall x | x in prev + rs
        ensures exists k :: 0 <= k < |invoices| && x in part(invoices[k]).value
      {
        if x in prev {
          var k :| 0 <= k < |init| && x in part(init[k]).value;
          assert invoices[k] == init[k];
        } else {
          assert x in part(invoices[|invoices| - 1]).value;
        }
      }
      MulSucc(|init|, n);
    }
  }

  /** What the invoices contribute, one after another; a contribution
      that throws adds nothing. */
  function Contributions(invoices: seq<Invoice>, part: Part): seq<Reminder>
    decreases |invoices|
  {
    if invoices == [] then []
    else (if part(invoices[0]).Ok? then part(invoices[0]).value else []) + Contributions(invoices[1..], part)
  }

  lemma {:induction false} ContributionsSnoc(invoices: seq<Invoice>, inv: Invoice, part: Part)
    ensures Contributions(invoices + [inv], part) ==
      Contributions(invoices, part) + (if part(inv).Ok? then part(inv).value else [])
    decreases |invoices|
  {
    if invoices == [] {
      assert [inv][1..] == [];
    } else {
      var head := if part(invoices[0]).Ok? then part(invoices[0]).value else [];
      var tail := if part(inv).Ok? then part(inv).value else [];
      assert (invoices + [inv])[0] == invoices[0];
      assert (invoices + [inv])[1..] == invoices[1..] + [inv];
      ContributionsSnoc(invoices[1..], inv, part);
      assert Contributions(invoices + [inv], part) == head + (Contributions(invoices[1..], part) + tail);
      assert head + (Contributions(invoices[1..], part) + tail) == (head + Contributions(invoices[1..], part)) + tail;
    }
  }

  /** On success, the loop's result is the contributions of the invoices
      concatenated in invoice order, every copy kept. */
  lemma {:induction false} GatherConcat(invoices: seq<Invoice>, part: Part)
    requires Gather(invoices, part).Ok?
    ensures Gather(invoices, part).value == Contributions(invoices, part)
    decreases |invoices|
  {
    if invoices != [] {
      var init := invoices[..|invoices| - 1];
      var last := invoices[|invoices| - 1];
      GatherConcat(init, part);
      assert invoices == init + [last];
      ContributionsSnoc(init, last, part);
    }
  }

  lemma MulSucc(a: nat, b: nat)
    ensures (a + 1) * b == a * b + b
  {
  }

  // ---------------------------------------------------------------------
  // Properties of `scheduleReminders`

  /** The scheduler throws exactly when some unpaid invoice with at least
      one reminder point has a due date that does not parse. */
  lemma ScheduleFailsIff(invoices: seq<Invoice>, settings: Settings, now: int, fmt: MoneyFormat)
    ensures Schedule(invoices, settings, now, fmt).Err? <==>
      PointCount(settings.rules) > 0 &&
      exists k :: 0 <= k < |invoices| && !invoices[k].paid && ParseIsoDay(invoices[k].dueDate).None?
  {
    GatherFailsIff(invoices, PartOf(settings, now, fmt));
    forall k | 0 <= k < |invoices| {
      ForInvoiceExactly(invoices[k], settings, now, fmt);
    }
  }

  /** The returned reminders are sorted by time and are exactly the
      issued reminders of the listed invoices: none for a paid invoice,
      none before `now`, none on a weekend when `weekdaysOnly` is set,
      and never more than one per reminder point. */
  lemma ScheduleExactly(invoices: seq<Invoice>, settings: Settings, now: int, fmt: MoneyFormat)
    requires Schedule(invoices, settings, now, fmt).Ok?
    ensures Sorted(Schedule(invoices, settings, now, fmt).value)
    ensures forall x :: x in Schedule(invoices, settings, now, fmt).value <==>
      exists k :: 0 <= k < |invoices| && Issued(x, invoices[k], settings, now, fmt)
    ensures |Schedule(invoices, settings, now, fmt).value| <= |invoices| * PointCount(settings.rules)
    ensures multiset(Schedule(invoices, settings, now, fmt).value) ==
      multiset(Contributions(invoices, PartOf(settings, now, fmt)))
  {
    CollectExactly(invoices, settings, now, fmt);
    SortKeepsMembers(Collect(invoices, settings, now, fmt).value);
  }

  /** The collected reminders are exactly the issued ones, at most one
      per reminder point. */
  lemma CollectExactly(invoices: seq<Invoice>, settings: Settings, now: int, fmt: MoneyFormat)
    requires Collect(invoices, settings, now, fmt).Ok?
    ensures forall x :: x in Collect(invoices, settings, now, fmt).value <==>
      exists k :: 0 <= k < |invoices| && Issued(x, invoices[k], settings, now, fmt)
    ensures |Collect(invoices, settings, now, fmt).value| <= |invoices| * PointCount(settings.rules)
    ensures Collect(invoices, settings, now, fmt).value == Contributions(invoices, PartOf(settings, now, fmt))
  {
    GatherConcat(invoices, PartOf(settings, now, fmt));
    forall k | 0 <= k < |invoices| {
      ForInvoiceCount(invoices[k], settings, now, fmt);
    }
    GatherMembers(invoices, PartOf(settings, now, fmt), PointCount(settings.rules));
    forall k | 0 <= k < |invoices| {
      ForInvoiceExactly(invoices[k], settings, now, fmt);
    }
  }

  /** Sorting keeps the members and the length. */
  lemma SortKeepsMembers(rs: seq<Reminder>)
    ensures forall x :: x in SortByWhen(rs) <==> x in rs
    ensures |SortByWhen(rs)| == |rs|
  {
    var sorted := SortByWhen(rs);
    forall x
      ensures x in sorted <==> x in rs
    {
      assert x in sorted <==> x in multiset(sorted);
      assert x in rs <==> x in multiset(rs);
    }
    assert |sorted| == |multiset(sorted)| == |multiset(rs)| == |rs|;
  }

  /** The facts each issued reminder carries. */
  lemma IssuedFacts(x: Reminder, inv: Invoice, settings: Settings, now: int, fmt: MoneyFormat)
    requires Issued(x, inv, settings, now, fmt)
    ensures !inv.paid
    ensures x.invoiceId == inv.id && x.to == inv.clientEmail && x.sentAt == None
    ensures now <= x.when && x.when == At(DayOf(x.when))
    ensures x.id == inv.id + "-" + ToISODate(DayOf(x.when)) + "-" + KindName(x.kind)
    ensures settings.rules.weekdaysOnly ==> !IsWeekend(DayOf(x.when))
    ensures RuleDay(x.kind, DayOf(x.when), ParseIsoDay(inv.dueDate).value, settings.rules)
  {
    var due := ParseIsoDay(inv.dueDate).value;
    var p :| p in Candidates(due, settings.rules) && now <= At(p.day) && x == MakeReminder(inv, p, settings, fmt);
    CandidateShape(due, settings.rules, p);
    RenderedReminder(inv, p, settings, fmt);
  }

  /** Reminders of equal time keep their relative order: the invoice
      order, then before, on-due, after within an invoice. */
  function AtTime(s: seq<Reminder>, t: int): (r: seq<Reminder>)
    ensures forall x :: x in r <==> x in s && x.when == t
    decreases |s|
  {
    if s == [] then []
    else
      assert s == [s[0]] + s[1..];
      (if s[0].when == t then [s[0]] else []) + AtTime(s[1..], t)
  }

  lemma {:induction false} AtTimeAppend(a: seq<Reminder>, b: seq<Reminder>, t: int)
    ensures AtTime(a + b, t) == AtTime(a, t) + AtTime(b, t)
    decreases |a|
  {
    if a != [] {
      var head := if a[0].when == t then [a[0]] else [];
      assert (a + b)[0] == a[0];
      assert (a + b)[1..] == a[1..] + b;
      AtTimeAppend(a[1..], b, t);
      calc {
        AtTime(a + b, t);
        head + AtTime(a[1..] + b, t);
        head + (AtTime(a[1..], t) + AtTime(b, t));
        (head + AtTime(a[1..], t)) + AtTime(b, t);
        AtTime(a, t) + AtTime(b, t);
      }
    } else {
      assert a + b == b;
    }
  }

  lemma AtTimeOfLater(s: seq<Reminder>, t: int)
    requires Sorted(s) && s != [] && t < s[0].when
    ensures AtTime(s, t) == []
  {
  }

  lemma {:induction false} InsertByWhenAtTime(x: Reminder, s: seq<Reminder>, t: int)
    requires Sorted(s)
    ensures AtTime(InsertByWhen(x, s), t) == AtTime(s, t) + (if x.when == t then [x] else [])
    decreases |s|
  {
    if s == [] {
    } else if x.when < s[0].when {
      AtTimeAppend([x], s, t);
      if x.when == t {
        AtTimeOfLater(s, t);
      }
    } else {
      InsertByWhenAtTime(x, s[1..], t);
      AtTimeAppend([s[0]], InsertByWhen(x, s[1..]), t);
    }
  }

  /** Sorting is stable: for every time, the reminders due then appear
      in the same order before and after the sort. */
  lemma {:induction false} SortByWhenStable(s: seq<Reminder>, t: int)
    ensures AtTime(SortByWhen(s), t) == AtTime(s, t)
    decreases |s|
  {
    if s != [] {
      var init := s[..|s| - 1];
      var last := s[|s| - 1];
      SortByWhenStable(init, t);
      InsertByWhenAtTime(last, SortByWhen(init), t);
      SortByWhenLast(s);
      StableStep(s, last, SortByWhen(init), t);
    }
  }

  /** Sorting a list inserts its last reminder into its sorted front. */
  lemma SortByWhenLast(s: seq<Reminder>)
    requires s != []
    ensures SortByWhen(s) == InsertByWhen(s[|s| - 1], SortByWhen(s[..|s| - 1]))
  {
  }

  /** One step of the stability proof, over any arrangement `front` of
      all but the last reminder. */
  lemma StableStep(s: seq<Reminder>, last: Reminder, front: seq<Reminder>, t: int)
    requires s != [] && last == s[|s| - 1]
    requires AtTime(front, t) == AtTime(s[..|s| - 1], t)
    ensures AtTime(front, t) + (if last.when == t then [last] else []) == AtTime(s, t)
  {
    assert s == s[..|s| - 1] + [last];
    AtTimeLast(s[..|s| - 1], last, t);
  }

  /** The reminders due at `t` of a list with one more at its end. */
  lemma AtTimeLast(init: seq<Reminder>, last: Reminder, t: int)
    ensures AtTime(init + [last], t) == AtTime(init, t) + (if last.when == t then [last] else [])
  {
    AtTimeAppend(init, [last], t);
    assert [last][1..] == [];
  }

  // ---------------------------------------------------------------------
  // `nextReminderDate`

  /** `nextReminderDate`: the time of the earliest reminder the invoice
      still has, none when it is paid or has none left. */
  method NextReminderDate(inv: Invoice, settings: Settings, now: int, fmt: MoneyFormat)
    returns (r: Result<Option<int>, ScheduleError>)
    ensures inv.paid ==> r == Ok(None)
    ensures r.Err? <==> ForInvoice(inv, settings, now, fmt).Err?
    ensures r == Ok(None) ==> ForInvoice(inv, settings, now, fmt) == Ok([])
    ensures r.Ok? && r.value.Some? ==>
      && ForInvoice(inv, settings, now, fmt).Ok?
      && (exists x :: x in ForInvoice(inv, settings, now, fmt).value && x.when == r.value.value)
      && (forall x :: x in ForInvoice(inv, settings, now, fmt).value ==> r.value.value <= x.when)
  {
    if inv.paid {
      return Ok(None);
    }
    var all := ScheduleReminders([inv], settings, now, fmt);
    CollectOne(inv, settings, now, fmt);
    match all
    case Err(e) =>
      return Err(e);
    case Ok(rs) =>
      SortedHead(rs, ForInvoice(inv, settings, now, fmt).value);
      if |rs| == 0 {
        return Ok(None);
      }
      return Ok(Some(rs[0].when));
  }

  /** Collecting a single invoice gives what that invoice contributes. */
  lemma CollectOne(inv: Invoice, settings: Settings, now: int, fmt: MoneyFormat)
    ensures Collect([inv], settings, now, fmt) == ForInvoice(inv, settings, now, fmt)
  {
    assert [inv][..0] == [];
    assert PartOf(settings, now, fmt)([inv][0]) == ForInvoice(inv, settings, now, fmt);
    assert Gather([inv][..0], PartOf(settings, now, fmt)) == Ok([]);
    if ForInvoice(inv, settings, now, fmt).Ok? {
      assert [] + ForInvoice(inv, settings, now, fmt).value == ForInvoice(inv, settings, now, fmt).value;
    }
  }

  /** The head of a sorted arrangement of a list is due no later than
      anything in the list. */
  lemma SortedHead(rs: seq<Reminder>, own: seq<Reminder>)
    requires Sorted(rs) && multiset(rs) == multiset(own)
    ensures |rs| == |own|
    ensures |rs| > 0 ==> rs[0] in own && forall x :: x in own ==> rs[0].when <= x.when
  {
    assert |multiset(rs)| == |multiset(own)|;
    if |rs| > 0 {
      assert rs[0] in multiset(own);
      forall x | x in own
        ensures rs[0].when <= x.when
      {
        assert x in multiset(rs);
        var i :| 0 <= i < |rs| && rs[i] == x;
      }
    }
  }

  // ---------------------------------------------------------------------
  // Concrete schedules

  /** An invoice due Friday 2025-01-10 with rules "3 days before, on the
      due date, 7 days after, weekdays only": the points fall on Tuesday
      2025-01-07, Friday 2025-01-10 and Friday 2025-01-17, so the weekday
      shift moves none of them. */
  lemma FridayExample()
    ensures ParseIsoDay("2025-01-10") == Some(20098)
    ensures var c := Candidates(20098, Rules([3], true, [7], true));
      && |c| == 3
      && c[0].day == 20095 && c[0].kind == Before
      && c[1].day == 20098 && c[1].kind == On
      && c[2].day == 20105 && c[2].kind == After
    ensures Weekday(20095) == 2 && Weekday(20105) == 5
  {
    FridayAnchor();
    FridayIso();
    IsoRoundTrip(Civil(2025, 1, 10));
    assert (20095 + 4) % 7 == 2 && (20105 + 4) % 7 == 5;
  }

  /** Offsets are not de-duplicated and shifted points are not merged:
      with rules "1 and 2 days before, weekdays only" and a Monday due
      date, both points move to that Monday and their reminders share
      one id. */
  lemma SharedIdsOnShift(inv: Invoice)
    ensures var c := Candidates(20101, Rules([1, 2], false, [], true));
      && |c| == 2 && c[0].day == c[1].day == 20101
      && ReminderId(inv, c[0].day, c[0].kind) == ReminderId(inv, c[1].day, c[1].kind)
    ensures Weekday(20101) == 1
  {
    assert (20101 + 4) % 7 == 1 && (20100 + 4) % 7 == 0 && (20099 + 4) % 7 == 6;
  }
  /** The Sunday and the Saturday before a Monday both move to it. */
  lemma MondayShifts(due: int)
    requires Weekday(due) == 1
    ensures Shift(due - 1, true) == due && Shift(due - 2, true) == due
  {
    assert Weekday(due - 1) == 0 && Weekday(due - 2) == 6;
  }

  /** The shared id reaches the outbox: with rules "1 and 2 days before,
      weekdays only", an unpaid invoice due on a Monday that is not yet
      past gets two reminders from `scheduleReminders`, at the same time
      and with the same id. */
  lemma ScheduleKeepsDuplicates(inv: Invoice, settings: Settings, now: int, fmt: MoneyFormat)
    requires !inv.paid && settings.rules == Rules([1, 2], false, [], true)
    requires ParseIsoDay(inv.dueDate).Some? && Weekday(ParseIsoDay(inv.dueDate).value) == 1
    requires now <= At(ParseIsoDay(inv.dueDate).value)
    ensures Schedule([inv], settings, now, fmt).Ok?
    ensures var rs := Schedule([inv], settings, now, fmt).value;
      |rs| == 2 && rs[0].id == rs[1].id && rs[0].when == rs[1].when
  {
    var due := ParseIsoDay(inv.dueDate).value;
    var c := Candidates(due, settings.rules);
    CandidatePositions(due, settings.rules);
    MondayShifts(due);
    assert c[..1] == [c[0]] && c[..2] == c;
    UpcomingLast(c[..1], now);
    UpcomingLast(c, now);
    assert Upcoming(c, now) == c;
    ForInvoiceExactly(inv, settings, now, fmt);
    CollectOne(inv, settings, now, fmt);
    var own := ForInvoice(inv, settings, now, fmt).value;
    assert |own| == 2 && own[0].id == own[1].id && own[0].when == own[1].when;
    var rs := Schedule([inv], settings, now, fmt).value;
    SameTwo(rs, own);
  }

  /** A permutation of two reminders with one id and one time has them
      too. */
  lemma SameTwo(rs: seq<Reminder>, own: seq<Reminder>)
    requires multiset(rs) == multiset(own)
    requires |own| == 2 && own[0].id == own[1].id && own[0].when == own[1].when
    ensures |rs| == 2 && rs[0].id == rs[1].id && rs[0].when == rs[1].when
  {
    assert |multiset(rs)| == |multiset(own)|;
    assert rs[0] in multiset(own) && rs[1] in multiset(own);
    assert own == [own[0], own[1]];
  }
}

