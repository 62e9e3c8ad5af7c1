/** pages/autochase/outbox.tsx: generating the outbox under the plan's
    reminder ceiling, marking a reminder as sent, and the count of
    reminders still to send that the usage meter shows. */
module Outbox {
  import opened Wrappers
  import opened Types
  import opened Plans
  import opened Template
  import opened Scheduler

  function Min(a: nat, b: nat): nat {
    if a <= b then a else b
  }

  /** `limit === 'unlimited' ? scheduled : scheduled.slice(0, limit)`:
      the first reminders, at most as many as the plan allows; a slice
      to `undefined` keeps everything. */
  function Truncate(scheduled: seq<Reminder>, limit: Limit): (r: seq<Reminder>)
    ensures |r| <= |scheduled| && r == scheduled[..|r|]
    ensures !limit.Limited? ==> r == scheduled
    ensures limit.Limited? ==> |r| == Min(limit.n, |scheduled|)
  {
    match limit
    case Unlimited => scheduled
    case Undefined => scheduled
    case Limited(n) => if n <= |scheduled| then scheduled[..n] else scheduled
  }

  /** The condition of the "Plan limit reached" alert. */
  predicate LimitReached(scheduled: seq<Reminder>, limit: Limit) {
    !limit.Unlimited? && |scheduled| > |Truncate(scheduled, limit)|
  }

  /** The alert shows exactly when a numeric limit is below the number of
      scheduled reminders, and whenever it does not show nothing was cut. */
  lemma LimitReachedIff(scheduled: seq<Reminder>, limit: Limit)
    ensures LimitReached(scheduled, limit) <==> limit.Limited? && limit.n < |scheduled|
    ensures !LimitReached(scheduled, limit) ==> Truncate(scheduled, limit) == scheduled
  {
  }

  /** A cut keeps the earliest reminders: nothing dropped is due before
      anything kept. */
  lemma TruncateKeepsEarliest(scheduled: seq<Reminder>, limit: Limit)
    requires Sorted(scheduled)
    ensures var kept := Truncate(scheduled, limit);
      Sorted(kept) &&
      forall i, j :: 0 <= i < |kept| <= j < |scheduled| ==> kept[i].when <= scheduled[j].when
  {
  }

  /** What pressing "Generate Reminders" does. */
  datatype Generation =
    | NotLoaded                                  // settings not loaded yet: nothing happens
    | Failed(error: ScheduleError)               // `scheduleReminders` threw
    | Generated(items: seq<Reminder>, alert: Option<(nat, nat)>)  // new outbox, alert "showing x of y"

  /** `generate`. */
  function Generate(invoices: seq<Invoice>, settings: Option<Settings>, now: int, fmt: MoneyFormat): (r: Generation)
    ensures r.NotLoaded? <==> settings.None?
  {
    match settings
    case None => NotLoaded
    case Some(s) =>
      match Schedule(invoices, s, now, fmt)
      case Err(e) => Failed(e)
      case Ok(scheduled) =>
        var limit := GetPlanLimit(s.plan);
        var limited := Truncate(scheduled, limit);
        Generated(limited, if LimitReached(scheduled, limit) then Some((|limited|, |scheduled|)) else None)
  }

  /** A generated outbox is the start of the schedule, in time order, no
      longer than the plan allows; the alert reports exactly what was
      kept and what was scheduled, and only when something was cut. */
  lemma GeneratedWithinPlan(invoices: seq<Invoice>, s: Settings, now: int, fmt: MoneyFormat)
    requires Schedule(invoices, s, now, fmt).Ok?
    ensures var scheduled := Schedule(invoices, s, now, fmt).value;
      var g := Generate(invoices, Some(s), now, fmt);
      && g.Generated?
      && g.items == scheduled[..|g.items|]
      && Sorted(g.items)
      && (GetPlanLimit(s.plan).Limited? ==> |g.items| <= GetPlanLimit(s.plan).n)
      && (g.alert.Some? <==> |g.items| < |scheduled|)
      && (g.alert.Some? ==> g.alert.value == (|g.items|, |scheduled|))
  {
    var scheduled := Schedule(invoices, s, now, fmt).value;
    assert Sorted(scheduled);
    TruncateKeepsEarliest(scheduled, GetPlanLimit(s.plan));
  }

  /** A starter plan, or no plan at all, keeps at most 50 reminders;
      a business plan keeps every one, and so does a stored plan name
      the table lacks, without an alert. */
  lemma PlanCeilings(invoices: seq<Invoice>, s: Settings, now: int, fmt: MoneyFormat)
    requires Schedule(invoices, s, now, fmt).Ok?
    ensures s.plan in {None, Some(""), Some("starter")} ==> |Generate(invoices, Some(s), now, fmt).items| <= 50
    ensures s.plan == Some("pro") ==> |Generate(invoices, Some(s), now, fmt).items| <= 250
    ensures s.plan == Some("business") ==> Generate(invoices, Some(s), now, fmt).items == Schedule(invoices, s, now, fmt).value
    ensures s.plan.Some? && s.plan.value !in {"", "starter", "pro", "business"} ==>
      Generate(invoices, Some(s), now, fmt) == Generated(Schedule(invoices, s, now, fmt).value, None)
  {
  }

  /** `!i.sentAt`: no send time, or the empty one. */
  predicate Unsent(r: Reminder) {
    r.sentAt.None? || r.sentAt == Some("")
  }

  /** The usage meter's `items.filter((i) => !i.sentAt).length`. */
  function UnsentCount(items: seq<Reminder>): (n: nat)
    ensures n <= |items|
    decreases |items|
  {
    if items == [] then 0 else (if Unsent(items[0]) then 1 else 0) + UnsentCount(items[1..])
  }

  /** The mark-sent map of `send`: every item with the sent reminder's
      id gets the send time, every other item is kept. */
  function MarkSent(items: seq<Reminder>, id: string, stamp: string): seq<Reminder> {
    seq(|items|, i requires 0 <= i < |items| =>
      if items[i].id == id then items[i].(sentAt := Some(stamp)) else items[i])
  }

  /** Sending touches only `sentAt`, and only on items with the sent id:
      the outbox keeps its length and order; with the non-empty time
      `toISOString` gives, every such item counts as sent. Reminders
      sharing an id are all marked together. */
  lemma MarkSentEffect(items: seq<Reminder>, id: string, stamp: string)
    ensures var r := MarkSent(items, id, stamp);
      && |r| == |items|
      && (forall i :: 0 <= i < |items| ==> r[i] == items[i].(sentAt := r[i].sentAt))
      && (forall i :: 0 <= i < |items| && items[i].id != id ==> r[i] == items[i])
      && (forall i :: 0 <= i < |items| && items[i].id == id ==> r[i].sentAt == Some(stamp))
      && (stamp != "" ==> forall i :: 0 <= i < |items| && items[i].id == id ==> !Unsent(r[i]))
  {
  }

  /** Sending the same reminder again at the same time changes nothing. */
  lemma MarkSentIdempotent(items: seq<Reminder>, id: string, stamp: string)
    ensures MarkSent(MarkSent(items, id, stamp), id, stamp) == MarkSent(items, id, stamp)
  {
  }

  /** The number of unsent items that carry the id. */
  function UnsentWithId(items: seq<Reminder>, id: string): (n: nat)
    decreases |items|
  {
    if items == [] then 0
    else (if Unsent(items[0]) && items[0].id == id then 1 else 0) + UnsentWithId(items[1..], id)
  }

  /** Sending lowers the unsent count by exactly the unsent items with
      the sent id, so it never rises and falls exactly when one of them
      was still unsent. */
  lemma {:induction false} SendLowersCount(items: seq<Reminder>, id: string, stamp: string)
    requires stamp != ""
    ensures UnsentCount(MarkSent(items, id, stamp)) == UnsentCount(items) - UnsentWithId(items, id)
    decreases |items|
  {
    if items != [] {
      assert MarkSent(items, id, stamp)[1..] == MarkSent(items[1..], id, stamp);
      SendLowersCount(items[1..], id, stamp);
    }
  }

  /** There is an unsent item with the id exactly when the count of them
      is positive. */
  lemma {:induction false} UnsentWithIdPositive(items: seq<Reminder>, id: string)
    ensures UnsentWithId(items, id) > 0 <==> exists i :: 0 <= i < |items| && items[i].id == id && Unsent(items[i])
    decreases |items|
  {
    if items != [] {
      UnsentWithIdPositive(items[1..], id);
      if UnsentWithId(items[1..], id) > 0 {
        var i :| 0 <= i < |items[1..]| && items[1..][i].id == id && Unsent(items[1..][i]);
        assert items[i + 1] == items[1..][i];
      }
      if exists i :: 0 <= i < |items| && items[i].id == id && Unsent(items[i]) {
        var i :| 0 <= i < |items| && items[i].id == id && Unsent(items[i]);
        if i > 0 {
          assert items[1..][i - 1] == items[i];
        }
      }
    }
  }
}
