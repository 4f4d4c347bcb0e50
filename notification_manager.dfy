/**
 * The daily summary notification: the request values `NotificationManager` builds and the
 * pending-request list of the device's notification centre they are added to.
 */
module Notifications {
  import opened Wrappers
  import Text

  /** The calendar fields a trigger matches; unset fields are `None`. */
  datatype DateComponents = DateComponents(hour: Option<int>, minute: Option<int>)

  /** `UNMutableNotificationContent`: title and body start out empty, sound unset. */
  datatype Content = Content(title: string, body: string, sound: bool)

  /** `UNCalendarNotificationTrigger(dateMatching:repeats:)`. */
  datatype Trigger = CalendarTrigger(dateMatching: DateComponents, repeats: bool)

  datatype Request = Request(identifier: string, content: Content, trigger: Trigger)

  /** Both scheduling methods use this identifier: there is one daily-summary slot. */
  const DailyIdentifier := "dailyTodoReminder"
  const DailyTitle := "Günlük Görevler"
  const BodyPrefix := "Bugün tamamlaman gereken "
  const BodySuffix := " adet görev var."

  /** The fixed sentence with the count written in. */
  function DailyBody(count: int): string
  {
    BodyPrefix + Text.IntToDecimal(count) + BodySuffix
  }

  /** The body determines the count: two different counts never give the same text. */
  lemma DailyBodyInjective(a: int, b: int)
    requires DailyBody(a) == DailyBody(b)
    ensures a == b
  {
    var da, db := Text.IntToDecimal(a), Text.IntToDecimal(b);
    assert |da| == |db|;
    assert da == DailyBody(a)[|BodyPrefix|..|BodyPrefix| + |da|];
    assert db == DailyBody(b)[|BodyPrefix|..|BodyPrefix| + |db|];
    Text.IntToDecimalInjective(a, b);
  }

  /** The 08:30, repeating-every-day trigger of the summary. */
  const SummaryTrigger := CalendarTrigger(DateComponents(Some(8), Some(30)), true)

  /** How many pending requests carry identifier `id`. */
  function SlotCount(pending: seq<Request>, id: string): nat
  {
    if pending == [] then 0
    else (if pending[0].identifier == id then 1 else 0) + SlotCount(pending[1..], id)
  }

  /** The pending requests other than those with identifier `id`, in order. */
  function WithoutIdentifier(pending: seq<Request>, id: string): (r: seq<Request>)
    ensures forall i :: 0 <= i < |r| ==> r[i] in pending && r[i].identifier != id
  {
    if pending == [] then []
    else if pending[0].identifier == id then WithoutIdentifier(pending[1..], id)
    else [pending[0]] + WithoutIdentifier(pending[1..], id)
  }

  lemma {:induction false} SlotCountAppend(a: seq<Request>, r: Request, id: string)
    ensures SlotCount(a + [r], id) == SlotCount(a, id) + (if r.identifier == id then 1 else 0)
  {
    if a != [] {
      assert (a + [r])[1..] == a[1..] + [r];
      SlotCountAppend(a[1..], r, id);
    }
  }

  lemma {:induction false} SlotCountWithout(pending: seq<Request>, x: string, id: string)
    ensures SlotCount(WithoutIdentifier(pending, x), id) == if id == x then 0 else SlotCount(pending, id)
  {
    if pending != [] {
      SlotCountWithout(pending[1..], x, id);
    }
  }

  /**
   * Adding a request keeps exactly one request under its identifier and leaves the number
   * under every other identifier unchanged.
   */
  lemma AddKeepsSlots(pending: seq<Request>, r: Request, id: string)
    ensures SlotCount(WithoutIdentifier(pending, r.identifier) + [r], id) ==
            if id == r.identifier then 1 else SlotCount(pending, id)
  {
    SlotCountAppend(WithoutIdentifier(pending, r.identifier), r, id);
    SlotCountWithout(pending, r.identifier, id);
  }

  /** The device's notification centre, reduced to its list of pending requests. */
  class NotificationCenter {
    var pending: seq<Request>

    constructor ()
      ensures pending == []
    {
      pending := [];
    }

    method RemoveAllPendingNotificationRequests()
      modifies this
      ensures pending == []
    {
      pending := [];
    }

    /**
     * `add(_:)`. A new request replaces the pending request with the same identifier; this
     * is the notification centre's documented behaviour, taken here as an assumption about
     * the platform.
     */
    method Add(request: Request)
      modifies this
      ensures pending == WithoutIdentifier(old(pending), request.identifier) + [request]
      ensures SlotCount(pending, request.identifier) == 1
    {
      AddKeepsSlots(pending, request, request.identifier);
      pending := WithoutIdentifier(pending, request.identifier) + [request];
    }
  }

  class NotificationManager {
    const center: NotificationCenter

    constructor (center: NotificationCenter)
      ensures this.center == center
    {
      this.center := center;
    }

    /**
     * `scheduleDailyNotification(at:)`: clears every pending request, then adds the
     * summary request with a sound only (no title, no body) at `time`, repeating.
     */
    method ScheduleDailyNotification(time: DateComponents)
      modifies center
      ensures center.pending ==
        [Request(DailyIdentifier, Content("", "", true), CalendarTrigger(time, true))]
    {
      center.RemoveAllPendingNotificationRequests();
      var content := Content("", "", false);
      content := content.(sound := true);
      var trigger := CalendarTrigger(time, true);
      center.Add(Request(DailyIdentifier, content, trigger));
    }

    /**
     * `updateNotificationWithTaskCount(count)`: puts the summary carrying `count` in the
     * daily slot at 08:30, repeating; the other pending requests stay.
     */
    method UpdateNotificationWithTaskCount(count: int)
      modifies center
      ensures center.pending == WithoutIdentifier(old(center.pending), DailyIdentifier) +
        [Request(DailyIdentifier, Content(DailyTitle, DailyBody(count), true), SummaryTrigger)]
      ensures SlotCount(center.pending, DailyIdentifier) == 1
      ensures forall id :: id != DailyIdentifier ==>
        SlotCount(center.pending, id) == SlotCount(old(center.pending), id)
    {
      var content := Content("", "", false);
      content := content.(title := DailyTitle);
      content := content.(body := DailyBody(count));
      content := content.(sound := true);
      var dateComponents := DateComponents(None, None);
      dateComponents := dateComponents.(hour := Some(8));
      dateComponents := dateComponents.(minute := Some(30));
      var trigger := CalendarTrigger(dateComponents, true);
      var request := Request(DailyIdentifier, content, trigger);
      forall id | id != DailyIdentifier
        ensures SlotCount(WithoutIdentifier(center.pending, DailyIdentifier) + [request], id) ==
                SlotCount(center.pending, id)
      {
        AddKeepsSlots(center.pending, request, id);
      }
      center.Add(request);
    }
  }
}
