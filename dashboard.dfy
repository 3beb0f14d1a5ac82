/**
 * The student dashboard: a notification list with unread tracking, a
 * message composer that triggers a mock instructor reply, and a month
 * calendar that places deadlines on their days.
 */
module Dashboard {
  import opened Text
  import Seqs

  datatype NotificationType = DeadlineNotice | Announcement | Message

  datatype Notification = Notification(
    id: string,
    title: string,
    message: string,
    kind: NotificationType,
    timestamp: string,
    isRead: bool)

  datatype DeadlineType = Exam | Assignment | Quiz

  datatype Priority = High | Medium | Low

  datatype Deadline = Deadline(id: string, title: string, date: string, kind: DeadlineType, priority: Priority)

  datatype Instructor = Instructor(name: string, specialty: string)

  const Deadlines: seq<Deadline> := [
    Deadline("d1", "Anatomy Final Quiz", "Oct 24, 2023", Quiz, High),
    Deadline("d2", "ICD-10 Case Study Submission", "Oct 28, 2023", Assignment, Medium),
    Deadline("d3", "Coding Standards Seminar", "Oct 15, 2023", Assignment, Low)
  ]

  const InitialNotifications: seq<Notification> := [
    Notification("n1", "Upcoming Deadline",
      "Your Anatomy Final Quiz is due in 48 hours. " + "Don't forget to review Module 3.",
      DeadlineNotice, "1 hour ago", false),
    Notification("n2", "New Course Announcement",
      "Enrollment for the \"Risk Adjustment Mastery\" " + "course is now open for CPC graduates.",
      Announcement, "4 hours ago", false),
    Notification("n3", "Message from Dr. Chen",
      "Great job on the latest case study! Your attention " + "to detail in ICD-10-CM coding is improving.",
      Message, "Yesterday", true)
  ]

  const Instructors: seq<Instructor> := [
    Instructor("Dr. Sarah Chen", "CPC Lead Mentor"),
    Instructor("Prof. Marcus Thompson", "CCS & Inpatient"),
    Instructor("Elena Rodriguez", "Auditing Director")
  ]

  const MockReplies: seq<string> := [
    "I've reviewed your latest submission. Your sequencing of the " + "CPT codes for the surgery section was spot on!",
    "Are you free for a quick Zoom call tomorrow? I want to clarify " + "the HCC guidelines for your project.",
    "Check out the new resource I uploaded to Module 4. It " + "specifically covers the neoplasm table updates.",
    "Great question regarding Modifier 25. Usually, it's used when a " + "separate evaluation is performed on the same day as a procedure."
  ]

  // ---------------------------------------------------------------------------
  // The notification list as values

  predicate IsUnread(n: Notification)
  {
    !n.isRead
  }

  predicate IsMessage(n: Notification)
  {
    n.kind == Message
  }

  /** `unreadCount`: how many notifications are not read yet. */
  function UnreadCount(notifications: seq<Notification>): (count: nat)
    ensures count <= |notifications|
    ensures count == 0 <==> forall n :: n in notifications ==> n.isRead
  {
    Seqs.FilterDropsAll(notifications, IsUnread);
    |Seqs.Filter(notifications, IsUnread)|
  }

  /** `messageHistory`: the notifications of type 'Message', in list order. */
  function MessageHistory(notifications: seq<Notification>): (r: seq<Notification>)
    ensures Seqs.IsSubsequence(r, notifications)
    ensures forall n :: n in r <==> n in notifications && n.kind == Message
    ensures forall n | n in notifications :: multiset(r)[n] == if n.kind == Message then multiset(notifications)[n] else 0
  {
    Seqs.FilterCounts(notifications, IsMessage);
    Seqs.Filter(notifications, IsMessage)
  }

  /** The notification list after `markAsRead(id)`. */
  function MarkRead(notifications: seq<Notification>, id: string): (r: seq<Notification>)
    ensures |r| == |notifications|
    ensures forall i :: 0 <= i < |r| ==>
      r[i] == if notifications[i].id == id then notifications[i].(isRead := true) else notifications[i]
  {
    seq(|notifications|, i requires 0 <= i < |notifications| =>
      if notifications[i].id == id then notifications[i].(isRead := true) else notifications[i])
  }

  /** The notification list after `markAllAsRead`. */
  function MarkAll(notifications: seq<Notification>): (r: seq<Notification>)
    ensures |r| == |notifications|
    ensures forall i :: 0 <= i < |r| ==> r[i] == notifications[i].(isRead := true)
  {
    seq(|notifications|, i requires 0 <= i < |notifications| => notifications[i].(isRead := true))
  }

  /** Marking by id works element by element, so it splits at the front. */
  lemma MarkReadCons(n: Notification, rest: seq<Notification>, id: string)
    ensures MarkRead([n] + rest, id) == [if n.id == id then n.(isRead := true) else n] + MarkRead(rest, id)
  {
    var l := MarkRead([n] + rest, id);
    var r := [if n.id == id then n.(isRead := true) else n] + MarkRead(rest, id);
    forall i | 0 <= i < |l| ensures l[i] == r[i] {
      if i > 0 {
        assert ([n] + rest)[i] == rest[i - 1];
      }
    }
  }

  /** Marking everything read splits at the front the same way. */
  lemma MarkAllCons(n: Notification, rest: seq<Notification>)
    ensures MarkAll([n] + rest) == [n.(isRead := true)] + MarkAll(rest)
  {
    var l := MarkAll([n] + rest);
    var r := [n.(isRead := true)] + MarkAll(rest);
    forall i | 0 <= i < |l| ensures l[i] == r[i] {
      if i > 0 {
        assert ([n] + rest)[i] == rest[i - 1];
      }
    }
  }

  /** A notification put in front counts once more exactly when it is unread. */
  lemma UnreadCountCons(n: Notification, notifications: seq<Notification>)
    ensures UnreadCount([n] + notifications) == UnreadCount(notifications) + (if n.isRead then 0 else 1)
  {
    Seqs.FilterCons(n, notifications, IsUnread);
  }

  /** After marking everything read nothing is unread, and marking again changes nothing. */
  lemma MarkAllClearsUnread(notifications: seq<Notification>)
    ensures UnreadCount(MarkAll(notifications)) == 0
    ensures MarkAll(MarkAll(notifications)) == MarkAll(notifications)
  {
    var r := MarkAll(notifications);
    assert forall n :: n in r ==> n.isRead;
  }

  /** Marking one id read leaves no unread notification with that id and keeps every id in place. */
  lemma MarkReadClearsId(notifications: seq<Notification>, id: string)
    ensures forall n :: n in MarkRead(notifications, id) && n.id == id ==> n.isRead
    ensures forall i :: 0 <= i < |notifications| ==> MarkRead(notifications, id)[i].id == notifications[i].id
  {
  }

  /** Marking read never raises the unread count. */
  lemma {:induction false} MarkReadLowersUnread(notifications: seq<Notification>, id: string)
    ensures UnreadCount(MarkRead(notifications, id)) <= UnreadCount(notifications)
  {
    if notifications != [] {
      var n := notifications[0];
      var rest := notifications[1..];
      assert notifications == [n] + rest;
      MarkReadLowersUnread(rest, id);
      MarkReadCons(n, rest, id);
      UnreadCountCons(n, rest);
      UnreadCountCons(if n.id == id then n.(isRead := true) else n, MarkRead(rest, id));
    }
  }


  /** Marking read changes no message's place in the message history, only its read flag. */
  lemma {:induction false} MarkAllKeepsHistory(notifications: seq<Notification>)
    ensures MessageHistory(MarkAll(notifications)) == MarkAll(MessageHistory(notifications))
  {
    if notifications != [] {
      var n := notifications[0];
      var rest := notifications[1..];
      MarkAllKeepsHistory(rest);
      assert notifications == [n] + rest;
      MarkAllCons(n, rest);
      Seqs.FilterCons(n, rest, IsMessage);
      Seqs.FilterCons(n.(isRead := true), MarkAll(rest), IsMessage);
      if IsMessage(n) {
        MarkAllCons(n, MessageHistory(rest));
      }
    }
  }


  /** The page opens with two unread notifications, one of them a message thread entry. */
  lemma InitialCounts()
    ensures UnreadCount(InitialNotifications) == 2
    ensures MessageHistory(InitialNotifications) == [InitialNotifications[2]]
  {
    var n := InitialNotifications;
    assert n == [n[0]] + ([n[1]] + [n[2]]);
    UnreadCountCons(n[2], []);
    UnreadCountCons(n[1], [n[2]]);
    UnreadCountCons(n[0], [n[1]] + [n[2]]);
    Seqs.FilterCons(n[2], [], IsMessage);
    Seqs.FilterCons(n[1], [n[2]], IsMessage);
    Seqs.FilterCons(n[0], [n[1]] + [n[2]], IsMessage);
  }

  /** `Math.floor(Math.random() * MOCK_REPLIES.length)` for a draw in [0, 1). */
  function ReplyIndex(draw: real): (k: nat)
    requires 0.0 <= draw < 1.0
    ensures k < |MockReplies|
    ensures k as real <= draw * 4.0 < k as real + 1.0
  {
    (draw * 4.0).Floor
  }

  /** The notification `triggerIncomingMessage` creates; `stamp` stands for `Date.now()`. */
  function IncomingMessage(instructor: Instructor, draw: real, stamp: string): (n: Notification)
    requires 0.0 <= draw < 1.0
    ensures n.kind == Message && !n.isRead && n.message in MockReplies
    ensures n.id == "n-" + stamp && n.title == "Message from " + instructor.name && n.timestamp == "Just now"
  {
    Notification("n-" + stamp, "Message from " + instructor.name, MockReplies[ReplyIndex(draw)], Message,
      "Just now", false)
  }

  // ---------------------------------------------------------------------------
  // Calendar

  /** A cell of the month grid: a blank before the first weekday, or a day with its deadlines. */
  datatype CalendarCell = Blank | Day(day: nat, deadlines: seq<Deadline>)

  function DueOn(date: string): Deadline -> bool
  {
    (d: Deadline) => d.date == date
  }

  /** The deadlines whose date string equals `date`, in list order. */
  function DeadlinesOn(date: string): (r: seq<Deadline>)
    ensures Seqs.IsSubsequence(r, Deadlines)
    ensures forall d :: d in r <==> d in Deadlines && d.date == date
  {
    Seqs.Filter(Deadlines, DueOn(date))
  }

  /**
   * `calendarData`: `firstDay` blank cells, then one cell per day of the
   * month carrying the deadlines due that day. `dateLabel` stands for the
   * formatted date string of each day.
   */
  method CalendarDays(firstDay: nat, daysInMonth: nat, dateLabel: nat -> string) returns (days: seq<CalendarCell>)
    ensures |days| == firstDay + daysInMonth
    ensures forall i :: 0 <= i < firstDay ==> days[i] == Blank
    ensures forall d :: 1 <= d <= daysInMonth ==> days[firstDay + d - 1] == Day(d, DeadlinesOn(dateLabel(d)))
  {
    days := [];
    var i := 0;
    while i < firstDay
      invariant 0 <= i <= firstDay
      invariant |days| == i
      invariant forall j :: 0 <= j < i ==> days[j] == Blank
    {
      days := days + [Blank];
      i := i + 1;
    }
    var d := 1;
    while d <= daysInMonth
      invariant 1 <= d <= daysInMonth + 1
      invariant |days| == firstDay + d - 1
      invariant forall j :: 0 <= j < firstDay ==> days[j] == Blank
      invariant forall e :: 1 <= e < d ==> days[firstDay + e - 1] == Day(e, DeadlinesOn(dateLabel(e)))
    {
      days := days + [Day(d, DeadlinesOn(dateLabel(d)))];
      d := d + 1;
    }
  }

  // ---------------------------------------------------------------------------
  // Month navigation

  /**
   * `new Date(year, month + offset, 1)` read back as (full year, month), as
   * the code is written: the month overflows into the year, and a year
   * argument in 0..99 is taken as 1900 + year by the Date constructor.
   */
  function ShiftMonthAsWritten(year: int, month: int, offset: int): (r: (int, int))
    ensures 0 <= r.1 < 12
    ensures !(0 <= year <= 99) ==> r.0 * 12 + r.1 == year * 12 + month + offset
    ensures 0 <= year <= 99 ==> r.0 * 12 + r.1 == (1900 + year) * 12 + month + offset
  {
    var fullYear := if 0 <= year <= 99 then 1900 + year else year;
    (fullYear + (month + offset) / 12, (month + offset) % 12)
  }

  /**
   * December of year 99 is reached by one step back from January 100; one more
   * step back lands in November 1999, not November 99.
   */
  lemma YearNinetyNineJumps()
    ensures ShiftMonth(100, 0, -1) == (99, 11)
    ensures ShiftMonthAsWritten(100, 0, -1) == (99, 11)
    ensures ShiftMonthAsWritten(99, 11, -1) == (1999, 10)
    ensures ShiftMonthAsWritten(99, 11, -1) != ShiftMonth(99, 11, -1)
  {
  }

  /** The month `offset` months away from (year, month), by month index. */
  function ShiftMonth(year: int, month: int, offset: int): (r: (int, int))
    ensures 0 <= r.1 < 12
    ensures r.0 * 12 + r.1 == year * 12 + month + offset
  {
    (year + (month + offset) / 12, (month + offset) % 12)
  }

  /** Away from the two-digit years the code as written and the month index agree. */
  lemma AsWrittenAgrees(year: int, month: int, offset: int)
    requires !(0 <= year <= 99)
    ensures ShiftMonthAsWritten(year, month, offset) == ShiftMonth(year, month, offset)
  {
  }

  /** A month index year * 12 + month with month in 0..11 determines year and month. */
  lemma MonthIndexDetermines(y1: int, m1: int, y2: int, m2: int)
    requires 0 <= m1 < 12 && 0 <= m2 < 12 && y1 * 12 + m1 == y2 * 12 + m2
    ensures y1 == y2 && m1 == m2
  {
  }

  /** Two moves add up. */
  lemma ShiftMonthCompose(year: int, month: int, a: int, b: int)
    ensures var m := ShiftMonth(year, month, a); ShiftMonth(m.0, m.1, b) == ShiftMonth(year, month, a + b)
  {
    var m := ShiftMonth(year, month, a);
    var n := ShiftMonth(m.0, m.1, b);
    var k := ShiftMonth(year, month, a + b);
    MonthIndexDetermines(n.0, n.1, k.0, k.1);
  }

  /** One month back then one forward returns to the same month. */
  lemma BackAndForth(year: int, month: int)
    requires 0 <= month < 12
    ensures var m := ShiftMonth(year, month, -1); ShiftMonth(m.0, m.1, 1) == (year, month)
  {
    ShiftMonthCompose(year, month, -1, 1);
    MonthIndexDetermines(ShiftMonth(year, month, 0).0, ShiftMonth(year, month, 0).1, year, month);
  }

  // ---------------------------------------------------------------------------
  // The page state

  class DashboardPage {
    var notifications: seq<Notification>
    var isNotificationsOpen: bool
    var isMessageModalOpen: bool
    var selectedInstructor: Instructor
    var messageText: string
    var isSending: bool
    var calendarYear: int
    var calendarMonth: int

    /** The month shown is always a month in 0..11. */
    predicate Valid()
      reads this
    {
      0 <= calendarMonth < 12
    }

    /** The page opens on October 2023 with the three initial notifications. */
    constructor()
      ensures Valid()
      ensures notifications == InitialNotifications && !isNotificationsOpen && !isMessageModalOpen
      ensures selectedInstructor == Instructors[0] && messageText == "" && !isSending
      ensures calendarYear == 2023 && calendarMonth == 9
    {
      notifications := InitialNotifications;
      isNotificationsOpen := false;
      isMessageModalOpen := false;
      selectedInstructor := Instructors[0];
      messageText := "";
      isSending := false;
      calendarYear := 2023;
      calendarMonth := 9;
    }

    method MarkAsRead(id: string)
      modifies this`notifications
      ensures notifications == MarkRead(old(notifications), id)
      ensures UnreadCount(notifications) <= UnreadCount(old(notifications))
    {
      MarkReadLowersUnread(notifications, id);
      notifications := MarkRead(notifications, id);
    }

    method MarkAllAsRead()
      modifies this`notifications
      ensures notifications == MarkAll(old(notifications))
      ensures UnreadCount(notifications) == 0
    {
      MarkAllClearsUnread(notifications);
      notifications := MarkAll(notifications);
    }

    /** A mock reply arrives: it goes in front, unread, and the panel opens. */
    method TriggerIncomingMessage(instructor: Instructor, draw: real, stamp: string)
      requires 0.0 <= draw < 1.0
      modifies this`notifications, this`isNotificationsOpen
      ensures notifications == [IncomingMessage(instructor, draw, stamp)] + old(notifications)
      ensures UnreadCount(notifications) == UnreadCount(old(notifications)) + 1
      ensures isNotificationsOpen
    {
      var n := IncomingMessage(instructor, draw, stamp);
      UnreadCountCons(n, notifications);
      notifications := [n] + notifications;
      isNotificationsOpen := true;
    }

    /** Opening the composer for an instructor. */
    method ComposeTo(instructor: Instructor)
      modifies this`selectedInstructor, this`isMessageModalOpen
      ensures selectedInstructor == instructor && isMessageModalOpen
    {
      selectedInstructor := instructor;
      isMessageModalOpen := true;
    }

    method SetMessageText(text: string)
      modifies this`messageText
      ensures messageText == text
    {
      messageText := text;
    }

    /** Submitting the composer: only a text with something besides whitespace starts sending. */
    method HandleSendMessage() returns (started: bool)
      modifies this`isSending
      ensures started <==> !AllWhitespace(messageText)
      ensures isSending == if started then true else old(isSending)
    {
      if Trim(messageText) == [] {
        return false;
      }
      started := true;
      isSending := true;
    }

    /** The first delay after a send: sending ends, the composer closes and is emptied. */
    method FinishSending()
      modifies this`isSending, this`isMessageModalOpen, this`messageText
      ensures !isSending && !isMessageModalOpen && messageText == ""
    {
      isSending := false;
      isMessageModalOpen := false;
      messageText := "";
    }

    method ChangeMonth(offset: int)
      requires Valid()
      modifies this`calendarYear, this`calendarMonth
      ensures Valid()
      ensures (calendarYear, calendarMonth) == ShiftMonth(old(calendarYear), old(calendarMonth), offset)
    {
      var r := ShiftMonth(calendarYear, calendarMonth, offset);
      calendarYear, calendarMonth := r.0, r.1;
    }
  }
}
