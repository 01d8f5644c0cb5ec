/** The bookings panel: client bookings with a status and a message thread,
    seeded with three mock bookings, filtered by a status tab, summarised by
    counters, and written to the "photographer_bookings" store without the mock
    entries. Dates and timestamps are integers. */
module Bookings {
  import opened Opt
  import opened Seqs
  import Text

  datatype BookingStatus = Pending | Confirmed | Completed | Cancelled

  datatype Sender = Client | Photographer

  datatype Message = Message(id: string, sender: Sender, content: string, timestamp: int)

  datatype Booking = Booking(
    id: string,
    clientName: string,
    clientEmail: string,
    clientPhone: string,
    eventType: string,
    eventDate: int,
    eventLocation: string,
    package: string,
    price: int,
    status: BookingStatus,
    notes: string,
    createdAt: int,
    messages: seq<Message>)

  /** The tab the list is filtered by: "all" or one status. */
  datatype Tab = AllTab | StatusTab(status: BookingStatus)

  /** The counters above the list. */
  datatype Stats = Stats(pending: nat, confirmed: nat, completed: nat, totalRevenue: int)

  /** The ids of the seeded bookings. */
  const MockIds: set<string> := {"1", "2", "3"}

  // The texts of the seeded bookings.
  const SarahAsks: string := "Hi! I'm interested in booking you for our wedding on the 15th. Do you have availability?"
  const PhotographerAnswers: string := "Hello Sarah! Congratulations on your engagement! Yes, I have availability for that date. I'd love to discuss your vision for the day."
  const MikeAsks: string := "We need professional photography for our annual meeting. Can you handle both event coverage and individual headshots?"
  const SarahNotes: string := "Outdoor ceremony, reception until 11pm. Need drone shots."
  const MikeNotes: string := "Annual company meeting, need headshots of executives."
  const EmilyNotes: string := "Family of 4, golden hour session requested."

  /** The three seeded bookings, dated relative to `today`. */
  function MockBookings(today: int): (r: seq<Booking>)
    ensures |r| == 3
    ensures forall b :: b in r ==> b.id in MockIds
  {
    [ Booking("1", "Sarah Johnson", "sarah.j@email.com", "+1 (555) 123-4567", "Wedding",
              today + 14, "Central Park, New York", "Wedding Premium", 2500, Pending,
              SarahNotes, today - 2,
              [ Message("1", Client, SarahAsks, today - 2),
                Message("2", Photographer, PhotographerAnswers, today - 1) ]),
      Booking("2", "Mike Thompson", "mike.t@email.com", "+1 (555) 987-6543", "Corporate Event",
              today + 7, "Downtown Conference Center", "Corporate Event", 800, Confirmed,
              MikeNotes, today - 5,
              [ Message("1", Client, MikeAsks, today - 5) ]),
      Booking("3", "Emily Chen", "emily.c@email.com", "+1 (555) 456-7890", "Family Portrait",
              today - 10, "Brooklyn Bridge Park", "Portrait Session", 300, Completed,
              EmilyNotes, today - 15, []) ]
  }

  function NotMock(): Booking -> bool
  {
    (b: Booking) => b.id !in MockIds
  }

  function HasStatus(st: BookingStatus): Booking -> bool
  {
    (b: Booking) => b.status == st
  }

  function Price(b: Booking): int
  {
    b.price
  }

  predicate UniqueIds(bs: seq<Booking>)
  {
    forall i, j :: 0 <= i < j < |bs| ==> bs[i].id != bs[j].id
  }

  /** The list both handlers write to the store: the non-mock bookings. */
  function WithoutMocks(bs: seq<Booking>): (r: seq<Booking>)
    ensures forall b :: b in r <==> b in bs && b.id !in MockIds
  {
    Filter(bs, NotMock())
  }

  /** Mounting lists the saved bookings before the mocks; saving drops the
      mocks again, so a store without mock ids reads back unchanged. */
  lemma SaveAfterLoad(saved: seq<Booking>, today: int)
    requires forall b :: b in saved ==> b.id !in MockIds
    ensures WithoutMocks(saved + MockBookings(today)) == saved
  {
    FilterAppend(saved, MockBookings(today), NotMock());
    FilterAll(saved, NotMock());
    FilterNone(MockBookings(today), NotMock());
  }

  /** `updateBookingStatus`'s new list: the bookings with that id take the new
      status, with no check of the old one; nothing else changes. */
  function WithStatus(bs: seq<Booking>, id: string, st: BookingStatus): (r: seq<Booking>)
    ensures |r| == |bs|
    ensures forall i :: 0 <= i < |bs| ==> r[i] == bs[i].(status := r[i].status)
    ensures forall i :: 0 <= i < |bs| ==> r[i].status == if bs[i].id == id then st else bs[i].status
  {
    Map(bs, (b: Booking) => if b.id == id then b.(status := st) else b)
  }

  /** Setting a status twice keeps the second, and the bookings of other ids
      are the same list before and after. */
  lemma WithStatusLastWins(bs: seq<Booking>, id: string, s1: BookingStatus, s2: BookingStatus)
    ensures WithStatus(WithStatus(bs, id, s1), id, s2) == WithStatus(bs, id, s2)
  {
  }

  /** The seeded bookings have distinct ids; mounting a mock-free store with
      distinct ids gives a list with distinct ids; a status change and a
      replacement by a booking of the same id keep ids distinct. */
  lemma UniqueIdsKept(bs: seq<Booking>, id: string, st: BookingStatus, today: int, updated: Booking)
    ensures UniqueIds(MockBookings(today))
    ensures UniqueIds(bs) && (forall b :: b in bs ==> b.id !in MockIds) ==> UniqueIds(bs + MockBookings(today))
    ensures UniqueIds(bs) ==> UniqueIds(WithStatus(bs, id, st))
    ensures UniqueIds(bs) && updated.id == id ==> UniqueIds(ReplaceById(bs, id, updated))
  {
    var r := bs + MockBookings(today);
    if UniqueIds(bs) && (forall b :: b in bs ==> b.id !in MockIds) {
      forall i, j | 0 <= i < j < |r| ensures r[i].id != r[j].id {
        if j >= |bs| {
          assert r[j] in MockBookings(today);
          if i < |bs| {
            assert r[i] in bs;
          }
        }
      }
    }
  }

  /** `filteredBookings`: the whole list on "all", else exactly the bookings of
      the tab's status in their order. */
  function Filtered(bs: seq<Booking>, tab: Tab): (r: seq<Booking>)
    ensures tab == AllTab ==> r == bs
    ensures tab.StatusTab? ==> forall b :: b in r <==> b in bs && b.status == tab.status
  {
    match tab
    case AllTab => bs
    case StatusTab(st) => Filter(bs, HasStatus(st))
  }

  /** A status tab shows each booking of its status as often as the list
      holds it and no other booking. */
  lemma FilteredCount(bs: seq<Booking>, tab: Tab, b: Booking)
    ensures multiset(Filtered(bs, tab))[b] ==
              if tab.AllTab? || b.status == tab.status then multiset(bs)[b] else 0
  {
    if tab.StatusTab? {
      FilterCount(bs, HasStatus(tab.status), b);
    }
  }

  /** The view keeps the order of the list: it is built booking by booking,
      and a single booking shows exactly when it is of the tab's status. */
  lemma FilteredInOrder(a: seq<Booking>, b: seq<Booking>, tab: Tab, x: Booking)
    ensures Filtered(a + b, tab) == Filtered(a, tab) + Filtered(b, tab)
    ensures Filtered([x], tab) == if tab.AllTab? || x.status == tab.status then [x] else []
  {
    if tab.StatusTab? {
      FilterAppend(a, b, HasStatus(tab.status));
      assert [x][1..] == [];
    }
  }

  function Count(bs: seq<Booking>, st: BookingStatus): nat
  {
    |Filter(bs, HasStatus(st))|
  }

  /** `stats.totalRevenue`: the sum of the prices of the completed bookings. */
  function Revenue(bs: seq<Booking>): int
  {
    Sum(Map(Filter(bs, HasStatus(Completed)), Price))
  }

  /** `stats`: the three status counters and the completed revenue. */
  function StatsOf(bs: seq<Booking>): (r: Stats)
    ensures r.pending + r.confirmed + r.completed <= |bs|
  {
    CountPartition(bs);
    Stats(Count(bs, Pending), Count(bs, Confirmed), Count(bs, Completed), Revenue(bs))
  }

  /** Every booking has exactly one of the four statuses. */
  lemma {:induction false} CountPartition(bs: seq<Booking>)
    ensures Count(bs, Pending) + Count(bs, Confirmed) + Count(bs, Completed) + Count(bs, Cancelled) == |bs|
  {
    if bs != [] {
      CountPartition(bs[1..]);
    }
  }

  lemma {:induction false} RevenueSum(bs: seq<Booking>)
    ensures Revenue(bs) == if bs == [] then 0
                           else (if bs[0].status == Completed then bs[0].price else 0) + Revenue(bs[1..])
  {
    if bs != [] {
      var tail := Filter(bs[1..], HasStatus(Completed));
      if bs[0].status == Completed {
        assert Filter(bs, HasStatus(Completed)) == [bs[0]] + tail;
        MapAppend([bs[0]], tail, Price);
        assert Map([bs[0]], Price) == [bs[0].price];
        SumAppend([bs[0].price], Map(tail, Price));
      } else {
        assert Filter(bs, HasStatus(Completed)) == tail;
      }
    }
  }

  /** The counters and the revenue are sums over the list, so they split at
      any point of it. */
  lemma CountSplit(a: seq<Booking>, b: seq<Booking>, st: BookingStatus)
    ensures Count(a + b, st) == Count(a, st) + Count(b, st)
    ensures Revenue(a + b) == Revenue(a) + Revenue(b)
  {
    FilterAppend(a, b, HasStatus(st));
    FilterAppend(a, b, HasStatus(Completed));
    var fa, fb := Filter(a, HasStatus(Completed)), Filter(b, HasStatus(Completed));
    MapAppend(fa, fb, Price);
    SumAppend(Map(fa, Price), Map(fb, Price));
  }

  /** With unique ids, moving one booking from one status to another moves it
      from one counter to the other, and changes the revenue only when
      "completed" is one of the two. */
  lemma ChangeOneStatus(bs: seq<Booking>, i: nat, st: BookingStatus, q: BookingStatus)
    requires UniqueIds(bs) && i < |bs|
    ensures Count(WithStatus(bs, bs[i].id, st), q) ==
              Count(bs, q) - (if bs[i].status == q then 1 else 0) + (if st == q then 1 else 0)
    ensures Revenue(WithStatus(bs, bs[i].id, st)) ==
              Revenue(bs) - (if bs[i].status == Completed then bs[i].price else 0)
                          + (if st == Completed then bs[i].price else 0)
  {
    var id := bs[i].id;
    var w := WithStatus(bs, id, st);
    var a, c := bs[..i], bs[i + 1..];
    assert bs == a + [bs[i]] + c;
    assert w == a + [bs[i].(status := st)] + c;
    CountSplit(a + [bs[i]], c, q);
    CountSplit(a, [bs[i]], q);
    CountSplit(a + [bs[i].(status := st)], c, q);
    CountSplit(a, [bs[i].(status := st)], q);
    RevenueSum([bs[i]]);
    RevenueSum([bs[i].(status := st)]);
    assert Revenue([]) == 0;
  }

  /** Accepting a pending booking moves it from "pending" to "confirmed" and
      leaves the revenue as it was. */
  lemma AcceptPending(bs: seq<Booking>, i: nat)
    requires UniqueIds(bs) && i < |bs| && bs[i].status == Pending
    ensures StatsOf(WithStatus(bs, bs[i].id, Confirmed)).pending == StatsOf(bs).pending - 1
    ensures StatsOf(WithStatus(bs, bs[i].id, Confirmed)).confirmed == StatsOf(bs).confirmed + 1
    ensures StatsOf(WithStatus(bs, bs[i].id, Confirmed)).completed == StatsOf(bs).completed
    ensures StatsOf(WithStatus(bs, bs[i].id, Confirmed)).totalRevenue == StatsOf(bs).totalRevenue
  {
    ChangeOneStatus(bs, i, Confirmed, Pending);
    ChangeOneStatus(bs, i, Confirmed, Confirmed);
    ChangeOneStatus(bs, i, Confirmed, Completed);
  }

  /** `sendMessage`'s new list: every booking with the selected id becomes
      `updated`. */
  function ReplaceById(bs: seq<Booking>, id: string, updated: Booking): (r: seq<Booking>)
    ensures |r| == |bs|
    ensures forall i :: 0 <= i < |bs| ==> r[i] == if bs[i].id == id then updated else bs[i]
  {
    Map(bs, (b: Booking) => if b.id == id then updated else b)
  }

  /** The selected booking with the photographer's reply appended. */
  function WithReply(selected: Booking, msgId: string, content: string, now: int): (r: Booking)
    ensures r == selected.(messages := r.messages)
    ensures |r.messages| == |selected.messages| + 1
    ensures r.messages[..|selected.messages|] == selected.messages
    ensures r.messages[|selected.messages|] == Message(msgId, Photographer, content, now)
  {
    selected.(messages := selected.messages + [Message(msgId, Photographer, content, now)])
  }

  /** After a reply, each booking with the selected id carries the selected
      booking's thread plus exactly one photographer message at its end; the
      bookings of other ids are untouched. */
  lemma ReplyAppendsOne(bs: seq<Booking>, selected: Booking, msgId: string, content: string, now: int)
    ensures forall i :: 0 <= i < |bs| && bs[i].id == selected.id ==>
              ReplaceById(bs, selected.id, WithReply(selected, msgId, content, now))[i].messages
                == selected.messages + [Message(msgId, Photographer, content, now)]
    ensures forall i :: 0 <= i < |bs| && bs[i].id != selected.id ==>
              ReplaceById(bs, selected.id, WithReply(selected, msgId, content, now))[i] == bs[i]
  {
  }

  class BookingsPanel {
    const today: int
    var bookings: seq<Booking>
    var selectedBooking: Option<Booking>
    var isDialogOpen: bool
    var replyMessage: string
    var activeTab: Tab
    /** "photographer_bookings"; None while nothing was ever written. */
    var stored: Option<seq<Booking>>

    /** Mounting: the saved bookings (none when the key is absent), then the mocks. */
    constructor Load(saved: Option<seq<Booking>>, today: int)
      ensures this.today == today
      ensures bookings == saved.GetOr([]) + MockBookings(today)
      ensures stored == saved
      ensures selectedBooking == None && !isDialogOpen && replyMessage == "" && activeTab == AllTab
    {
      this.today := today;
      bookings := saved.GetOr([]) + MockBookings(today);
      selectedBooking := None;
      isDialogOpen := false;
      replyMessage := "";
      activeTab := AllTab;
      stored := saved;
    }

    method UpdateBookingStatus(bookingId: string, status: BookingStatus)
      modifies this
      ensures bookings == WithStatus(old(bookings), bookingId, status)
      ensures stored == Some(WithoutMocks(bookings))
      ensures selectedBooking == old(selectedBooking) && isDialogOpen == old(isDialogOpen)
      ensures replyMessage == old(replyMessage) && activeTab == old(activeTab)
    {
      bookings := WithStatus(bookings, bookingId, status);
      stored := Some(WithoutMocks(bookings));
    }

    /** Nothing without a selected booking or with a blank reply; otherwise
        appends the reply (as typed) to the selected booking, puts that booking
        in place of every booking with its id, clears the reply and saves. */
    method SendMessage(msgId: string, now: int)
      modifies this
      ensures old(selectedBooking).None? || Text.IsBlank(old(replyMessage)) ==>
                bookings == old(bookings) && stored == old(stored)
                && selectedBooking == old(selectedBooking) && replyMessage == old(replyMessage)
      ensures old(selectedBooking).Some? && !Text.IsBlank(old(replyMessage)) ==>
                var updated := WithReply(old(selectedBooking).value, msgId, old(replyMessage), now);
                && bookings == ReplaceById(old(bookings), updated.id, updated)
                && selectedBooking == Some(updated)
                && replyMessage == ""
                && stored == Some(WithoutMocks(bookings))
      ensures isDialogOpen == old(isDialogOpen) && activeTab == old(activeTab)
    {
      if selectedBooking.None? || Text.IsBlank(replyMessage) {
        return;
      }
      var updated := WithReply(selectedBooking.value, msgId, replyMessage, now);
      bookings := ReplaceById(bookings, updated.id, updated);
      selectedBooking := Some(updated);
      replyMessage := "";
      stored := Some(WithoutMocks(bookings));
    }

    method OpenBookingDialog(booking: Booking)
      modifies this
      ensures selectedBooking == Some(booking) && isDialogOpen
      ensures bookings == old(bookings) && stored == old(stored)
      ensures replyMessage == old(replyMessage) && activeTab == old(activeTab)
    {
      selectedBooking := Some(booking);
      isDialogOpen := true;
    }

    /** The dialog's `onOpenChange`: only the dialog's visibility changes. */
    method SetDialogOpen(open: bool)
      modifies this
      ensures isDialogOpen == open
      ensures bookings == old(bookings) && stored == old(stored) && selectedBooking == old(selectedBooking)
      ensures replyMessage == old(replyMessage) && activeTab == old(activeTab)
    {
      isDialogOpen := open;
    }

    /** "Accept Booking" and "Decline Booking", shown only while the selected
        booking is pending: the selected id takes the confirmed or cancelled
        status, as `updateBookingStatus` saves it, and the dialog closes.
        Without a pending selection the buttons are absent and nothing
        changes. */
    method RespondToRequest(accept: bool)
      modifies this
      ensures old(selectedBooking).None? || old(selectedBooking).value.status != Pending ==>
                bookings == old(bookings) && stored == old(stored) && isDialogOpen == old(isDialogOpen)
      ensures old(selectedBooking).Some? && old(selectedBooking).value.status == Pending ==>
                && bookings == WithStatus(old(bookings), old(selectedBooking).value.id,
                                          if accept then Confirmed else Cancelled)
                && stored == Some(WithoutMocks(bookings))
                && !isDialogOpen
      ensures selectedBooking == old(selectedBooking)
      ensures replyMessage == old(replyMessage) && activeTab == old(activeTab)
    {
      if selectedBooking.None? || selectedBooking.value.status != Pending {
        return;
      }
      UpdateBookingStatus(selectedBooking.value.id, if accept then Confirmed else Cancelled);
      SetDialogOpen(false);
    }

    method SetReplyMessage(text: string)
      modifies this
      ensures replyMessage == text
      ensures bookings == old(bookings) && stored == old(stored) && selectedBooking == old(selectedBooking)
      ensures isDialogOpen == old(isDialogOpen) && activeTab == old(activeTab)
    {
      replyMessage := text;
    }

    method SetActiveTab(tab: Tab)
      modifies this
      ensures activeTab == tab
      ensures bookings == old(bookings) && stored == old(stored) && selectedBooking == old(selectedBooking)
      ensures isDialogOpen == old(isDialogOpen) && replyMessage == old(replyMessage)
    {
      activeTab := tab;
    }
  }
}
