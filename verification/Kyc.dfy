// Provider events of identity checks: they arrive late, repeated and out of
// order, and the stored status must not depend on it.
module Kyc {
  import opened Prelude

  datatype Status = Creating | Created | Pending | Completed | PendingReview | Approved | Declined | Failed | Expired | Unrecognised

  datatype Inquiry = Inquiry(
    provider: string,
    providerInquiry: Option<string>,
    status: Status,
    providerStatus: string,
    eventAt: Option<int>,
    lastEvent: Option<string>,
    startedAt: Option<int>,
    completedAt: Option<int>,
    approvedAt: Option<int>)

  // A verified provider event with the status it is mapped to.
  datatype Event = Event(
    provider: string,
    id: string,
    inquiry: string,
    kind: string,
    payloadHash: string,
    at: Option<int>,
    mapped: Status,
    providerStatus: string)

  datatype Receipt = Receipt(payloadHash: string, inquiry: string)
  datatype EventKey = EventKey(provider: string, id: string)
  datatype State = State(inquiries: map<string, Inquiry>, receipts: map<EventKey, Receipt>)
  datatype Error = Invalid | NotFound | Conflict | AttachedElsewhere | NotAwaiting

  predicate ValidStatus(status: Status) {
    match status
    case Created => true
    case Pending => true
    case Completed => true
    case PendingReview => true
    case Approved => true
    case Declined => true
    case Failed => true
    case Expired => true
    case _ => false
  }

  predicate Valid(event: Event) {
    && event.provider != "" && event.id != "" && event.inquiry != "" && event.kind != "" && event.payloadHash != ""
    && event.at.Some? && ValidStatus(event.mapped)
  }

  // Strings in the order of their characters, a prefix before what extends it.
  predicate Before(a: string, b: string) {
    if b == "" then false
    else if a == "" then true
    else a[0] < b[0] || (a[0] == b[0] && Before(a[1..], b[1..]))
  }

  predicate NewerThanRow(row: Inquiry, at: int, id: string) {
    match row.eventAt
    case None => true
    case Some(current) =>
      at > current || (at == current && (row.lastEvent.None? || row.lastEvent.value == "" || Before(row.lastEvent.value, id)))
  }

  function KeyOf(event: Event): EventKey {
    EventKey(event.provider, event.id)
  }

  // The row an event newer than it leaves.
  function Updated(row: Inquiry, event: Event): Inquiry
    requires event.at.Some?
  {
    row.(eventAt := event.at, lastEvent := Some(event.id), providerStatus := event.providerStatus, status := event.mapped,
    approvedAt := if event.mapped == Approved then event.at else None,
    startedAt := if event.mapped == Pending && row.startedAt.None? then event.at else row.startedAt,
    completedAt := if event.mapped == Completed && row.completedAt.None? then event.at else row.completedAt)
  }

  function Record(s: State, event: Event): (State, Option<Error>) {
    if !Valid(event) then (s, Some(Invalid))
    else if event.inquiry !in s.inquiries || s.inquiries[event.inquiry].provider != event.provider then (s, Some(NotFound))
    else if KeyOf(event) in s.receipts then
      (s, if s.receipts[KeyOf(event)] != Receipt(event.payloadHash, event.inquiry) then Some(Conflict) else None)
    else
      var row := s.inquiries[event.inquiry];
      var noted := s.(receipts := s.receipts[KeyOf(event) := Receipt(event.payloadHash, event.inquiry)]);
      if !NewerThanRow(row, event.at.value, event.id) then (noted, None)
      else (noted.(inquiries := s.inquiries[event.inquiry := Updated(row, event)]), None)
  }

  function Attach(s: State, id: string, providerInquiry: string, providerStatus: string): (State, Option<Error>) {
    if id == "" || providerInquiry == "" then (s, Some(Invalid))
    else if id !in s.inquiries then (s, Some(NotFound))
    else
      var row := s.inquiries[id];
      match row.providerInquiry
      case Some(other) => (s, if other == providerInquiry then None else Some(AttachedElsewhere))
      case None =>
        if row.status != Creating then (s, Some(NotAwaiting))
        else (s.(inquiries := s.inquiries[id := row.(providerInquiry := Some(providerInquiry),
                                                     providerStatus := providerStatus, status := Created)]), None)
  }

  class KycRepository {
    var inquiries: map<string, Inquiry>
    var receipts: map<EventKey, Receipt>

    function Now(): State
      reads this
    {
      State(inquiries, receipts)
    }

    constructor ()
      ensures Now() == State(map[], map[])
    {
      inquiries, receipts := map[], map[];
    }

    method RecordProviderEvent(event: Event) returns (failure: Option<Error>)
      modifies this
      ensures (Now(), failure) == Record(old(Now()), event)
    {
      if !Valid(event) {
        return Some(Invalid);
      }
      if event.inquiry !in inquiries || inquiries[event.inquiry].provider != event.provider {
        return Some(NotFound);
      }
      var key := KeyOf(event);
      if key in receipts {
        if receipts[key].payloadHash != event.payloadHash || receipts[key].inquiry != event.inquiry {
          return Some(Conflict);
        }
        return None;
      }
      receipts := receipts[key := Receipt(event.payloadHash, event.inquiry)];
      var row := inquiries[event.inquiry];
      if !NewerThanRow(row, event.at.value, event.id) {
        return None;
      }
      var next := row.(eventAt := event.at, lastEvent := Some(event.id), providerStatus := event.providerStatus,
                       status := event.mapped, approvedAt := None);
      match event.mapped {
        case Pending =>
          if row.startedAt.None? {
            next := next.(startedAt := event.at);
          }
        case Completed =>
          if row.completedAt.None? {
            next := next.(completedAt := event.at);
          }
        case Approved =>
          next := next.(approvedAt := event.at);
        case _ =>
      }
      inquiries := inquiries[event.inquiry := next];
      return None;
    }

    method AttachProviderInquiry(id: string, providerInquiry: string, providerStatus: string) returns (failure: Option<Error>)
      modifies `inquiries
      ensures (Now(), failure) == Attach(old(Now()), id, providerInquiry, providerStatus)
    {
      if id == "" || providerInquiry == "" {
        return Some(Invalid);
      }
      if id !in inquiries {
        return Some(NotFound);
      }
      var row := inquiries[id];
      if row.providerInquiry.Some? {
        return if row.providerInquiry.value == providerInquiry then None else Some(AttachedElsewhere);
      }
      if row.status != Creating {
        return Some(NotAwaiting);
      }
      inquiries := inquiries[id := row.(providerInquiry := Some(providerInquiry), providerStatus := providerStatus, status := Created)];
      return None;
    }
  }

  // ---------------------------------------------------------------- the order of events

  lemma {:induction false} BeforeIsTotal(a: string, b: string)
    ensures Before(a, b) || Before(b, a) || a == b
    ensures !(Before(a, b) && Before(b, a)) && !Before(a, a)
  {
    if a != "" {
      BeforeIsTotal(a[1..], a[1..]);
    }
    if a != "" && b != "" {
      BeforeIsTotal(a[1..], b[1..]);
      if a[0] == b[0] && a[1..] == b[1..] {
        assert a == [a[0]] + a[1..] && b == [b[0]] + b[1..];
      }
    }
  }

  // Ids are compared at their first difference; a prefix comes first.
  ghost predicate DifferAt(a: string, b: string, k: nat) {
    && k <= |a| && k < |b| && a[..k] == b[..k]
    && (k == |a| || a[k] < b[k])
  }

  lemma SameStart(a: string, b: string, k: nat)
    requires DifferAt(a, b, k)
    ensures k > 0 ==> a[0] == b[0]
  {
    assert k > 0 ==> a[..k][0] == b[..k][0];
  }

  lemma {:induction false} BeforeIsLexicographic(a: string, b: string)
    ensures Before(a, b) <==> exists k: nat :: DifferAt(a, b, k)
  {
    if a == "" || b == "" || a[0] != b[0] {
      if Before(a, b) {
        assert DifferAt(a, b, 0);
      }
      forall k: nat | DifferAt(a, b, k)
        ensures Before(a, b)
      {
        SameStart(a, b, k);
      }
    } else {
      BeforeIsLexicographic(a[1..], b[1..]);
      forall k: nat | DifferAt(a[1..], b[1..], k)
        ensures DifferAt(a, b, k + 1)
      {
        assert a[..k + 1] == [a[0]] + a[1..][..k] && b[..k + 1] == [b[0]] + b[1..][..k];
      }
      forall k: nat | DifferAt(a, b, k)
        ensures k > 0 && DifferAt(a[1..], b[1..], k - 1)
      {
        assert a[1..][..k - 1] == a[..k][1..] && b[1..][..k - 1] == b[..k][1..];
      }
    }
  }

  lemma {:induction false} BeforeIsTransitive(a: string, b: string, c: string)
    requires Before(a, b) && Before(b, c)
    ensures Before(a, c)
  {
    if a != "" && a[0] == b[0] && b[0] == c[0] {
      BeforeIsTransitive(a[1..], b[1..], c[1..]);
    }
  }

  predicate Newer(a: Event, b: Event)
    requires a.at.Some? && b.at.Some?
  {
    a.at.value > b.at.value || (a.at == b.at && Before(b.id, a.id))
  }

  // The events that are to be believed: complete, and mapped to one of the
  // eight statuses a provider can report.
  predicate Genuine(event: Event) {
    && event.at.Some? && "" !in {event.provider, event.id, event.inquiry, event.kind, event.payloadHash}
    && event.mapped in {Created, Pending, Completed, PendingReview, Approved, Declined, Failed, Expired}
  }

  lemma Believed(event: Event)
    ensures Valid(event) <==> Genuine(event)
  {
  }

  predicate Known(s: State, event: Event) {
    event.inquiry in s.inquiries && s.inquiries[event.inquiry].provider == event.provider
  }

  // After the row's event in time, or at the same time and after its id.
  predicate Later(row: Inquiry, event: Event)
    requires event.at.Some?
  {
    || row.eventAt.None? || row.eventAt.value < event.at.value
    || (row.eventAt == event.at && (row.lastEvent in {None, Some("")} || Before(row.lastEvent.value, event.id)))
  }

  // An event is accepted exactly when it is genuine, of a known inquiry, and
  // either new or told before with the same content. A new one leaves its
  // receipt, and its inquiry shows it exactly when it is later than what the
  // inquiry showed: approved at its time if it approves, and not approved
  // otherwise. Nothing else changes.
  lemma EventOutcome(s: State, event: Event)
    ensures var (next, failure) := Record(s, event);
            var told := KeyOf(event) in s.receipts;
            && failure == (if !Genuine(event) then Some(Invalid)
                           else if !Known(s, event) then Some(NotFound)
                           else if told && s.receipts[KeyOf(event)] != Receipt(event.payloadHash, event.inquiry) then Some(Conflict)
                           else None)
            && (failure.Some? || told ==> next == s)
            && (failure.None? && !told ==>
                  var row := s.inquiries[event.inquiry];
                  && next.receipts == s.receipts[KeyOf(event) := Receipt(event.payloadHash, event.inquiry)]
                  && next.inquiries.Keys == s.inquiries.Keys
                  && (forall other :: other in s.inquiries && other != event.inquiry ==> next.inquiries[other] == s.inquiries[other])
                  && (!Later(row, event) ==> next.inquiries[event.inquiry] == row)
                  && (Later(row, event) ==>
                        var shown := next.inquiries[event.inquiry];
                        && shown.status == event.mapped && shown.providerStatus == event.providerStatus
                        && shown.eventAt == event.at && shown.lastEvent == Some(event.id)
                        && shown.provider == row.provider && shown.providerInquiry == row.providerInquiry
                        && shown.startedAt == (if event.mapped == Pending && row.startedAt == None then event.at else row.startedAt)
                        && shown.completedAt == (if event.mapped == Completed && row.completedAt == None then event.at else row.completedAt)
                        && (event.mapped == Approved ==> shown.approvedAt == event.at)
                        && (event.mapped != Approved ==> shown.approvedAt == None)))
  {
    Believed(event);
  }

  // An inquiry is attached exactly once, while it is awaiting that, and then
  // counts as created; attaching it again to the same provider inquiry is
  // accepted without effect.
  lemma AttachOutcome(s: State, id: string, providerInquiry: string, providerStatus: string)
    ensures var (next, failure) := Attach(s, id, providerInquiry, providerStatus);
            var known := "" !in {id, providerInquiry} && id in s.inquiries;
            && (failure.None? <==> known && (s.inquiries[id].providerInquiry == Some(providerInquiry)
                                             || (s.inquiries[id].providerInquiry == None && s.inquiries[id].status == Creating)))
            && (failure.Some? || s.inquiries[id].providerInquiry.Some? ==> next == s)
            && (failure.None? && s.inquiries[id].providerInquiry.None? ==>
                  && next.receipts == s.receipts && next.inquiries.Keys == s.inquiries.Keys
                  && (forall other :: other in s.inquiries && other != id ==> next.inquiries[other] == s.inquiries[other])
                  && next.inquiries[id].status == Created && next.inquiries[id].providerInquiry == Some(providerInquiry)
                  && next.inquiries[id].providerStatus == providerStatus && next.inquiries[id].approvedAt == s.inquiries[id].approvedAt)
  {
  }

  // Events of one inquiry that count.
  predicate Counts(event: Event, inquiry: string, provider: string) {
    Genuine(event) && event.inquiry == inquiry && event.provider == provider
  }

  // The latest of the events of an inquiry: first by time, then by id.
  ghost predicate Latest(event: Event, events: seq<Event>, inquiry: string, provider: string) {
    && event in events && Counts(event, inquiry, provider)
    && forall other :: other in events && Counts(other, inquiry, provider) && other != event ==> Newer(event, other)
  }

  // No two events share an id without being the same event.
  ghost predicate ConflictFree(events: seq<Event>) {
    forall a, b :: a in events && b in events && Genuine(a) && Genuine(b) && KeyOf(a) == KeyOf(b) ==> a == b
  }

  // What converges: everything but when the check was first seen started and
  // completed.
  predicate Shows(row: Inquiry, event: Event) {
    && row.status == event.mapped && row.providerStatus == event.providerStatus
    && row.eventAt == event.at && row.lastEvent == Some(event.id)
    && row.approvedAt == if event.mapped == Approved then event.at else None
  }

  // One delivery: an event, or an attachment of the inquiry.
  datatype Delivery = Deliver(event: Event) | Reattach(inquiry: string, providerInquiry: string, providerStatus: string)

  function Step(s: State, delivery: Delivery): State {
    match delivery
    case Deliver(event) => Record(s, event).0
    case Reattach(inquiry, providerInquiry, providerStatus) => Attach(s, inquiry, providerInquiry, providerStatus).0
  }

  function Run(s: State, deliveries: seq<Delivery>): State {
    if deliveries == [] then s else Step(Run(s, deliveries[..|deliveries| - 1]), deliveries[|deliveries| - 1])
  }

  function EventsIn(deliveries: seq<Delivery>): seq<Event> {
    if deliveries == [] then []
    else
      var last := deliveries[|deliveries| - 1];
      EventsIn(deliveries[..|deliveries| - 1]) + (if last.Deliver? then [last.event] else [])
  }

  predicate NoEventYet(row: Inquiry) {
    row.eventAt.None? && row.lastEvent.None? && row.approvedAt.None?
  }

  // An inquiry that no event has reached, attached to its provider or not.
  predicate Fresh(s: State, inquiry: string, provider: string) {
    inquiry in s.inquiries && s.inquiries[inquiry].provider == provider && NoEventYet(s.inquiries[inquiry])
  }

  predicate Attached(s: State, inquiry: string) {
    inquiry in s.inquiries && s.inquiries[inquiry].providerInquiry.Some?
  }

  ghost predicate Unseen(s: State, events: seq<Event>) {
    forall event :: event in events ==> KeyOf(event) !in s.receipts
  }

  // What is known after some deliveries: the receipts are those of the events
  // that counted, and the row shows the latest of them.
  ghost predicate Caught(s: State, now: State, events: seq<Event>, inquiry: string, provider: string) {
    && inquiry in now.inquiries && now.inquiries[inquiry].provider == provider
    && (forall key :: key in now.receipts ==> key in s.receipts || exists e :: e in events && Genuine(e) && KeyOf(e) == key)
    && (forall e :: e in events && Counts(e, inquiry, provider) ==> KeyOf(e) in now.receipts)
    && ((forall e :: e in events ==> !Counts(e, inquiry, provider)) ==>
          NoEventYet(now.inquiries[inquiry]) && (Attached(s, inquiry) ==> now.inquiries[inquiry] == s.inquiries[inquiry]))
    && ((exists e :: e in events && Counts(e, inquiry, provider)) ==>
          exists e :: Latest(e, events, inquiry, provider) && Shows(now.inquiries[inquiry], e))
  }

  lemma NewerIsTransitive(a: Event, b: Event, c: Event)
    requires a.at.Some? && b.at.Some? && c.at.Some? && Newer(a, b) && Newer(b, c)
    ensures Newer(a, c)
  {
    if a.at == b.at == c.at {
      BeforeIsTransitive(c.id, b.id, a.id);
    }
  }

  // An event joins the events already seen: it becomes the latest when it is
  // newer than the latest, and changes nothing otherwise.
  lemma LatestExtends(events: seq<Event>, event: Event, inquiry: string, provider: string, current: Event)
    requires Latest(current, events, inquiry, provider)
    requires Counts(event, inquiry, provider)
    ensures Newer(event, current) ==> Latest(event, events + [event], inquiry, provider)
    ensures event == current || Newer(current, event) ==> Latest(current, events + [event], inquiry, provider)
  {
    var longer := events + [event];
    assert forall e :: e in longer <==> e in events || e == event;
    if Newer(event, current) {
      forall other | other in longer && Counts(other, inquiry, provider) && other != event
        ensures Newer(event, other)
      {
        if other != current {
          NewerIsTransitive(event, current, other);
        }
      }
    }
  }

  lemma LatestSkips(events: seq<Event>, event: Event, inquiry: string, provider: string, current: Event)
    requires !Counts(event, inquiry, provider)
    ensures Latest(current, events, inquiry, provider) ==> Latest(current, events + [event], inquiry, provider)
  {
    assert forall e :: e in events + [event] <==> e in events || e == event;
  }

  lemma Extended(events: seq<Event>, event: Event)
    ensures forall e :: e in events + [event] <==> e in events || e == event
  {
  }

  // Receipts are those of the events seen.
  lemma ReceiptsKept(s: State, now: State, events: seq<Event>, event: Event)
    requires forall key :: key in now.receipts ==> key in s.receipts || exists e :: e in events && Genuine(e) && KeyOf(e) == key
    ensures forall key :: key in Record(now, event).0.receipts ==>
              key in s.receipts || exists e :: e in events + [event] && Genuine(e) && KeyOf(e) == key
  {
    hide Valid, Genuine, NewerThanRow, Updated, KeyOf;
    var next := Record(now, event).0;
    Believed(event);
    Extended(events, event);
    forall key | key in next.receipts && key !in s.receipts
      ensures exists e :: e in events + [event] && Genuine(e) && KeyOf(e) == key
    {
      if key in now.receipts {
        var e :| e in events && Genuine(e) && KeyOf(e) == key;
        assert e in events + [event];
      } else {
        assert event in events + [event] && KeyOf(event) == key;
      }
    }
  }

  // An event of another inquiry, or one that is turned down, leaves the row.
  lemma OtherEvent(s: State, now: State, events: seq<Event>, event: Event, inquiry: string, provider: string)
    requires Caught(s, now, events, inquiry, provider) && !Counts(event, inquiry, provider)
    ensures Caught(s, Record(now, event).0, events + [event], inquiry, provider)
  {
    hide Counts, Record, Latest, Shows, Genuine;
    Extended(events, event);
    ReceiptsKept(s, now, events, event);
    OtherRow(now, event, inquiry, provider);
    if exists e :: e in events && Counts(e, inquiry, provider) {
      var current :| Latest(current, events, inquiry, provider) && Shows(now.inquiries[inquiry], current);
      LatestSkips(events, event, inquiry, provider, current);
    }
  }

  lemma OtherRow(now: State, event: Event, inquiry: string, provider: string)
    requires !Counts(event, inquiry, provider) && inquiry in now.inquiries && now.inquiries[inquiry].provider == provider
    ensures var next := Record(now, event).0;
            && inquiry in next.inquiries && next.inquiries[inquiry] == now.inquiries[inquiry]
            && forall key :: key in now.receipts ==> key in next.receipts
  {
  }

  // A repeat of an event changes nothing.
  lemma RepeatedEvent(s: State, now: State, events: seq<Event>, event: Event, inquiry: string, provider: string)
    requires Caught(s, now, events, inquiry, provider) && Counts(event, inquiry, provider) && event in events
    ensures Record(now, event).0 == now && Caught(s, now, events + [event], inquiry, provider)
  {
    Extended(events, event);
    var current :| Latest(current, events, inquiry, provider) && Shows(now.inquiries[inquiry], current);
    assert Latest(current, events + [event], inquiry, provider);
    forall key | key in now.receipts && key !in s.receipts
      ensures exists e :: e in events + [event] && Genuine(e) && KeyOf(e) == key
    {
      var e :| e in events && Genuine(e) && KeyOf(e) == key;
      assert e in events + [event];
    }
  }

  // A new event of the inquiry shows exactly when it is the latest.
  lemma NewEvent(s: State, now: State, events: seq<Event>, event: Event, inquiry: string, provider: string)
    requires Caught(s, now, events, inquiry, provider) && Counts(event, inquiry, provider) && KeyOf(event) !in now.receipts
    requires Fresh(s, inquiry, provider)
    ensures Caught(s, Record(now, event).0, events + [event], inquiry, provider)
  {
    hide Counts, Record, Latest, Shows, Genuine, KeyOf;
    Extended(events, event);
    ReceiptsKept(s, now, events, event);
    NewRow(now, event, inquiry, provider);
    if exists e :: e in events && Counts(e, inquiry, provider) {
      var current :| Latest(current, events, inquiry, provider) && Shows(now.inquiries[inquiry], current);
      LatestCounts(current, events, inquiry, provider);
      LatestExtends(events, event, inquiry, provider, current);
      NewerThanShown(now.inquiries[inquiry], event, current, inquiry, provider);
    } else {
      OnlyEvent(events, event, inquiry, provider);
    }
  }

  // What Record does to the row with an event it has no receipt of.
  lemma NewRow(now: State, event: Event, inquiry: string, provider: string)
    requires Counts(event, inquiry, provider) && KeyOf(event) !in now.receipts
    requires inquiry in now.inquiries && now.inquiries[inquiry].provider == provider
    ensures var next, row := Record(now, event).0, now.inquiries[inquiry];
            && event.at.Some? && inquiry in next.inquiries && next.inquiries[inquiry].provider == provider
            && next.receipts.Keys == now.receipts.Keys + {KeyOf(event)}
            && (if NewerThanRow(row, event.at.value, event.id) then Shows(next.inquiries[inquiry], event)
                else next.inquiries[inquiry] == row)
  {
  }

  lemma LatestCounts(current: Event, events: seq<Event>, inquiry: string, provider: string)
    requires Latest(current, events, inquiry, provider)
    ensures current in events && Counts(current, inquiry, provider)
  {
  }

  // Against the event a row shows, newer than the row is newer than the event.
  lemma NewerThanShown(row: Inquiry, event: Event, current: Event, inquiry: string, provider: string)
    requires Counts(event, inquiry, provider) && Counts(current, inquiry, provider) && KeyOf(event) != KeyOf(current)
    requires Shows(row, current)
    ensures event.at.Some? && current.at.Some?
    ensures NewerThanRow(row, event.at.value, event.id) <==> Newer(event, current)
    ensures Newer(event, current) || Newer(current, event)
  {
    BeforeIsTotal(current.id, event.id);
  }

  lemma OnlyEvent(events: seq<Event>, event: Event, inquiry: string, provider: string)
    requires Counts(event, inquiry, provider) && forall e :: e in events ==> !Counts(e, inquiry, provider)
    ensures Latest(event, events + [event], inquiry, provider)
  {
    Extended(events, event);
  }

  // Attaching the inquiry writes nothing once it shows an event: no event maps
  // to the status an attachment waits for.
  lemma AttachedStays(s: State, now: State, events: seq<Event>, other: string, providerInquiry: string, providerStatus: string, inquiry: string, provider: string)
    requires Caught(s, now, events, inquiry, provider)
    ensures Caught(s, Attach(now, other, providerInquiry, providerStatus).0, events, inquiry, provider)
  {
    hide Latest, Counts, Shows;
    AttachedRow(now, other, providerInquiry, providerStatus, inquiry);
    if exists e :: e in events && Counts(e, inquiry, provider) {
      var current :| Latest(current, events, inquiry, provider) && Shows(now.inquiries[inquiry], current);
      LatestCounts(current, events, inquiry, provider);
      ShownIsNotCreating(now.inquiries[inquiry], current, inquiry, provider);
    }
  }

  lemma AttachedRow(now: State, other: string, providerInquiry: string, providerStatus: string, inquiry: string)
    requires inquiry in now.inquiries
    ensures var next := Attach(now, other, providerInquiry, providerStatus).0;
            && next.receipts == now.receipts && inquiry in next.inquiries
            && next.inquiries[inquiry].provider == now.inquiries[inquiry].provider
            && (NoEventYet(now.inquiries[inquiry]) ==> NoEventYet(next.inquiries[inquiry]))
            && (Attached(now, inquiry) || now.inquiries[inquiry].status != Creating ==> next.inquiries[inquiry] == now.inquiries[inquiry])
  {
  }

  lemma ShownIsNotCreating(row: Inquiry, event: Event, inquiry: string, provider: string)
    requires Shows(row, event) && Counts(event, inquiry, provider)
    ensures row.status != Creating
  {
  }

  lemma {:induction false} RunCatches(s: State, deliveries: seq<Delivery>, inquiry: string, provider: string)
    requires Fresh(s, inquiry, provider)
    requires ConflictFree(EventsIn(deliveries)) && Unseen(s, EventsIn(deliveries))
    ensures Caught(s, Run(s, deliveries), EventsIn(deliveries), inquiry, provider)
  {
    hide Fresh, Caught, Counts, Genuine, Record, Attach;
    if deliveries == [] {
      NothingYet(s, inquiry, provider);
    } else {
      var init, last := deliveries[..|deliveries| - 1], deliveries[|deliveries| - 1];
      var before := EventsIn(init);
      if last.Deliver? {
        Extended(before, last.event);
        RunCatches(s, init, inquiry, provider);
        DeliverStep(s, Run(s, init), before, last.event, inquiry, provider);
      } else {
        assert EventsIn(deliveries) == before;
        RunCatches(s, init, inquiry, provider);
        AttachedStays(s, Run(s, init), before, last.inquiry, last.providerInquiry, last.providerStatus, inquiry, provider);
      }
    }
  }

  lemma NothingYet(s: State, inquiry: string, provider: string)
    requires Fresh(s, inquiry, provider)
    ensures Caught(s, s, [], inquiry, provider)
  {
  }

  lemma DeliverStep(s: State, now: State, events: seq<Event>, event: Event, inquiry: string, provider: string)
    requires Fresh(s, inquiry, provider) && Caught(s, now, events, inquiry, provider)
    requires ConflictFree(events + [event]) && Unseen(s, events + [event])
    ensures Caught(s, Record(now, event).0, events + [event], inquiry, provider)
  {
    hide Latest, Shows, Record;
    Extended(events, event);
    if !Counts(event, inquiry, provider) {
      OtherEvent(s, now, events, event, inquiry, provider);
    } else if KeyOf(event) in now.receipts {
      var e :| e in events && Genuine(e) && KeyOf(e) == KeyOf(event);
      RepeatedEvent(s, now, events, event, inquiry, provider);
    } else {
      NewEvent(s, now, events, event, inquiry, provider);
    }
  }

  // ---------------------------------------------------------------- convergence

  // After any deliveries of conflict-free events to an inquiry, in any order
  // and with any repetition, the row shows the latest event.
  lemma ShowsTheLatest(s: State, deliveries: seq<Delivery>, inquiry: string, provider: string, event: Event)
    requires Fresh(s, inquiry, provider)
    requires ConflictFree(EventsIn(deliveries)) && Unseen(s, EventsIn(deliveries))
    requires event in EventsIn(deliveries) && Counts(event, inquiry, provider)
    ensures var now := Run(s, deliveries);
            inquiry in now.inquiries
            && exists latest :: Latest(latest, EventsIn(deliveries), inquiry, provider) && Shows(now.inquiries[inquiry], latest)
  {
    RunCatches(s, deliveries, inquiry, provider);
  }

  // So two deliveries of the same events agree, wherever among them the
  // inquiry is attached, and it counts as approved exactly when the latest
  // event approves it. Without events this holds of an inquiry already attached.
  lemma Converges(s: State, one: seq<Delivery>, two: seq<Delivery>, inquiry: string, provider: string)
    requires Fresh(s, inquiry, provider)
    requires ConflictFree(EventsIn(one)) && Unseen(s, EventsIn(one))
    requires forall event :: event in EventsIn(one) <==> event in EventsIn(two)
    ensures inquiry in Run(s, one).inquiries && inquiry in Run(s, two).inquiries
    ensures var a, b := Run(s, one).inquiries[inquiry], Run(s, two).inquiries[inquiry];
            var counted := exists event :: event in EventsIn(one) && Counts(event, inquiry, provider);
            && a.eventAt == b.eventAt && a.lastEvent == b.lastEvent && a.approvedAt == b.approvedAt
            && (counted || Attached(s, inquiry) ==> a.status == b.status && a.providerStatus == b.providerStatus)
            && (counted ==> (a.approvedAt.Some? <==> a.status == Approved))
  {
    hide Run, EventsIn, Counts, Before, KeyOf, Genuine;
    RunCatches(s, one, inquiry, provider);
    RunCatches(s, two, inquiry, provider);
    if exists event :: event in EventsIn(one) && Counts(event, inquiry, provider) {
      var a :| Latest(a, EventsIn(one), inquiry, provider) && Shows(Run(s, one).inquiries[inquiry], a);
      assert a in EventsIn(two);
      var b :| Latest(b, EventsIn(two), inquiry, provider) && Shows(Run(s, two).inquiries[inquiry], b);
      OneLatest(EventsIn(one), a, b, inquiry, provider);
      HasTime(a, inquiry, provider);
    }
  }

  lemma HasTime(event: Event, inquiry: string, provider: string)
    requires Counts(event, inquiry, provider)
    ensures event.at.Some?
  {
  }

  lemma OneLatest(events: seq<Event>, a: Event, b: Event, inquiry: string, provider: string)
    requires Latest(a, events, inquiry, provider) && b in events && Counts(b, inquiry, provider)
    requires forall other :: other in events && Counts(other, inquiry, provider) && other != b ==> Newer(b, other)
    ensures a == b
  {
    BeforeIsTotal(a.id, b.id);
  }

  // Whatever was delivered before and after it, an inquiry whose latest event
  // is no approval is not approved.
  lemma RefusalWins(s: State, deliveries: seq<Delivery>, inquiry: string, provider: string, event: Event)
    requires Fresh(s, inquiry, provider)
    requires ConflictFree(EventsIn(deliveries)) && Unseen(s, EventsIn(deliveries))
    requires Latest(event, EventsIn(deliveries), inquiry, provider) && event.mapped in {Declined, Failed, Expired}
    ensures var now := Run(s, deliveries);
            && inquiry in now.inquiries && now.inquiries[inquiry].status == event.mapped
            && now.inquiries[inquiry].approvedAt == None
  {
    hide Run, EventsIn, Before, KeyOf;
    RunCatches(s, deliveries, inquiry, provider);
    var latest :| Latest(latest, EventsIn(deliveries), inquiry, provider) && Shows(Run(s, deliveries).inquiries[inquiry], latest);
    OneLatest(EventsIn(deliveries), latest, event, inquiry, provider);
  }

  // The times the check started and completed are not part of this: the same
  // two events in either order leave different ones.
  lemma StartedDependsOnOrder(s: State, inquiry: string, provider: string, hash: string)
    requires Fresh(s, inquiry, provider) && s.receipts == map[] && s.inquiries[inquiry].startedAt.None?
    requires inquiry != "" && provider != "" && hash != ""
    ensures var pending := Event(provider, "1", inquiry, "k", hash, Some(1), Pending, "p");
            var completed := Event(provider, "2", inquiry, "k", hash, Some(2), Completed, "c");
            var inOrder := Step(Step(s, Deliver(pending)), Deliver(completed));
            var late := Step(Step(s, Deliver(completed)), Deliver(pending));
            inOrder.inquiries[inquiry].startedAt == Some(1) && late.inquiries[inquiry].startedAt == None
  {
    var pending := Event(provider, "1", inquiry, "k", hash, Some(1), Pending, "p");
    var completed := Event(provider, "2", inquiry, "k", hash, Some(2), Completed, "c");
    var a := Step(s, Deliver(pending));
    var b := Step(s, Deliver(completed));
    assert KeyOf(pending) !in b.receipts && KeyOf(completed) !in a.receipts by {
      assert "1"[0] != "2"[0];
    }
  }
}
