/**
  The events page (events.js): the calendar events fetched from the API,
  annotated and sorted by `processEvents`, narrowed by a category filter
  and a search term, and shown twelve at a time behind a "load more"
  control. The clock, date parsing and the network are parameters.
*/
module Events {
  import opened Wrappers
  import opened Text
  import opened Json
  import opened Http

  /** How many events one page of the grid adds. */
  const EventsPerPage := 12

  /** The error thrown when the body does not have the expected shape. */
  const InvalidFormatMessage := "Invalid response format"

  /** "No events match the filter", shown in place of the grid when nothing is left. */
  const NoEventsMessage := "Không tìm thấy sự kiện nào phù hợp với bộ lọc."

  // ---------------------------------------------------------------------
  // Events and their annotation (processEvents)
  // ---------------------------------------------------------------------

  /**
    One event after `processEvents`: its title and description text, the
    time value of its date, its duration in minutes, and the three flags
    the page filters on.
  */
  datatype Event = Event(
    title: string,
    description: string,
    date: int,
    lasting: int,
    isHoliday: bool,
    isUpcoming: bool,
    isCurrentYear: bool)

  /**
    What `processEvents` needs from the browser: the current time, the
    time value `new Date(x)` gives a `date` property, and the calendar
    year of a time value.
  */
  datatype Clock = Clock(now: int, timeOf: Prop -> int, yearOf: int -> int)

  /** "Holiday", in both cases, "National Day" and "Tết" (the lunar new year). */
  const HolidayMarkers: seq<string> := ["lễ", "Lễ", "Quốc khánh", "Tết"]

  /** The holiday test of `processEvents`: the title mentions one of the markers. */
  predicate IsHolidayTitle(title: string) {
    Contains(title, "lễ") || Contains(title, "Lễ") || Contains(title, "Quốc khánh") || Contains(title, "Tết")
  }

  /**
    A title is a holiday exactly when one of the markers occurs in it at
    some position.
  */
  lemma HolidayTitleIff(title: string)
    ensures IsHolidayTitle(title) <==> exists m, i :: m in HolidayMarkers && OccursAt(title, m, i)
  {
    forall m | m in HolidayMarkers ensures Contains(title, m) <==> exists i :: OccursAt(title, m, i) {
      ContainsIff(title, m);
    }
    if IsHolidayTitle(title) {
      var m :| m in HolidayMarkers && Contains(title, m);
    }
  }

  /** Text around a holiday title does not stop it being one. */
  lemma HolidayTitleInContext(before: string, title: string, after: string)
    requires IsHolidayTitle(title)
    ensures IsHolidayTitle(before + title + after)
  {
    forall m | m in HolidayMarkers && Contains(title, m) ensures Contains(before + title + after, m) {
      ContainsInConcat(before, title, m);
      ContainsInConcat(before + title, after, m);
    }
  }

  /**
    Why the body of the `forEach` in `processEvents` throws on an element:
    `event.date` on `null`, or `event.title.includes` on a title that is
    missing, `null`, or not a string.
  */
  datatype Fault = NullEvent | TitleUndefined | TitleNull | TitleNotText

  /** The fault an element raises, or None when it is processed. Only the title can make it throw. */
  function ElementError(v: Value): Option<Fault> {
    if v.Null? then Some(NullEvent)
    else match Get(v, "title")
      case Undefined => Some(TitleUndefined)
      case Defined(t) =>
        if t.Null? then Some(TitleNull)
        else if t.Str? then None
        else Some(TitleNotText)
  }

  /** The message of the TypeError raised for a fault, in the wording of the V8 engine. */
  function FaultText(f: Fault): string {
    match f
    case NullEvent => "Cannot read properties of null (reading 'date')"
    case TitleUndefined => "Cannot read properties of undefined (reading 'includes')"
    case TitleNull => "Cannot read properties of null (reading 'includes')"
    case TitleNotText => "event.title.includes is not a function"
  }

  /** The minutes of `event.lasting`: a number is itself, anything else counts as no duration. */
  function LastingOf(p: Prop): int {
    if p.Defined? && p.value.Num? then p.value.n else 0
  }

  /** One element as `processEvents` leaves it: its flags computed against the clock. */
  function ToEvent(v: Value, clock: Clock): (e: Event)
    requires ElementError(v).None?
    ensures e.title == Get(v, "title").value.s
    ensures e.description == ConcatText(Get(v, "description"))
    ensures e.date == clock.timeOf(Get(v, "date"))
    ensures e.lasting == LastingOf(Get(v, "lasting"))
    ensures e.isHoliday <==> IsHolidayTitle(e.title)
    ensures e.isUpcoming <==> e.date > clock.now
    ensures e.isCurrentYear <==> clock.yearOf(e.date) == clock.yearOf(clock.now)
  {
    var title := Get(v, "title").value.s;
    var date := clock.timeOf(Get(v, "date"));
    Event(title, ConcatText(Get(v, "description")), date, LastingOf(Get(v, "lasting")),
          IsHolidayTitle(title), date > clock.now, clock.yearOf(date) == clock.yearOf(clock.now))
  }

  /** The first element error in `items`, in array order. */
  function FirstElementError(items: seq<Value>): (r: Option<Fault>)
    ensures r.None? <==> forall k :: 0 <= k < |items| ==> ElementError(items[k]).None?
    ensures r.Some? ==> exists k :: 0 <= k < |items| && ElementError(items[k]) == r
  {
    if items == [] then None
    else if ElementError(items[0]).Some? then ElementError(items[0])
    else
      var r := FirstElementError(items[1..]);
      assert forall k :: 0 < k < |items| ==> items[k] == items[1..][k - 1];
      r
  }

  /** The annotated elements, in array order. */
  function Annotate(items: seq<Value>, clock: Clock): (es: seq<Event>)
    requires forall k :: 0 <= k < |items| ==> ElementError(items[k]).None?
    ensures |es| == |items|
  {
    seq(|items|, k requires 0 <= k < |items| => ToEvent(items[k], clock))
  }

  // ---------------------------------------------------------------------
  // The date sort (Array.prototype.sort, which is stable)
  // ---------------------------------------------------------------------

  predicate SortedByDate(es: seq<Event>) {
    forall i, j :: 0 <= i < j < |es| ==> es[i].date <= es[j].date
  }

  /** Puts `e` into a sorted list after every event whose date is not later than its own. */
  function InsertByDate(e: Event, es: seq<Event>): seq<Event> {
    if es == [] then [e]
    else if e.date < es[0].date then [e] + es
    else [es[0]] + InsertByDate(e, es[1..])
  }

  /** Inserting adds exactly the one event. */
  lemma {:induction false} InsertAdds(e: Event, es: seq<Event>)
    ensures multiset(InsertByDate(e, es)) == multiset(es) + multiset{e}
  {
    if es != [] && e.date >= es[0].date {
      InsertAdds(e, es[1..]);
      assert es == [es[0]] + es[1..];
    }
  }

  /** `events.sort((a, b) => a.date - b.date)`: a stable sort by ascending date. */
  function SortByDate(es: seq<Event>): seq<Event> {
    if es == [] then [] else InsertByDate(es[|es| - 1], SortByDate(es[..|es| - 1]))
  }

  lemma {:induction false} InsertSorted(e: Event, es: seq<Event>)
    requires SortedByDate(es)
    ensures SortedByDate(InsertByDate(e, es))
    ensures InsertByDate(e, es) != [] && InsertByDate(e, es)[0].date == if es == [] || e.date < es[0].date then e.date else es[0].date
  {
    if es != [] && e.date >= es[0].date {
      InsertSorted(e, es[1..]);
      var tail := InsertByDate(e, es[1..]);
      assert es[0].date <= tail[0].date by {
        if es[1..] != [] {
          assert es[1..][0] == es[1];
        }
      }
      var r := [es[0]] + tail;
      assert InsertByDate(e, es) == r;
      forall i, j | 0 <= i < j < |r| ensures r[i].date <= r[j].date {
        if i == 0 {
          assert r[j] == tail[j - 1];
        } else {
          assert r[i] == tail[i - 1] && r[j] == tail[j - 1];
        }
      }
    }
  }

  /** The sort yields events in ascending date order. */
  lemma {:induction false} SortSorted(es: seq<Event>)
    ensures SortedByDate(SortByDate(es))
  {
    if es != [] {
      SortSorted(es[..|es| - 1]);
      InsertSorted(es[|es| - 1], SortByDate(es[..|es| - 1]));
    }
  }

  /** The sort rearranges the events and neither drops nor duplicates any. */
  lemma {:induction false} SortPermutes(es: seq<Event>)
    ensures multiset(SortByDate(es)) == multiset(es)
  {
    if es != [] {
      var init, last := es[..|es| - 1], es[|es| - 1];
      SortPermutes(init);
      InsertAdds(last, SortByDate(init));
      assert SortByDate(es) == InsertByDate(last, SortByDate(init));
      assert es == init + [last];
      assert multiset(es) == multiset(init) + multiset{last};
    }
  }

  /** The events of `es` dated `d`, in their order in `es`. */
  function OnDate(es: seq<Event>, d: int): seq<Event> {
    if es == [] then [] else (if es[0].date == d then [es[0]] else []) + OnDate(es[1..], d)
  }

  lemma {:induction false} OnDateAppend(a: seq<Event>, b: seq<Event>, d: int)
    ensures OnDate(a + b, d) == OnDate(a, d) + OnDate(b, d)
  {
    if a != [] {
      assert (a + b)[1..] == a[1..] + b;
      OnDateAppend(a[1..], b, d);
    } else {
      assert a + b == b;
    }
  }

  lemma {:induction false} InsertOnDate(e: Event, es: seq<Event>, d: int)
    requires SortedByDate(es)
    ensures OnDate(InsertByDate(e, es), d) == OnDate(es, d) + (if e.date == d then [e] else [])
  {
    if es == [] {
    } else if e.date < es[0].date {
      if e.date == d {
        assert OnDate(es, d) == [] by { NoneOnDate(es, d); }
      }
    } else {
      InsertOnDate(e, es[1..], d);
    }
  }

  /** In a sorted list whose first event is later than `d`, no event is dated `d`. */
  lemma {:induction false} NoneOnDate(es: seq<Event>, d: int)
    requires SortedByDate(es) && es != [] && d < es[0].date
    ensures OnDate(es, d) == []
  {
    if |es| > 1 {
      NoneOnDate(es[1..], d);
    }
  }

  /**
    The sort is stable: the events sharing a date keep their relative
    order.
  */
  lemma {:induction false} SortStable(es: seq<Event>, d: int)
    ensures OnDate(SortByDate(es), d) == OnDate(es, d)
  {
    if es != [] {
      var init := es[..|es| - 1];
      var last := es[|es| - 1];
      SortStep(init, last, d);
      SortStable(init, d);
      assert es == init + [last];
      OnDateAppend(init, [last], d);
    }
  }

  /** Sorting one more event adds it to the end of its date's events. */
  lemma SortStep(init: seq<Event>, last: Event, d: int)
    ensures OnDate(SortByDate(init + [last]), d) == OnDate(SortByDate(init), d) + OnDate([last], d)
  {
    var es := init + [last];
    assert es[..|es| - 1] == init && es[|es| - 1] == last;
    SortSorted(init);
    InsertOnDate(last, SortByDate(init), d);
  }

  /** What `processEvents` does to the result array: the sorted annotated events, or the first error. */
  datatype Processed = Threw(fault: Fault) | Processed(events: seq<Event>)

  function ProcessSpec(items: seq<Value>, clock: Clock): Processed {
    match FirstElementError(items)
    case Some(f) => Threw(f)
    case None => Processed(SortByDate(Annotate(items, clock)))
  }

  /**
    `processEvents`: the `forEach` annotates the elements one at a time and
    stops at the first one that throws; the annotated list is then sorted.
  */
  method ProcessEvents(items: seq<Value>, clock: Clock) returns (r: Processed)
    ensures r == ProcessSpec(items, clock)
  {
    var error, annotated := AnnotateEach(items, clock);
    if error.Some? {
      return Threw(error.value);
    }
    assert annotated == Annotate(items, clock);
    r := Processed(SortByDate(annotated));
  }

  /** The `forEach` of `processEvents`: the annotated elements, or the first element's error. */
  method AnnotateEach(items: seq<Value>, clock: Clock) returns (error: Option<Fault>, annotated: seq<Event>)
    ensures error == FirstElementError(items)
    ensures error.None? ==> |annotated| == |items|
    ensures error.None? ==> forall k :: 0 <= k < |items| ==> annotated[k] == ToEvent(items[k], clock)
  {
    annotated := [];
    for i := 0 to |items|
      invariant forall k :: 0 <= k < i ==> ElementError(items[k]).None?
      invariant |annotated| == i
      invariant forall k :: 0 <= k < i ==> annotated[k] == ToEvent(items[k], clock)
    {
      error := ElementError(items[i]);
      if error.Some? {
        FirstErrorAt(items, i);
        return;
      }
      annotated := annotated + [ToEvent(items[i], clock)];
    }
    error := None;
  }

  /** Elements that throw nothing do not change which error comes first. */
  lemma {:induction false} FirstErrorAfterClean(clean: seq<Value>, rest: seq<Value>)
    requires forall k :: 0 <= k < |clean| ==> ElementError(clean[k]).None?
    ensures FirstElementError(clean + rest) == FirstElementError(rest)
  {
    if clean != [] {
      assert (clean + rest)[1..] == clean[1..] + rest;
      FirstErrorAfterClean(clean[1..], rest);
    } else {
      assert clean + rest == rest;
    }
  }

  /** The first element that throws decides the error. */
  lemma FirstErrorAt(items: seq<Value>, i: nat)
    requires i < |items| && ElementError(items[i]).Some?
    requires forall k :: 0 <= k < i ==> ElementError(items[k]).None?
    ensures FirstElementError(items) == ElementError(items[i])
  {
    assert items == items[..i] + items[i..];
    FirstErrorAfterClean(items[..i], items[i..]);
  }

  /** Processing yields every element, annotated, in ascending date order. */
  lemma ProcessedSortedPermutation(items: seq<Value>, clock: Clock)
    requires ProcessSpec(items, clock).Processed?
    ensures SortedByDate(ProcessSpec(items, clock).events)
    ensures multiset(ProcessSpec(items, clock).events) == multiset(Annotate(items, clock))
  {
    SortSorted(Annotate(items, clock));
    SortPermutes(Annotate(items, clock));
  }

  // ---------------------------------------------------------------------
  // Filtering (applyFilters)
  // ---------------------------------------------------------------------

  /** The category test: the three named filters select their flag; any other value keeps everything. */
  predicate CategoryOk(e: Event, filter: string) {
    if filter == "holiday" then e.isHoliday
    else if filter == "upcoming" then e.isUpcoming
    else if filter == "current-year" then e.isCurrentYear
    else true
  }

  /** The search test for a lower-cased term: it occurs in the lower-cased title or description. */
  predicate SearchOk(e: Event, term: string) {
    Contains(Lower(e.title), term) || Contains(Lower(e.description), term)
  }

  /** What the page keeps: both tests pass. */
  predicate Keep(e: Event, filter: string, term: string) {
    CategoryOk(e, filter) && SearchOk(e, term)
  }

  /** The events passing both tests, in their order: the list `applyFilters` computes. */
  function FilterEvents(es: seq<Event>, filter: string, term: string): seq<Event> {
    if es == [] then []
    else (if Keep(es[0], filter, term) then [es[0]] else []) + FilterEvents(es[1..], filter, term)
  }

  /** The category pass of `applyFilters`. */
  function ByCategory(es: seq<Event>, filter: string): seq<Event> {
    if es == [] then []
    else (if CategoryOk(es[0], filter) then [es[0]] else []) + ByCategory(es[1..], filter)
  }

  /** The search pass of `applyFilters`. */
  function BySearch(es: seq<Event>, term: string): seq<Event> {
    if es == [] then []
    else (if SearchOk(es[0], term) then [es[0]] else []) + BySearch(es[1..], term)
  }

  /** The empty term occurs in every text, so it keeps every event. */
  lemma EmptyTermKeepsAll(e: Event)
    ensures SearchOk(e, "")
  {
    assert StartsWith(Lower(e.title), "");
  }

  /**
    `applyFilters` as written: the category pass, then the search pass only
    for a non-empty term, gives exactly the events passing both tests.
  */
  lemma {:induction false} TwoPassFilter(es: seq<Event>, filter: string, term: string)
    ensures (if term == "" then ByCategory(es, filter) else BySearch(ByCategory(es, filter), term))
      == FilterEvents(es, filter, term)
  {
    if es != [] {
      TwoPassFilter(es[1..], filter, term);
      EmptyTermKeepsAll(es[0]);
      if term != "" {
        SearchAppend(if CategoryOk(es[0], filter) then [es[0]] else [], ByCategory(es[1..], filter), term);
        assert BySearch([es[0]], term) == if SearchOk(es[0], term) then [es[0]] else [];
      }
    }
  }

  lemma {:induction false} SearchAppend(a: seq<Event>, b: seq<Event>, term: string)
    ensures BySearch(a + b, term) == BySearch(a, term) + BySearch(b, term)
  {
    if a != [] {
      assert (a + b)[1..] == a[1..] + b;
      SearchAppend(a[1..], b, term);
    } else {
      assert a + b == b;
    }
  }

  /** An event is in the filtered list exactly when it is in the list and passes both tests. */
  lemma {:induction false} FilterMembership(es: seq<Event>, filter: string, term: string, e: Event)
    ensures e in FilterEvents(es, filter, term) <==> e in es && Keep(e, filter, term)
  {
    if es != [] {
      FilterMembership(es[1..], filter, term, e);
      assert es == [es[0]] + es[1..];
    }
  }

  /**
    Filtering keeps the order of the list: the filtered list of two lists
    joined is the two filtered lists joined.
  */
  lemma {:induction false} FilterAppend(a: seq<Event>, b: seq<Event>, filter: string, term: string)
    ensures FilterEvents(a + b, filter, term) == FilterEvents(a, filter, term) + FilterEvents(b, filter, term)
  {
    if a != [] {
      assert (a + b)[1..] == a[1..] + b;
      FilterAppend(a[1..], b, filter, term);
    } else {
      assert a + b == b;
    }
  }

  /** The filtered list is never longer than the list. */
  lemma {:induction false} FilterShorter(es: seq<Event>, filter: string, term: string)
    ensures |FilterEvents(es, filter, term)| <= |es|
  {
    if es != [] {
      FilterShorter(es[1..], filter, term);
    }
  }

  /** Filtering a filtered list again with the same settings changes nothing. */
  lemma {:induction false} FilterIdempotent(es: seq<Event>, filter: string, term: string)
    ensures FilterEvents(FilterEvents(es, filter, term), filter, term) == FilterEvents(es, filter, term)
  {
    if es != [] {
      FilterIdempotent(es[1..], filter, term);
      var head := if Keep(es[0], filter, term) then [es[0]] else [];
      FilterAppend(head, FilterEvents(es[1..], filter, term), filter, term);
      assert FilterEvents(head, filter, term) == head;
    }
  }

  /** A filter value other than the three names, with no search, keeps the whole list. */
  lemma {:induction false} FilterAllKeepsEverything(es: seq<Event>, filter: string)
    requires filter != "holiday" && filter != "upcoming" && filter != "current-year"
    ensures FilterEvents(es, filter, "") == es
  {
    if es != [] {
      EmptyTermKeepsAll(es[0]);
      FilterAllKeepsEverything(es[1..], filter);
    }
  }

  /**
    The search ignores case in the events: upper-casing an event's title
    and description does not change whether a lower-cased term finds it.
  */
  lemma SearchIgnoresCase(e: Event, term: string)
    ensures SearchOk(e.(title := Upper(e.title), description := Upper(e.description)), Lower(term))
      <==> SearchOk(e, Lower(term))
  {
    LowerOfUpperText(e.title);
    LowerOfUpperText(e.description);
  }

  // ---------------------------------------------------------------------
  // Pagination (renderEvents, loadMoreEvents)
  // ---------------------------------------------------------------------

  function Min(a: int, b: int): int {
    if a < b then a else b
  }

  /** How many events are on screen after pages 0..page: `min((page + 1) * 12, n)`. */
  function Shown(page: nat, n: nat): (r: nat)
    ensures r <= n
  {
    Min((page + 1) * EventsPerPage, n)
  }

  /**
    `filteredEvents.slice(page * 12, page * 12 + 12)`: the events page
    `page` adds (`slice` clamps both ends to the length).
  */
  function PageSlice(es: seq<Event>, page: nat): seq<Event> {
    es[Min(page * EventsPerPage, |es|)..Min(page * EventsPerPage + EventsPerPage, |es|)]
  }

  /** Adding page `page` to the events of the pages before it gives the events of pages 0..page. */
  lemma PageExtendsPrefix(es: seq<Event>, page: nat)
    ensures es[..Min(page * EventsPerPage, |es|)] + PageSlice(es, page) == es[..Shown(page, |es|)]
  {
  }

  /** The page slice holds at most twelve events, and none once the list is exhausted. */
  lemma PageSliceSize(es: seq<Event>, page: nat)
    ensures |PageSlice(es, page)| <= EventsPerPage
    ensures |PageSlice(es, page)| == 0 <==> page * EventsPerPage >= |es|
  {
  }

  /** The load-more rule: shown while the next page would still have events. */
  predicate LoadMoreWanted(page: nat, n: nat) {
    !(page * EventsPerPage + EventsPerPage >= n)
  }

  /**
    The control is shown exactly when some filtered event is not yet on
    screen, so it is always hidden for an empty list.
  */
  lemma LoadMoreIffMoreToShow(page: nat, n: nat)
    ensures LoadMoreWanted(page, n) <==> Shown(page, n) < n
    ensures n == 0 ==> !LoadMoreWanted(page, n)
  {
  }

  // ---------------------------------------------------------------------
  // Cards and stats (createEventCard, updateStats)
  // ---------------------------------------------------------------------

  /** The text choices of `createEventCard`, and the two flags that become CSS classes. */
  datatype EventCard = EventCard(
    title: string,
    description: string,
    typeText: string,
    durationText: string,
    holiday: bool,
    upcoming: bool)

  /** "All day". */
  const AllDayText := "Cả ngày"

  /** " minutes", after the duration. */
  const MinutesSuffix := " phút"

  /** "Holiday" and "Event". */
  const HolidayTypeText := "Ngày lễ"
  const EventTypeText := "Sự kiện"

  function DurationText(lasting: int): string {
    if lasting > 0 then IntText(lasting) + MinutesSuffix else AllDayText
  }

  /**
    A positive duration is shown as its decimal minutes, which read back as
    the duration; any other duration is shown as all-day, and the two
    forms never coincide.
  */
  lemma DurationTextReadsBack(lasting: int)
    ensures lasting > 0 ==> exists digits ::
      && DurationText(lasting) == digits + MinutesSuffix
      && (forall k :: 0 <= k < |digits| ==> IsDigit(digits[k]))
      && DigitsValue(digits) == lasting
    ensures lasting > 0 <==> DurationText(lasting) != AllDayText
  {
    if lasting > 0 {
      var digits := NatText(lasting);
      NatTextRoundTrip(lasting);
      assert DurationText(lasting)[0] == digits[0];
      assert IsDigit(digits[0]);
    }
  }

  function TypeText(isHoliday: bool): string {
    if isHoliday then HolidayTypeText else EventTypeText
  }

  function CardOf(e: Event): EventCard {
    EventCard(e.title, e.description, TypeText(e.isHoliday), DurationText(e.lasting), e.isHoliday, e.isUpcoming)
  }

  /** A card's type text names a holiday exactly for holiday events, and the card keeps the event's own text. */
  lemma CardShowsEvent(e: Event)
    ensures CardOf(e).typeText == HolidayTypeText <==> e.isHoliday
    ensures CardOf(e).title == e.title && CardOf(e).description == e.description
    ensures CardOf(e).durationText == AllDayText <==> e.lasting <= 0
  {
    DurationTextReadsBack(e.lasting);
  }

  /** A child of the events grid: a card, or the no-events notice. */
  datatype GridChild = CardNode(card: EventCard) | NoEventsNotice

  function CardNodes(es: seq<Event>): (r: seq<GridChild>)
    ensures |r| == |es|
  {
    seq(|es|, k requires 0 <= k < |es| => CardNode(CardOf(es[k])))
  }

  lemma CardNodesAppend(a: seq<Event>, b: seq<Event>)
    ensures CardNodes(a + b) == CardNodes(a) + CardNodes(b)
  {
  }

  /** The three numbers of `updateStats`. */
  datatype Stats = Stats(total: nat, upcoming: nat, holidays: nat)

  function StatsOf(es: seq<Event>): Stats {
    Stats(|es|, |ByCategory(es, "upcoming")|, |ByCategory(es, "holiday")|)
  }

  /** The category pass alone is the filter with an empty search term. */
  lemma {:induction false} ByCategoryIsFilter(es: seq<Event>, filter: string)
    ensures ByCategory(es, filter) == FilterEvents(es, filter, "")
  {
    TwoPassFilter(es, filter, "");
  }

  /**
    Each count is at most the total, and the holiday and upcoming counts
    are the sizes of the lists the holiday and upcoming filters show before
    any search.
  */
  lemma StatsAgreeWithFilters(es: seq<Event>)
    ensures StatsOf(es).upcoming <= StatsOf(es).total && StatsOf(es).holidays <= StatsOf(es).total
    ensures StatsOf(es).holidays == |FilterEvents(es, "holiday", "")|
    ensures StatsOf(es).upcoming == |FilterEvents(es, "upcoming", "")|
  {
    ByCategoryIsFilter(es, "holiday");
    ByCategoryIsFilter(es, "upcoming");
    FilterShorter(es, "holiday", "");
    FilterShorter(es, "upcoming", "");
  }

  // ---------------------------------------------------------------------
  // Loading (fetchEvents)
  // ---------------------------------------------------------------------

  /** Why loading the events failed: each is an error `fetchEvents` catches. */
  datatype LoadError =
    | NetworkError(message: string)  // `fetch` rejected
    | HttpStatus(status: int)        // the response was not ok
    | BadJson(message: string)       // `response.json()` rejected
    | NullBody                       // the body is `null`: reading `success` throws
    | BadShape                       // `success`, `data` or `data.result` is falsy
    | NotAList                       // `data.result` has no `forEach`
    | BadEvent(fault: Fault)         // the `forEach` of `processEvents` threw

  /** The `error.message` that `showError` puts on screen. */
  function LoadErrorText(e: LoadError): string {
    match e
    case NetworkError(m) => m
    case HttpStatus(s) => "HTTP error! status: " + IntText(s)
    case BadJson(m) => m
    case NullBody => "Cannot read properties of null (reading 'success')"
    case BadShape => InvalidFormatMessage
    case NotAList => "this.events.forEach is not a function"
    case BadEvent(f) => FaultText(f)
  }

  /** The result array taken from a reply, or the error raised before `processEvents` runs. */
  datatype Received = Refused(error: LoadError) | Received(items: seq<Value>)

  /** The response-shape check of `fetchEvents`: `data.success && data.data && data.data.result`. */
  function CheckShape(data: Value): Received {
    if data.Null? then Refused(NullBody)
    else if !PropTruthy(Get(data, "success")) || !PropTruthy(Get(data, "data")) then Refused(BadShape)
    else
      var result := Get(Get(data, "data").value, "result");
      if !PropTruthy(result) then Refused(BadShape)
      else if !result.value.Arr? then Refused(NotAList)
      else Received(result.value.items)
  }

  /** Everything `fetchEvents` does with the reply before `processEvents`. */
  function ReceiveEvents(reply: Reply): Received {
    match reply
    case NetworkFailure(m) => Refused(NetworkError(m))
    case Response(ok, status, _, body) =>
      if !ok then Refused(HttpStatus(status))
      else match body
        case Unparsable(m) => Refused(BadJson(m))
        case Parsed(data) => CheckShape(data)
  }

  /**
    A parsed, non-null body is refused as malformed exactly when one of
    `success`, `data` and `data.result` is falsy; a body passing the check
    is accepted exactly when its result is an array.
  */
  lemma ShapeCheckIff(status: int, statusText: string, data: Value)
    requires !data.Null?
    ensures var r := ReceiveEvents(Response(true, status, statusText, Parsed(data)));
      && (r == Refused(BadShape) <==>
            !(PropTruthy(Get(data, "success")) && PropTruthy(Get(data, "data"))
              && PropTruthy(Get(Get(data, "data").value, "result"))))
      && (r.Received? <==>
            && PropTruthy(Get(data, "success")) && PropTruthy(Get(data, "data"))
            && PropTruthy(Get(Get(data, "data").value, "result"))
            && Get(Get(data, "data").value, "result").value.Arr?)
  {
  }

  /** The result of a load: the processed events, or the error shown. */
  datatype Load = Loaded(events: seq<Event>) | LoadFailed(error: LoadError)

  function LoadSpec(reply: Reply, clock: Clock): Load {
    match ReceiveEvents(reply)
    case Refused(e) => LoadFailed(e)
    case Received(items) =>
      match ProcessSpec(items, clock)
      case Threw(f) => LoadFailed(BadEvent(f))
      case Processed(es) => Loaded(es)
  }

  /**
    Events are only ever loaded from an ok reply whose body passed the
    shape check, and then they are every element of the result, annotated,
    in ascending date order.
  */
  lemma LoadedOnlyFromGoodReply(reply: Reply, clock: Clock)
    requires LoadSpec(reply, clock).Loaded?
    ensures reply.Response? && reply.ok && reply.body.Parsed?
    ensures var items := CheckShape(reply.body.value).items;
      && CheckShape(reply.body.value).Received?
      && FirstElementError(items).None?
      && SortedByDate(LoadSpec(reply, clock).events)
      && multiset(LoadSpec(reply, clock).events) == multiset(Annotate(items, clock))
  {
    ProcessedSortedPermutation(ReceiveEvents(reply).items, clock);
  }

  // ---------------------------------------------------------------------
  // The page object
  // ---------------------------------------------------------------------

  /** Which of the loading indicator, the error box and the grid is visible. */
  datatype Status = Loading | Ready | Failed(error: LoadError)

  /** What the grid shows for the filtered and displayed lists. */
  function GridFor(filtered: seq<Event>, displayed: seq<Event>): seq<GridChild> {
    if filtered == [] then [NoEventsNotice] else CardNodes(displayed)
  }

  class EventsManager {
    var events: seq<Event>
    var filteredEvents: seq<Event>
    var displayedEvents: seq<Event>
    var currentPage: nat
    var currentFilter: string
    var searchTerm: string
    /** The children of the events grid. */
    var grid: seq<GridChild>
    /** Whether the load-more control is displayed. */
    var loadMoreVisible: bool
    var status: Status
    /** The three numbers on screen; None until the first load. */
    var stats: Option<Stats>

    /**
      The page's invariant between user actions: the events are sorted by
      date, the term is lower-case, the filtered list is the events passing
      the filter and the search, the displayed list is the first pages of
      it, the stats count the events, and the grid shows the displayed
      events (or the notice), except before the first render, when it is
      empty.
    */
    predicate Valid()
      reads this
    {
      && SortedByDate(events)
      && searchTerm == Lower(searchTerm)
      && filteredEvents == FilterEvents(events, currentFilter, searchTerm)
      && displayedEvents == filteredEvents[..Shown(currentPage, |filteredEvents|)]
      && (stats.Some? ==> stats.value == StatsOf(events))
      && (grid == GridFor(filteredEvents, displayedEvents) || (grid == [] && events == []))
    }

    /** The text of the error box when it is displayed (`showError`), None while it is hidden. */
    function ShownError(): Option<string>
      reads this
    {
      if status.Failed? then Some(LoadErrorText(status.error)) else None
    }

    /** The load-more control as the last render left it. */
    predicate LoadMoreAgrees()
      reads this
    {
      loadMoreVisible == LoadMoreWanted(currentPage, |filteredEvents|)
    }

    /** The page as `new EventsManager()` leaves it while the first load is under way. */
    constructor ()
      ensures Valid()
      ensures events == [] && filteredEvents == [] && displayedEvents == [] && currentPage == 0
      ensures currentFilter == "all" && searchTerm == ""
      ensures grid == [] && !loadMoreVisible && status == Loading && stats == None
    {
      events := [];
      filteredEvents := [];
      displayedEvents := [];
      currentPage := 0;
      currentFilter := "all";
      searchTerm := "";
      grid := [];
      loadMoreVisible := false;
      status := Loading;
      stats := None;
    }

    /** `applyFilters`: recompute the filtered list and start again from page 0. */
    method ApplyFilters()
      modifies this
      ensures filteredEvents == FilterEvents(events, currentFilter, searchTerm)
      ensures displayedEvents == [] && currentPage == 0
      ensures events == old(events) && currentFilter == old(currentFilter) && searchTerm == old(searchTerm)
      ensures grid == old(grid) && loadMoreVisible == old(loadMoreVisible)
      ensures status == old(status) && stats == old(stats)
    {
      var filtered := ByCategory(events, currentFilter);
      if searchTerm != "" {
        filtered := BySearch(filtered, searchTerm);
      }
      TwoPassFilter(events, currentFilter, searchTerm);
      filteredEvents := filtered;
      displayedEvents := [];
      currentPage := 0;
    }

    /**
      `renderEvents`: append the current page's slice to the displayed
      list and to the grid (cleared first on page 0), set the load-more
      control, and put the notice in place of an empty list.
    */
    method RenderEvents()
      modifies this
      ensures displayedEvents == old(displayedEvents) + PageSlice(filteredEvents, currentPage)
      ensures grid == if filteredEvents == [] then [NoEventsNotice]
        else (if currentPage == 0 then [] else old(grid)) + CardNodes(PageSlice(filteredEvents, currentPage))
      ensures LoadMoreAgrees()
      ensures events == old(events) && filteredEvents == old(filteredEvents) && currentPage == old(currentPage)
      ensures currentFilter == old(currentFilter) && searchTerm == old(searchTerm)
      ensures status == old(status) && stats == old(stats)
    {
      var newEvents := PageSlice(filteredEvents, currentPage);
      displayedEvents := displayedEvents + newEvents;
      if currentPage == 0 {
        grid := [];
      }
      grid := grid + CardNodes(newEvents);
      loadMoreVisible := LoadMoreWanted(currentPage, |filteredEvents|);
      if filteredEvents == [] {
        grid := [NoEventsNotice];
        loadMoreVisible := false;
      }
    }

    /** Filter, reset and render: the common tail of `setFilter` and `setSearchTerm`. */
    method Refresh()
      requires SortedByDate(events) && searchTerm == Lower(searchTerm)
      requires stats.Some? ==> stats.value == StatsOf(events)
      modifies this
      ensures Valid() && LoadMoreAgrees()
      ensures grid == GridFor(filteredEvents, displayedEvents)
      ensures currentPage == 0 && displayedEvents == filteredEvents[..Min(EventsPerPage, |filteredEvents|)]
      ensures events == old(events) && currentFilter == old(currentFilter) && searchTerm == old(searchTerm)
      ensures status == old(status) && stats == old(stats)
    {
      ApplyFilters();
      RenderEvents();
    }

    /** `setFilter`: choose a category and show its first page. */
    method SetFilter(filter: string)
      requires Valid()
      modifies this
      ensures Valid() && LoadMoreAgrees()
      ensures grid == GridFor(filteredEvents, displayedEvents)
      ensures currentFilter == filter && currentPage == 0
      ensures filteredEvents == FilterEvents(events, filter, searchTerm)
      ensures displayedEvents == filteredEvents[..Min(EventsPerPage, |filteredEvents|)]
      ensures events == old(events) && searchTerm == old(searchTerm) && status == old(status) && stats == old(stats)
    {
      currentFilter := filter;
      currentPage := 0;
      Refresh();
    }

    /** `setSearchTerm`: search for the lower-cased term and show the first page. */
    method SetSearchTerm(term: string)
      requires Valid()
      modifies this
      ensures Valid() && LoadMoreAgrees()
      ensures grid == GridFor(filteredEvents, displayedEvents)
      ensures searchTerm == Lower(term) && currentPage == 0
      ensures filteredEvents == FilterEvents(events, currentFilter, Lower(term))
      ensures displayedEvents == filteredEvents[..Min(EventsPerPage, |filteredEvents|)]
      ensures events == old(events) && currentFilter == old(currentFilter) && status == old(status) && stats == old(stats)
    {
      searchTerm := Lower(term);
      LowerIdempotent(term);
      currentPage := 0;
      Refresh();
    }

    /** `clearSearch`: an empty term, which keeps every event of the category. */
    method ClearSearch()
      requires Valid()
      modifies this
      ensures Valid() && LoadMoreAgrees()
      ensures grid == GridFor(filteredEvents, displayedEvents)
      ensures searchTerm == "" && currentPage == 0
      ensures filteredEvents == ByCategory(events, currentFilter)
      ensures events == old(events) && currentFilter == old(currentFilter) && status == old(status) && stats == old(stats)
    {
      SetSearchTerm("");
      ByCategoryIsFilter(events, currentFilter);
    }

    /** `loadMoreEvents`: the next page is appended to what is on screen. */
    method LoadMoreEvents()
      requires Valid()
      modifies this
      ensures Valid() && LoadMoreAgrees()
      ensures grid == GridFor(filteredEvents, displayedEvents)
      ensures currentPage == old(currentPage) + 1
      ensures displayedEvents == old(displayedEvents) + PageSlice(filteredEvents, currentPage)
      ensures displayedEvents == filteredEvents[..Shown(currentPage, |filteredEvents|)]
      ensures events == old(events) && filteredEvents == old(filteredEvents)
      ensures currentFilter == old(currentFilter) && searchTerm == old(searchTerm)
      ensures status == old(status) && stats == old(stats)
    {
      currentPage := currentPage + 1;
      var slice := PageSlice(filteredEvents, currentPage);
      PageExtendsPrefix(filteredEvents, currentPage);
      assert displayedEvents + slice == filteredEvents[..Shown(currentPage, |filteredEvents|)];
      if filteredEvents != [] {
        assert events != [];
        assert grid == CardNodes(displayedEvents);
        CardNodesAppend(displayedEvents, slice);
      }
      RenderEvents();
    }

    /** `updateStats`: count the events. */
    method UpdateStats()
      modifies this
      ensures stats == Some(StatsOf(events))
      ensures events == old(events) && filteredEvents == old(filteredEvents) && displayedEvents == old(displayedEvents)
      ensures currentPage == old(currentPage) && currentFilter == old(currentFilter) && searchTerm == old(searchTerm)
      ensures grid == old(grid) && loadMoreVisible == old(loadMoreVisible) && status == old(status)
    {
      stats := Some(StatsOf(events));
    }

    /**
      `fetchEvents` with the reply given: on success the events are
      replaced, counted, filtered with the current settings and shown from
      page 0; on any error the error box shows the error and the lists are
      left as they were.
    */
    method FetchEvents(reply: Reply, clock: Clock)
      requires Valid()
      modifies this
      ensures Valid()
      ensures currentFilter == old(currentFilter) && searchTerm == old(searchTerm)
      ensures LoadSpec(reply, clock).Loaded? ==>
        && events == LoadSpec(reply, clock).events
        && stats == Some(StatsOf(events))
        && status == Ready
        && currentPage == 0
        && displayedEvents == filteredEvents[..Min(EventsPerPage, |filteredEvents|)]
        && grid == GridFor(filteredEvents, displayedEvents)
        && LoadMoreAgrees()
      ensures LoadSpec(reply, clock).LoadFailed? ==>
        && status == Failed(LoadSpec(reply, clock).error)
        && ShownError() == Some(LoadErrorText(LoadSpec(reply, clock).error))
        && !loadMoreVisible
        && events == old(events) && filteredEvents == old(filteredEvents)
        && displayedEvents == old(displayedEvents) && currentPage == old(currentPage)
        && grid == old(grid) && stats == old(stats)
    {
      status := Loading;
      loadMoreVisible := false;
      var received := ReceiveEvents(reply);
      if received.Refused? {
        status := Failed(received.error);
        return;
      }
      var processed := ProcessEvents(received.items, clock);
      if processed.Threw? {
        status := Failed(BadEvent(processed.fault));
        return;
      }
      ProcessedSortedPermutation(received.items, clock);
      events := processed.events;
      UpdateStats();
      Refresh();
      status := Ready;
    }
  }
}
