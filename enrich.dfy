/**
 * The enrichment walk of the /generate-itinerary handler: for every day in
 * key order, the accommodation, then each activity, then each dining option,
 * then each entry of the top-level necessary-items list gets its truthy
 * `image` replaced by the photo lookup's answer for that entry's query. The
 * lookup is the function `resolve`; `Threw` aborts the walk, as the awaited
 * rejection does in the handler. A missing accommodation or list throws a
 * TypeError when the loop reaches it.
 *
 * The *Run functions state the walk step by step (each returns the queries
 * sent to the lookup and the outcome); the methods below them are the loops,
 * each proved to compute its Run function. The lemmas in enrich_proofs.dfy
 * relate the Run functions to the reference rewrite at the end of this file.
 */
module Enrich {
  import opened Wrappers
  import opened Itinerary

  /** The lookups made so far and the outcome. */
  datatype Run<+T> = Run(calls: seq<string>, out: Try<T>)

  /** How one kind of entry is enriched: where its image is, what query it is looked up with, how the image is replaced. */
  datatype Slot<!T> = Slot(image: T -> string, query: T -> string, withImage: (T, string) -> T)

  /** Accommodation: looked up as "<name>, <day location>". */
  function AccommodationSlot(location: string): Slot<Accommodation>
  {
    Slot((a: Accommodation) => a.image, (a: Accommodation) => a.name + ", " + location,
         (a: Accommodation, u: string) => a.(image := u))
  }

  /** Activity: looked up by its activity text alone, with no location. */
  function ActivitySlot(): Slot<Activity>
  {
    Slot((a: Activity) => a.image, (a: Activity) => a.activity, (a: Activity, u: string) => a.(image := u))
  }

  /** Dining option: looked up as "<name>, <day location>". */
  function DiningSlot(location: string): Slot<DiningOption>
  {
    Slot((d: DiningOption) => d.image, (d: DiningOption) => d.name + ", " + location,
         (d: DiningOption, u: string) => d.(image := u))
  }

  /** Necessary item: looked up by its name. */
  function ItemSlot(): Slot<NecessaryItem>
  {
    Slot((i: NecessaryItem) => i.image, (i: NecessaryItem) => i.name,
         (i: NecessaryItem, u: string) => i.(image := u))
  }

  /** `if (x.image) { x.image = await fetchPlacesImage(query) }` */
  function EntryRun<T>(x: T, s: Slot<T>, resolve: string -> Try<string>): (r: Run<T>)
    ensures r.calls == [] <==> s.image(x) == ""
    ensures r.calls != [] ==> r.calls == [s.query(x)]
  {
    if s.image(x) == "" then Run([], Ok(x))
    else
      var q := s.query(x);
      match resolve(q)
      case Threw => Run([q], Threw)
      case Ok(u) => Run([q], Ok(s.withImage(x, u)))
  }

  /** One `for (const x of xs)` loop of entries, stated from its last iteration backwards. */
  function ListRun<T>(xs: seq<T>, s: Slot<T>, resolve: string -> Try<string>): (r: Run<seq<T>>)
    ensures |r.calls| <= |xs|
    ensures r.out.Ok? ==> |r.out.value| == |xs|
    decreases |xs|
  {
    if xs == [] then Run([], Ok([]))
    else
      var prev := ListRun(xs[..|xs| - 1], s, resolve);
      match prev.out
      case Threw => prev
      case Ok(done) =>
        var step := EntryRun(xs[|xs| - 1], s, resolve);
        match step.out
        case Threw => Run(prev.calls + step.calls, Threw)
        case Ok(x) => Run(prev.calls + step.calls, Ok(done + [x]))
  }

  /**
   * One iteration of the day loop: the accommodation, the activities, the
   * dining options, then the shared necessary-items list, which is returned
   * (rewritten) for the next day.
   */
  function DayRun(d: DayPlan, items: Option<seq<NecessaryItem>>, resolve: string -> Try<string>)
    : (r: Run<(DayPlan, Option<seq<NecessaryItem>>)>)
    ensures r.out.Ok? ==> var (d', its) := r.out.value;
      && d'.accommodation.Some? && d'.activities.Some? && d'.diningOptions.Some?
      && d'.date == d.date && d'.location == d.location && d'.distanceToNextDay == d.distanceToNextDay
      && items.Some? && its.Some? && |its.value| == |items.value|
  {
    match d.accommodation
    case None => Run([], Threw)
    case Some(acc) =>
      var a := EntryRun(acc, AccommodationSlot(d.location), resolve);
      if a.out.Threw? then Run(a.calls, Threw)
      else match d.activities
      case None => Run(a.calls, Threw)
      case Some(acts) =>
        var b := ListRun(acts, ActivitySlot(), resolve);
        if b.out.Threw? then Run(a.calls + b.calls, Threw)
        else match d.diningOptions
        case None => Run(a.calls + b.calls, Threw)
        case Some(dining) =>
          var c := ListRun(dining, DiningSlot(d.location), resolve);
          if c.out.Threw? then Run(a.calls + b.calls + c.calls, Threw)
          else match items
          case None => Run(a.calls + b.calls + c.calls, Threw)
          case Some(its) =>
            var e := ListRun(its, ItemSlot(), resolve);
            var calls := a.calls + b.calls + c.calls + e.calls;
            if e.out.Threw? then Run(calls, Threw)
            else
              var d' := d.(accommodation := Some(a.out.value), activities := Some(b.out.value),
                           diningOptions := Some(c.out.value));
              Run(calls, Ok((d', Some(e.out.value))))
  }

  /** The day loop over the first |days| days, threading the necessary-items list. */
  function DaysRun(days: seq<DayPlan>, items: Option<seq<NecessaryItem>>, resolve: string -> Try<string>)
    : (r: Run<(seq<DayPlan>, Option<seq<NecessaryItem>>)>)
    ensures r.out.Ok? ==> |r.out.value.0| == |days|
    ensures r.out.Ok? && days != [] ==> items.Some?
    decreases |days|
  {
    if days == [] then Run([], Ok(([], items)))
    else
      var prev := DaysRun(days[..|days| - 1], items, resolve);
      match prev.out
      case Threw => prev
      case Ok((done, its)) =>
        var step := DayRun(days[|days| - 1], its, resolve);
        match step.out
        case Threw => Run(prev.calls + step.calls, Threw)
        case Ok((d, its')) => Run(prev.calls + step.calls, Ok((done + [d], its')))
  }

  /** The whole walk over a document: no trip means no days, so nothing happens. */
  function EnrichRun(doc: Document, resolve: string -> Try<string>): (r: Run<Document>)
    ensures doc.trip.None? ==> r.calls == [] && r.out == Ok(doc)
    ensures r.out.Ok? ==> var after := r.out.value;
      && after.success == doc.success && after.totals == doc.totals
      && after.trip.Some? == doc.trip.Some?
      && (doc.trip.Some? ==> |after.trip.value.days| == |doc.trip.value.days|)
  {
    match doc.trip
    case None => Run([], Ok(doc))
    case Some(trip) =>
      var r := DaysRun(trip.days, doc.necessaryItems, resolve);
      match r.out
      case Threw => Run(r.calls, Threw)
      case Ok((days, items)) => Run(r.calls, Ok(doc.(trip := Some(trip.(days := days)), necessaryItems := items)))
  }

  /** Once the entry loop has thrown, the later entries make no difference. */
  lemma {:induction false} ListRunThrewSticks<T>(xs: seq<T>, k: nat, s: Slot<T>, resolve: string -> Try<string>)
    requires k <= |xs| && ListRun(xs[..k], s, resolve).out.Threw?
    ensures ListRun(xs, s, resolve) == ListRun(xs[..k], s, resolve)
    decreases |xs|
  {
    if k < |xs| {
      var init := xs[..|xs| - 1];
      assert init[..k] == xs[..k];
      ListRunThrewSticks(init, k, s, resolve);
    } else {
      assert xs[..k] == xs;
    }
  }

  /** Once the day loop has thrown, the later days make no difference. */
  lemma {:induction false} DaysRunThrewSticks(days: seq<DayPlan>, k: nat, items: Option<seq<NecessaryItem>>,
                                              resolve: string -> Try<string>)
    requires k <= |days| && DaysRun(days[..k], items, resolve).out.Threw?
    ensures DaysRun(days, items, resolve) == DaysRun(days[..k], items, resolve)
    decreases |days|
  {
    if k < |days| {
      var init := days[..|days| - 1];
      assert init[..k] == days[..k];
      DaysRunThrewSticks(init, k, items, resolve);
    } else {
      assert days[..k] == days;
    }
  }

  /** The day loop over one more day, after a completed prefix. */
  lemma DaysRunExtends(days: seq<DayPlan>, k: nat, items: Option<seq<NecessaryItem>>, resolve: string -> Try<string>,
                       calls: seq<string>, done: seq<DayPlan>, its: Option<seq<NecessaryItem>>)
    requires k < |days| && DaysRun(days[..k], items, resolve) == Run(calls, Ok((done, its)))
    ensures var step := DayRun(days[k], its, resolve);
      DaysRun(days[..k + 1], items, resolve)
        == if step.out.Threw? then Run(calls + step.calls, Threw)
           else Run(calls + step.calls, Ok((done + [step.out.value.0], step.out.value.1)))
  {
    assert days[..k + 1][..k] == days[..k];
  }

  /** The inner `for ... of` loop: rewrites the truthy images of `xs` in place, in order. */
  method EnrichList<T>(xs: seq<T>, s: Slot<T>, resolve: string -> Try<string>) returns (r: Run<seq<T>>)
    ensures r == ListRun(xs, s, resolve)
  {
    var ys := xs;
    var calls: seq<string> := [];
    var i := 0;
    while i < |xs|
      invariant 0 <= i <= |xs| && |ys| == |xs|
      invariant forall j :: i <= j < |xs| ==> ys[j] == xs[j]
      invariant ListRun(xs[..i], s, resolve) == Run(calls, Ok(ys[..i]))
    {
      var x := ys[i];
      var done := ys[..i];
      assert xs[..i + 1][..i] == xs[..i] && xs[..i + 1][i] == x;
      if s.image(x) != "" {
        var q := s.query(x);
        calls := calls + [q];
        var u := resolve(q);
        if u.Threw? {
          assert ListRun(xs[..i + 1], s, resolve) == Run(calls, Threw);
          ListRunThrewSticks(xs, i + 1, s, resolve);
          return Run(calls, Threw);
        }
        ys := ys[i := s.withImage(x, u.value)];
      }
      assert ys[..i] == done;
      assert ys[..i + 1] == done + [ys[i]];
      i := i + 1;
    }
    assert xs[..i] == xs && ys[..i] == ys;
    r := Run(calls, Ok(ys));
  }

  /** The body of the day loop. */
  method EnrichDay(d: DayPlan, items: Option<seq<NecessaryItem>>, resolve: string -> Try<string>)
    returns (r: Run<(DayPlan, Option<seq<NecessaryItem>>)>)
    ensures r == DayRun(d, items, resolve)
  {
    if d.accommodation.None? {
      return Run([], Threw);
    }
    var acc := d.accommodation.value;
    var calls: seq<string> := [];
    if acc.image != "" {
      var q := acc.name + ", " + d.location;
      calls := [q];
      var u := resolve(q);
      if u.Threw? {
        return Run(calls, Threw);
      }
      acc := acc.(image := u.value);
    }
    if d.activities.None? {
      return Run(calls, Threw);
    }
    var acts := EnrichList(d.activities.value, ActivitySlot(), resolve);
    calls := calls + acts.calls;
    if acts.out.Threw? {
      return Run(calls, Threw);
    }
    if d.diningOptions.None? {
      return Run(calls, Threw);
    }
    var dining := EnrichList(d.diningOptions.value, DiningSlot(d.location), resolve);
    calls := calls + dining.calls;
    if dining.out.Threw? {
      return Run(calls, Threw);
    }
    if items.None? {
      return Run(calls, Threw);
    }
    var its := EnrichList(items.value, ItemSlot(), resolve);
    calls := calls + its.calls;
    if its.out.Threw? {
      return Run(calls, Threw);
    }
    var d' := d.(accommodation := Some(acc), activities := Some(acts.out.value), diningOptions := Some(dining.out.value));
    r := Run(calls, Ok((d', Some(its.out.value))));
  }

  /** The `for (const day in ...)` loop over the validated document. */
  method EnrichItinerary(doc: Document, resolve: string -> Try<string>) returns (r: Run<Document>)
    ensures r == EnrichRun(doc, resolve)
  {
    if doc.trip.None? {
      return Run([], Ok(doc));
    }
    var trip := doc.trip.value;
    var days := trip.days;
    var items := doc.necessaryItems;
    var calls: seq<string> := [];
    var i := 0;
    while i < |days|
      invariant 0 <= i <= |days| && |days| == |trip.days|
      invariant days[i..] == trip.days[i..]
      invariant DaysRun(trip.days[..i], doc.necessaryItems, resolve) == Run(calls, Ok((days[..i], items)))
    {
      assert days[i] == trip.days[i];
      var step := EnrichDay(days[i], items, resolve);
      DaysRunExtends(trip.days, i, doc.necessaryItems, resolve, calls, days[..i], items);
      calls := calls + step.calls;
      if step.out.Threw? {
        DaysRunThrewSticks(trip.days, i + 1, doc.necessaryItems, resolve);
        return Run(calls, Threw);
      }
      ghost var done := days[..i];
      days := days[i := step.out.value.0];
      items := step.out.value.1;
      assert days[..i + 1] == done + [step.out.value.0];
      i := i + 1;
    }
    assert trip.days[..i] == trip.days && days[..i] == days;
    r := Run(calls, Ok(doc.(trip := Some(trip.(days := days)), necessaryItems := items)));
  }
}

/**
 * What the enrichment walk should leave behind, written entry by entry with
 * no loop and no lookup order: each truthy image becomes the URL found for
 * that entry's query, nothing else changes. `url` is the lookup with its
 * failures set aside (they are handled by the lemmas that use it).
 */
module EnrichSpec {
  import opened Wrappers
  import opened Itinerary
  import opened Enrich

  /** The answers of a lookup that does not throw; "" where it would. */
  function UrlOf(resolve: string -> Try<string>): string -> string
  {
    q => resolve(q).GetOr("")
  }

  function RewriteAccommodation(a: Accommodation, location: string, url: string -> string): Accommodation
  {
    if a.image == "" then a else a.(image := url(a.name + ", " + location))
  }

  function RewriteActivity(a: Activity, url: string -> string): Activity
  {
    if a.image == "" then a else a.(image := url(a.activity))
  }

  function RewriteDining(d: DiningOption, location: string, url: string -> string): DiningOption
  {
    if d.image == "" then d else d.(image := url(d.name + ", " + location))
  }

  function RewriteItem(i: NecessaryItem, url: string -> string): NecessaryItem
  {
    if i.image == "" then i else i.(image := url(i.name))
  }

  function RewriteItems(items: seq<NecessaryItem>, url: string -> string): seq<NecessaryItem>
  {
    seq(|items|, k requires 0 <= k < |items| => RewriteItem(items[k], url))
  }

  /** A day with every truthy image of its accommodation, activities and dining options replaced. */
  function RewriteDay(d: DayPlan, url: string -> string): DayPlan
  {
    var acc := match d.accommodation
      case None => None
      case Some(a) => Some(RewriteAccommodation(a, d.location, url));
    var acts := match d.activities
      case None => None
      case Some(xs) => Some(seq(|xs|, k requires 0 <= k < |xs| => RewriteActivity(xs[k], url)));
    var dining := match d.diningOptions
      case None => None
      case Some(xs) => Some(seq(|xs|, k requires 0 <= k < |xs| => RewriteDining(xs[k], d.location, url)));
    d.(accommodation := acc, activities := acts, diningOptions := dining)
  }

  function RewriteDays(days: seq<DayPlan>, url: string -> string): seq<DayPlan>
  {
    seq(|days|, k requires 0 <= k < |days| => RewriteDay(days[k], url))
  }

  /** The necessary-items list after n passes of the day loop: untouched when there were no days. */
  function ItemsAfter(n: nat, items: Option<seq<NecessaryItem>>, url: string -> string): Option<seq<NecessaryItem>>
  {
    if n == 0 then items
    else match items
      case None => None
      case Some(its) => Some(RewriteItems(its, url))
  }

  /** The enriched document. */
  function Expected(doc: Document, url: string -> string): Document
  {
    match doc.trip
    case None => doc
    case Some(trip) =>
      doc.(trip := Some(trip.(days := RewriteDays(trip.days, url))),
           necessaryItems := ItemsAfter(|trip.days|, doc.necessaryItems, url))
  }

  /** The queries a list of entries asks for when no lookup throws: one per truthy image, in order. */
  function Wanted<T>(xs: seq<T>, s: Slot<T>): seq<string>
    decreases |xs|
  {
    if xs == [] then []
    else Wanted(xs[..|xs| - 1], s) + (if s.image(xs[|xs| - 1]) == "" then [] else [s.query(xs[|xs| - 1])])
  }

  function OrEmpty<T>(o: Option<seq<T>>): seq<T>
  {
    match o
    case None => []
    case Some(xs) => xs
  }

  /** The queries for one day's accommodation, activities and dining options. */
  function DayQueries(d: DayPlan): seq<string>
  {
    var acc := match d.accommodation
      case None => []
      case Some(a) => Wanted([a], AccommodationSlot(d.location));
    acc + Wanted(OrEmpty(d.activities), ActivitySlot()) + Wanted(OrEmpty(d.diningOptions), DiningSlot(d.location))
  }

  /** The queries of the whole walk: each day's own, then the necessary items again. */
  function Planned(days: seq<DayPlan>, items: Option<seq<NecessaryItem>>): seq<string>
    decreases |days|
  {
    if days == [] then []
    else Planned(days[..|days| - 1], items) + DayQueries(days[|days| - 1]) + Wanted(OrEmpty(items), ItemSlot())
  }

  predicate DayComplete(d: DayPlan)
  {
    d.accommodation.Some? && d.activities.Some? && d.diningOptions.Some?
  }

  /** Nothing the walk dereferences is missing: every day has its accommodation and lists, and the items list exists if a day does. */
  predicate Complete(days: seq<DayPlan>, items: Option<seq<NecessaryItem>>)
  {
    (forall k :: 0 <= k < |days| ==> DayComplete(days[k])) && (|days| > 0 ==> items.Some?)
  }

  /** The number of lookups each day makes for its own entries. */
  function DayNeeds(days: seq<DayPlan>): nat
    decreases |days|
  {
    if days == [] then 0 else DayNeeds(days[..|days| - 1]) + |DayQueries(days[|days| - 1])|
  }

  /** The document with every image blanked: what enrichment must leave alone. */
  function EraseImages(doc: Document): Document
  {
    var items := match doc.necessaryItems
      case None => None
      case Some(its) => Some(EraseItems(its));
    var trip := match doc.trip
      case None => None
      case Some(t) => Some(t.(days := EraseDays(t.days)));
    doc.(trip := trip, necessaryItems := items)
  }

  function EraseDays(days: seq<DayPlan>): seq<DayPlan>
  {
    seq(|days|, k requires 0 <= k < |days| => EraseDay(days[k]))
  }

  function EraseItems(xs: seq<NecessaryItem>): seq<NecessaryItem>
  {
    seq(|xs|, k requires 0 <= k < |xs| => xs[k].(image := ""))
  }

  function EraseActivities(xs: seq<Activity>): seq<Activity>
  {
    seq(|xs|, k requires 0 <= k < |xs| => xs[k].(image := ""))
  }

  function EraseDining(xs: seq<DiningOption>): seq<DiningOption>
  {
    seq(|xs|, k requires 0 <= k < |xs| => xs[k].(image := ""))
  }

  function EraseDay(d: DayPlan): DayPlan
  {
    var acc := match d.accommodation
      case None => None
      case Some(a) => Some(a.(image := ""));
    var acts := match d.activities
      case None => None
      case Some(xs) => Some(EraseActivities(xs));
    var dining := match d.diningOptions
      case None => None
      case Some(xs) => Some(EraseDining(xs));
    d.(accommodation := acc, activities := acts, diningOptions := dining)
  }
}
