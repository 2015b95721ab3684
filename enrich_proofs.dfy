/**
 * What the enrichment walk does, proved from its step-by-step statement:
 * which entries it rewrites and with which query, when it throws, the
 * lookups it makes and how many, and that it writes image fields only.
 */
module EnrichProofs {
  import opened Wrappers
  import opened Itinerary
  import opened Enrich
  import opened EnrichSpec

  /** The generic per-entry rewrite a slot describes. */
  function RewriteWith<T>(x: T, s: Slot<T>, url: string -> string): T
  {
    if s.image(x) == "" then x else s.withImage(x, url(s.query(x)))
  }

  function RewriteAll<T>(xs: seq<T>, s: Slot<T>, url: string -> string): seq<T>
  {
    seq(|xs|, k requires 0 <= k < |xs| => RewriteWith(xs[k], s, url))
  }

  lemma RewriteAllSnoc<T>(xs: seq<T>, s: Slot<T>, url: string -> string)
    requires xs != []
    ensures RewriteAll(xs, s, url) == RewriteAll(xs[..|xs| - 1], s, url) + [RewriteWith(xs[|xs| - 1], s, url)]
  {
  }

  /** One entry: it asks for its query only when its image is truthy, and then holds the answer. */
  lemma EntryRunMeaning<T>(x: T, s: Slot<T>, resolve: string -> Try<string>)
    ensures Wanted([x], s) == if s.image(x) == "" then [] else [s.query(x)]
    ensures EntryRun(x, s, resolve).calls == Wanted([x], s)
    ensures EntryRun(x, s, resolve).out.Ok? <==> forall q :: q in Wanted([x], s) ==> resolve(q).Ok?
    ensures EntryRun(x, s, resolve).out.Ok? ==> EntryRun(x, s, resolve).out.value == RewriteWith(x, s, UrlOf(resolve))
  {
    assert [x][..0] == [];
  }

  /** One entry loop completes exactly when no lookup it needs throws. */
  lemma {:induction false} ListRunOk<T>(xs: seq<T>, s: Slot<T>, resolve: string -> Try<string>)
    ensures ListRun(xs, s, resolve).out.Ok? <==> forall q :: q in Wanted(xs, s) ==> resolve(q).Ok?
    decreases |xs|
  {
    if xs != [] {
      var init, x := xs[..|xs| - 1], xs[|xs| - 1];
      ListRunOk(init, s, resolve);
      EntryRunMeaning(x, s, resolve);
      assert Wanted(xs, s) == Wanted(init, s) + Wanted([x], s);
    }
  }

  /**
   * A completed entry loop has rewritten every truthy image with the answer
   * for that entry's query, having asked for the wanted queries in order.
   */
  lemma {:induction false} ListRunValue<T>(xs: seq<T>, s: Slot<T>, resolve: string -> Try<string>)
    ensures var r := ListRun(xs, s, resolve);
      r.out.Ok? ==> r.out.value == RewriteAll(xs, s, UrlOf(resolve)) && r.calls == Wanted(xs, s)
    decreases |xs|
  {
    if xs != [] && ListRun(xs, s, resolve).out.Ok? {
      var init, x := xs[..|xs| - 1], xs[|xs| - 1];
      ListRunValue(init, s, resolve);
      EntryRunMeaning(x, s, resolve);
      RewriteAllSnoc(xs, s, UrlOf(resolve));
      assert Wanted(xs, s) == Wanted(init, s) + Wanted([x], s);
    }
  }

  /**
   * The lookups `calls` of a thrown walk whose wanted queries are `w`: a
   * non-empty prefix of `w` whose last query threw and whose earlier ones all
   * answered.
   */
  predicate FailedAt(calls: seq<string>, w: seq<string>, resolve: string -> Try<string>)
  {
    && 0 < |calls| <= |w|
    && calls == w[..|calls|]
    && resolve(w[|calls| - 1]).Threw?
    && forall j :: 0 <= j < |calls| - 1 ==> resolve(w[j]).Ok?
  }

  /** A failing prefix of some queries is one of any longer list they start. */
  lemma FailedAtExtends(calls: seq<string>, w: seq<string>, more: seq<string>, resolve: string -> Try<string>)
    requires FailedAt(calls, w, resolve)
    ensures FailedAt(calls, w + more, resolve)
  {
    assert (w + more)[..|calls|] == w[..|calls|];
  }

  /** Asking for every query of a list that all answered, then one that throws, fails at that last one. */
  lemma FailedAtLast(w: seq<string>, q: string, resolve: string -> Try<string>)
    requires (forall p :: p in w ==> resolve(p).Ok?) && resolve(q).Threw?
    ensures FailedAt(w + [q], w + [q], resolve)
  {
    assert (w + [q])[..|w + [q]|] == w + [q];
    assert forall j :: 0 <= j < |w| ==> (w + [q])[j] == w[j] && w[j] in w;
  }

  /** A thrown entry loop has asked for a prefix of the wanted queries, ending at the first one that threw. */
  lemma {:induction false} ListRunFails<T>(xs: seq<T>, s: Slot<T>, resolve: string -> Try<string>)
    ensures var r := ListRun(xs, s, resolve);
      r.out.Threw? ==> FailedAt(r.calls, Wanted(xs, s), resolve)
    decreases |xs|
  {
    if xs != [] && ListRun(xs, s, resolve).out.Threw? {
      var init, x := xs[..|xs| - 1], xs[|xs| - 1];
      var prev := ListRun(init, s, resolve);
      var r := ListRun(xs, s, resolve);
      EntryRunMeaning(x, s, resolve);
      assert Wanted(xs, s) == Wanted(init, s) + Wanted([x], s);
      if prev.out.Threw? {
        ListRunFails(init, s, resolve);
        assert r == prev;
        FailedAtExtends(prev.calls, Wanted(init, s), Wanted([x], s), resolve);
      } else {
        ListRunValue(init, s, resolve);
        ListRunOk(init, s, resolve);
        FailedAtLast(Wanted(init, s), s.query(x), resolve);
      }
    }
  }

  lemma ActivitiesRewritten(xs: seq<Activity>, url: string -> string)
    ensures RewriteAll(xs, ActivitySlot(), url) == seq(|xs|, k requires 0 <= k < |xs| => RewriteActivity(xs[k], url))
  {
  }

  lemma DiningRewritten(xs: seq<DiningOption>, location: string, url: string -> string)
    ensures RewriteAll(xs, DiningSlot(location), url)
         == seq(|xs|, k requires 0 <= k < |xs| => RewriteDining(xs[k], location, url))
  {
  }

  lemma ItemsRewritten(xs: seq<NecessaryItem>, url: string -> string)
    ensures RewriteAll(xs, ItemSlot(), url) == RewriteItems(xs, url)
  {
  }

  /** A second pass over the necessary items changes nothing: each already holds the answer for its name. */
  lemma RewriteItemsTwice(items: seq<NecessaryItem>, url: string -> string)
    ensures RewriteItems(RewriteItems(items, url), url) == RewriteItems(items, url)
  {
  }

  /**
   * The queries of a second pass over the necessary items are among those of
   * the first, and are the same list when every answer was truthy.
   */
  lemma {:induction false} WantedAfterRewrite(items: seq<NecessaryItem>, url: string -> string)
    ensures forall q :: q in Wanted(RewriteItems(items, url), ItemSlot()) ==> q in Wanted(items, ItemSlot())
    ensures (forall q :: q in Wanted(items, ItemSlot()) ==> url(q) != "") ==>
      Wanted(RewriteItems(items, url), ItemSlot()) == Wanted(items, ItemSlot())
    decreases |items|
  {
    if items != [] {
      var init := items[..|items| - 1];
      var again := RewriteItems(items, url);
      assert again[..|again| - 1] == RewriteItems(init, url);
      WantedAfterRewrite(init, url);
      assert Wanted(items, ItemSlot()) == Wanted(init, ItemSlot()) + (if items[|items| - 1].image == "" then [] else [items[|items| - 1].name]);
      assert Wanted(again, ItemSlot()) == Wanted(RewriteItems(init, url), ItemSlot())
        + (if again[|again| - 1].image == "" then [] else [again[|again| - 1].name]);
    }
  }

  /** One pass of the day loop completes exactly when the day and the items list are present and none of their lookups throws. */
  lemma DayRunOk(d: DayPlan, items: Option<seq<NecessaryItem>>, resolve: string -> Try<string>)
    ensures DayRun(d, items, resolve).out.Ok? <==>
      && DayComplete(d) && items.Some?
      && forall q :: q in DayQueries(d) + Wanted(OrEmpty(items), ItemSlot()) ==> resolve(q).Ok?
  {
    if d.accommodation.None? {
      return;
    }
    var acc := d.accommodation.value;
    var a := Wanted([acc], AccommodationSlot(d.location));
    var b := Wanted(OrEmpty(d.activities), ActivitySlot());
    var c := Wanted(OrEmpty(d.diningOptions), DiningSlot(d.location));
    var e := Wanted(OrEmpty(items), ItemSlot());
    AllOkConcat(a, b, resolve);
    AllOkConcat(a + b, c, resolve);
    AllOkConcat(a + b + c, e, resolve);
    EntryRunMeaning(acc, AccommodationSlot(d.location), resolve);
    if EntryRun(acc, AccommodationSlot(d.location), resolve).out.Threw? || d.activities.None? {
      return;
    }
    ListRunOk(d.activities.value, ActivitySlot(), resolve);
    if ListRun(d.activities.value, ActivitySlot(), resolve).out.Threw? || d.diningOptions.None? {
      return;
    }
    ListRunOk(d.diningOptions.value, DiningSlot(d.location), resolve);
    if ListRun(d.diningOptions.value, DiningSlot(d.location), resolve).out.Threw? || items.None? {
      return;
    }
    ListRunOk(items.value, ItemSlot(), resolve);
  }

  /** Every query of two lists resolves exactly when every query of each does. */
  lemma AllOkConcat(a: seq<string>, b: seq<string>, resolve: string -> Try<string>)
    ensures (forall q :: q in a + b ==> resolve(q).Ok?)
        <==> (forall q :: q in a ==> resolve(q).Ok?) && (forall q :: q in b ==> resolve(q).Ok?)
  {
  }

  /** A completed pass of the day loop leaves the reference rewrite of the day and of the items. */
  lemma DayRunValue(d: DayPlan, items: Option<seq<NecessaryItem>>, resolve: string -> Try<string>)
    requires DayRun(d, items, resolve).out.Ok?
    ensures items.Some?
    ensures DayRun(d, items, resolve).out.value == (RewriteDay(d, UrlOf(resolve)), Some(RewriteItems(items.value, UrlOf(resolve))))
  {
    var url := UrlOf(resolve);
    var acc, acts, dining, its := d.accommodation.value, d.activities.value, d.diningOptions.value, items.value;
    EntryRunMeaning(acc, AccommodationSlot(d.location), resolve);
    ListRunValue(acts, ActivitySlot(), resolve);
    ActivitiesRewritten(acts, url);
    ListRunValue(dining, DiningSlot(d.location), resolve);
    DiningRewritten(dining, d.location, url);
    ListRunValue(its, ItemSlot(), resolve);
    ItemsRewritten(its, url);
  }

  /** A completed pass of the day loop asks for the day's queries in order, then the items'. */
  lemma DayRunQueries(d: DayPlan, items: Option<seq<NecessaryItem>>, resolve: string -> Try<string>)
    requires DayRun(d, items, resolve).out.Ok?
    ensures DayComplete(d) && items.Some?
    ensures DayRun(d, items, resolve).calls == DayQueries(d) + Wanted(items.value, ItemSlot())
  {
    EntryRunMeaning(d.accommodation.value, AccommodationSlot(d.location), resolve);
    ListRunValue(d.activities.value, ActivitySlot(), resolve);
    ListRunValue(d.diningOptions.value, DiningSlot(d.location), resolve);
    ListRunValue(items.value, ItemSlot(), resolve);
  }

  /** A completed day loop is a completed loop over all days but the last, followed by a completed pass over the last. */
  lemma DaysRunStep(days: seq<DayPlan>, items: Option<seq<NecessaryItem>>, resolve: string -> Try<string>)
    requires days != [] && DaysRun(days, items, resolve).out.Ok?
    ensures var prev := DaysRun(days[..|days| - 1], items, resolve);
      && prev.out.Ok?
      && var step := DayRun(days[|days| - 1], prev.out.value.1, resolve);
      && step.out.Ok?
      && DaysRun(days, items, resolve).calls == prev.calls + step.calls
      && DaysRun(days, items, resolve).out.value == (prev.out.value.0 + [step.out.value.0], step.out.value.1)
  {
  }

  lemma PlannedPrefix(days: seq<DayPlan>, items: Option<seq<NecessaryItem>>, q: string)
    requires days != [] && q in Planned(days[..|days| - 1], items)
    ensures q in Planned(days, items)
  {
  }

  lemma PlannedSnoc(days: seq<DayPlan>, items: Option<seq<NecessaryItem>>)
    requires days != []
    ensures Planned(days, items)
         == Planned(days[..|days| - 1], items) + DayQueries(days[|days| - 1]) + Wanted(OrEmpty(items), ItemSlot())
  {
  }

  lemma RewriteDaysSnoc(days: seq<DayPlan>, url: string -> string)
    requires days != []
    ensures RewriteDays(days, url) == RewriteDays(days[..|days| - 1], url) + [RewriteDay(days[|days| - 1], url)]
  {
    assert RewriteDays(days, url)[..|days| - 1] == RewriteDays(days[..|days| - 1], url);
  }

  /** A completed day loop leaves every day rewritten and the items rewritten once per day, which is the same as once. */
  lemma {:induction false} DaysRunValue(days: seq<DayPlan>, items: Option<seq<NecessaryItem>>, resolve: string -> Try<string>)
    ensures var r := DaysRun(days, items, resolve); var url := UrlOf(resolve);
      r.out.Ok? ==> r.out.value == (RewriteDays(days, url), ItemsAfter(|days|, items, url))
    decreases |days|
  {
    var url := UrlOf(resolve);
    if days == [] {
      assert RewriteDays(days, url) == [];
      return;
    }
    if DaysRun(days, items, resolve).out.Threw? {
      return;
    }
    var init, d := days[..|days| - 1], days[|days| - 1];
    DaysRunStep(days, items, resolve);
    DaysRunValue(init, items, resolve);
    var prev := DaysRun(init, items, resolve);
    var its := prev.out.value.1;
    DayRunValue(d, its, resolve);
    if init != [] {
      RewriteItemsTwice(items.value, url);
    }
    RewriteDaysSnoc(days, url);
  }

  lemma CompleteSnoc(days: seq<DayPlan>, items: Option<seq<NecessaryItem>>)
    requires days != []
    ensures Complete(days, items) <==> Complete(days[..|days| - 1], items) && DayComplete(days[|days| - 1]) && items.Some?
  {
    var init := days[..|days| - 1];
    if Complete(init, items) && DayComplete(days[|days| - 1]) {
      assert forall k :: 0 <= k < |days| - 1 ==> days[k] == init[k];
    }
  }

  /**
   * The day loop completes exactly when nothing it dereferences is missing
   * and no lookup it needs throws.
   */
  lemma {:induction false} DaysRunOk(days: seq<DayPlan>, items: Option<seq<NecessaryItem>>, resolve: string -> Try<string>)
    ensures DaysRun(days, items, resolve).out.Ok? <==>
      Complete(days, items) && forall q :: q in Planned(days, items) ==> resolve(q).Ok?
    decreases |days|
  {
    if days == [] {
      return;
    }
    var url := UrlOf(resolve);
    var init, d := days[..|days| - 1], days[|days| - 1];
    DaysRunOk(init, items, resolve);
    CompleteSnoc(days, items);
    var prev := DaysRun(init, items, resolve);
    PlannedSnoc(days, items);
    if prev.out.Threw? {
      forall q | q in Planned(init, items) ensures q in Planned(days, items) {
        PlannedPrefix(days, items, q);
      }
      return;
    }
    DaysRunValue(init, items, resolve);
    var its := prev.out.value.1;
    DayRunOk(d, its, resolve);
    if init != [] && items.Some? {
      WantedAfterRewrite(items.value, url);
      PlannedSnoc(init, items);
    }
  }

  /** The lookup never answers a query of the necessary items with "", so a rewritten item still wants its lookup. */
  ghost predicate ItemAnswersNonEmpty(items: Option<seq<NecessaryItem>>, resolve: string -> Try<string>)
  {
    forall q :: q in Wanted(OrEmpty(items), ItemSlot()) && resolve(q).Ok? ==> resolve(q).value != ""
  }

  /** When no answer for an item is empty, the lookups of a completed day loop are exactly the planned ones. */
  lemma {:induction false} DaysRunCalls(days: seq<DayPlan>, items: Option<seq<NecessaryItem>>, resolve: string -> Try<string>)
    requires DaysRun(days, items, resolve).out.Ok?
    requires ItemAnswersNonEmpty(items, resolve)
    ensures DaysRun(days, items, resolve).calls == Planned(days, items)
    decreases |days|
  {
    if days == [] {
      return;
    }
    if |days| == 1 {
      FirstDayCalls(days, items, resolve);
      PlannedOne(days, items);
    } else {
      StepCalls(days, items, resolve);
      DaysRunCalls(days[..|days| - 1], items, resolve);
      PlannedSnoc(days, items);
    }
  }

  /** The lookups of a completed one-day loop: the day's own, then the items'. */
  lemma FirstDayCalls(days: seq<DayPlan>, items: Option<seq<NecessaryItem>>, resolve: string -> Try<string>)
    requires |days| == 1 && DaysRun(days, items, resolve).out.Ok?
    ensures DaysRun(days, items, resolve).calls == DayQueries(days[0]) + Wanted(OrEmpty(items), ItemSlot())
  {
    DaysRunStep(days, items, resolve);
    assert DaysRun(days[..0], items, resolve) == Run([], Ok(([], items)));
    DayRunQueries(days[0], items, resolve);
  }

  lemma PlannedOne(days: seq<DayPlan>, items: Option<seq<NecessaryItem>>)
    requires |days| == 1
    ensures Planned(days, items) == DayQueries(days[0]) + Wanted(OrEmpty(items), ItemSlot())
  {
    assert days[..0] == [];
  }

  /** The lookups of a completed day loop: those of all days but the last, then the last day's own, then the items'. */
  lemma StepCalls(days: seq<DayPlan>, items: Option<seq<NecessaryItem>>, resolve: string -> Try<string>)
    requires |days| >= 2 && DaysRun(days, items, resolve).out.Ok?
    requires ItemAnswersNonEmpty(items, resolve)
    ensures DaysRun(days[..|days| - 1], items, resolve).out.Ok?
    ensures DaysRun(days, items, resolve).calls
         == DaysRun(days[..|days| - 1], items, resolve).calls + DayQueries(days[|days| - 1]) + Wanted(OrEmpty(items), ItemSlot())
  {
    var init, d := days[..|days| - 1], days[|days| - 1];
    var prev := DaysRun(init, items, resolve);
    var w := Wanted(OrEmpty(items), ItemSlot());
    DaysRunStep(days, items, resolve);
    LastDayCalls(days, items, resolve);
    ConcatAssoc(prev.calls, DayQueries(d), w);
  }

  lemma ConcatAssoc<T>(a: seq<T>, b: seq<T>, c: seq<T>)
    ensures a + (b + c) == a + b + c
  {
  }

  /** The last day of a completed loop of two or more days asks for its own queries, then the original items' queries. */
  lemma LastDayCalls(days: seq<DayPlan>, items: Option<seq<NecessaryItem>>, resolve: string -> Try<string>)
    requires |days| >= 2 && DaysRun(days, items, resolve).out.Ok?
    requires ItemAnswersNonEmpty(items, resolve)
    ensures DaysRun(days[..|days| - 1], items, resolve).out.Ok?
    ensures var its := DaysRun(days[..|days| - 1], items, resolve).out.value.1;
      DayRun(days[|days| - 1], its, resolve).calls == DayQueries(days[|days| - 1]) + Wanted(OrEmpty(items), ItemSlot())
  {
    var init := days[..|days| - 1];
    DaysRunStep(days, items, resolve);
    ItemsStable(init, items, resolve);
    DayCalls(days[|days| - 1], DaysRun(init, items, resolve).out.value.1, items, resolve);
  }

  /** A completed day asks for its own queries, then for those of an items list that asks what the original asks. */
  lemma DayCalls(d: DayPlan, its: Option<seq<NecessaryItem>>, items: Option<seq<NecessaryItem>>, resolve: string -> Try<string>)
    requires DayRun(d, its, resolve).out.Ok?
    requires its.Some? && items.Some? && Wanted(its.value, ItemSlot()) == Wanted(items.value, ItemSlot())
    ensures DayRun(d, its, resolve).calls == DayQueries(d) + Wanted(OrEmpty(items), ItemSlot())
  {
    DayRunQueries(d, its, resolve);
  }

  /**
   * After a completed day, when no answer for an item is empty, the items
   * list the next day finds asks for the same queries as the original.
   */
  lemma ItemsStable(days: seq<DayPlan>, items: Option<seq<NecessaryItem>>, resolve: string -> Try<string>)
    requires days != [] && DaysRun(days, items, resolve).out.Ok?
    requires ItemAnswersNonEmpty(items, resolve)
    ensures var its := DaysRun(days, items, resolve).out.value.1;
      && items.Some? && its.Some?
      && Wanted(its.value, ItemSlot()) == Wanted(items.value, ItemSlot())
  {
    var url := UrlOf(resolve);
    DaysRunOk(days, items, resolve);
    DaysRunValue(days, items, resolve);
    PlannedHasDay(days, items, |days| - 1);
    assert forall q :: q in Wanted(items.value, ItemSlot()) ==> url(q) != "";
    WantedAfterRewrite(items.value, url);
  }

  /**
   * The enrichment of a validated document. It completes exactly when nothing
   * it dereferences is missing and no needed lookup throws; the document it
   * then returns is the reference rewrite; and when the lookup never answers
   * an item's name with "", its lookups are exactly the planned ones.
   */
  lemma EnrichMeaning(doc: Document, resolve: string -> Try<string>)
    requires doc.trip.Some?
    ensures var r := EnrichRun(doc, resolve); var days := doc.trip.value.days;
      r.out.Ok? <==> Complete(days, doc.necessaryItems) && forall q :: q in Planned(days, doc.necessaryItems) ==> resolve(q).Ok?
    ensures var r := EnrichRun(doc, resolve);
      r.out.Ok? ==> r.out.value == Expected(doc, UrlOf(resolve))
    ensures var r := EnrichRun(doc, resolve);
      r.out.Ok? && (forall q :: q in Wanted(OrEmpty(doc.necessaryItems), ItemSlot()) && resolve(q).Ok? ==> resolve(q).value != "") ==>
        r.calls == Planned(doc.trip.value.days, doc.necessaryItems)
  {
    DaysRunOk(doc.trip.value.days, doc.necessaryItems, resolve);
    DaysRunValue(doc.trip.value.days, doc.necessaryItems, resolve);
    if EnrichRun(doc, resolve).out.Ok?
       && forall q :: q in Wanted(OrEmpty(doc.necessaryItems), ItemSlot()) && resolve(q).Ok? ==> resolve(q).value != ""
    {
      DaysRunCalls(doc.trip.value.days, doc.necessaryItems, resolve);
    }
  }

  /** Every entry with a truthy image has its query among the wanted ones. */
  lemma {:induction false} WantedHas<T>(xs: seq<T>, s: Slot<T>, k: nat)
    requires k < |xs| && s.image(xs[k]) != ""
    ensures s.query(xs[k]) in Wanted(xs, s)
    decreases |xs|
  {
    if k < |xs| - 1 {
      var init := xs[..|xs| - 1];
      assert init[k] == xs[k];
      WantedHas(init, s, k);
    }
  }

  lemma {:induction false} PlannedGrows(days: seq<DayPlan>, n: nat, items: Option<seq<NecessaryItem>>, q: string)
    requires n <= |days| && q in Planned(days[..n], items)
    ensures q in Planned(days, items)
    decreases |days|
  {
    if n < |days| {
      var init := days[..|days| - 1];
      assert init[..n] == days[..n];
      PlannedGrows(init, n, items, q);
      PlannedPrefix(days, items, q);
    } else {
      assert days[..n] == days;
    }
  }

  /** Day i of a completed walk: it was complete, its lookups and the items' lookups all answered, and it is the reference rewrite. */
  lemma EnrichedDay(doc: Document, resolve: string -> Try<string>, i: nat)
    requires doc.trip.Some? && EnrichRun(doc, resolve).out.Ok? && i < |doc.trip.value.days|
    ensures var after := EnrichRun(doc, resolve).out.value; var day := doc.trip.value.days[i];
      && after.trip.Some? && |after.trip.value.days| == |doc.trip.value.days|
      && DayComplete(day)
      && after.trip.value.days[i] == RewriteDay(day, UrlOf(resolve))
      && (forall q :: q in DayQueries(day) ==> resolve(q).Ok?)
      && doc.necessaryItems.Some?
      && (forall q :: q in Wanted(doc.necessaryItems.value, ItemSlot()) ==> resolve(q).Ok?)
      && after.necessaryItems == Some(RewriteItems(doc.necessaryItems.value, UrlOf(resolve)))
  {
    var days := doc.trip.value.days;
    var items := doc.necessaryItems;
    DaysRunOk(days, items, resolve);
    DaysRunValue(days, items, resolve);
    PlannedHasDay(days, items, i);
  }

  /** Day i's own queries and the items' queries are all planned. */
  lemma PlannedHasDay(days: seq<DayPlan>, items: Option<seq<NecessaryItem>>, i: nat)
    requires i < |days|
    ensures forall q :: q in DayQueries(days[i]) + Wanted(OrEmpty(items), ItemSlot()) ==> q in Planned(days, items)
  {
    assert days[..i + 1][..i] == days[..i];
    PlannedSnoc(days[..i + 1], items);
    forall q | q in DayQueries(days[i]) + Wanted(OrEmpty(items), ItemSlot()) ensures q in Planned(days, items) {
      PlannedGrows(days, i + 1, items, q);
    }
  }

  lemma AccommodationImage(d: DayPlan, resolve: string -> Try<string>)
    requires DayComplete(d) && forall q :: q in DayQueries(d) ==> resolve(q).Ok?
    ensures var acc := d.accommodation.value; var after := RewriteDay(d, UrlOf(resolve));
      && after.accommodation.Some?
      && (acc.image == "" ==> after.accommodation.value == acc)
      && (acc.image != "" ==>
            resolve(acc.name + ", " + d.location) == Ok(after.accommodation.value.image) &&
            after.accommodation.value == acc.(image := after.accommodation.value.image))
  {
    var acc := d.accommodation.value;
    if acc.image != "" {
      assert Wanted([acc], AccommodationSlot(d.location)) == Wanted([acc][..0], AccommodationSlot(d.location))
        + [acc.name + ", " + d.location];
      assert acc.name + ", " + d.location in DayQueries(d);
    }
  }

  lemma ActivityImages(d: DayPlan, resolve: string -> Try<string>)
    requires DayComplete(d) && forall q :: q in DayQueries(d) ==> resolve(q).Ok?
    ensures var acts := d.activities.value; var after := RewriteDay(d, UrlOf(resolve));
      && after.activities.Some? && |after.activities.value| == |acts|
      && forall k :: 0 <= k < |acts| ==>
           && (acts[k].image == "" ==> after.activities.value[k] == acts[k])
           && (acts[k].image != "" ==>
                 resolve(acts[k].activity) == Ok(after.activities.value[k].image) &&
                 after.activities.value[k] == acts[k].(image := after.activities.value[k].image))
  {
    var acts := d.activities.value;
    forall k | 0 <= k < |acts| && acts[k].image != "" ensures resolve(acts[k].activity).Ok? {
      WantedHas(acts, ActivitySlot(), k);
    }
  }

  lemma DiningImages(d: DayPlan, resolve: string -> Try<string>)
    requires DayComplete(d) && forall q :: q in DayQueries(d) ==> resolve(q).Ok?
    ensures var dining := d.diningOptions.value; var after := RewriteDay(d, UrlOf(resolve));
      && after.diningOptions.Some? && |after.diningOptions.value| == |dining|
      && forall k :: 0 <= k < |dining| ==>
           && (dining[k].image == "" ==> after.diningOptions.value[k] == dining[k])
           && (dining[k].image != "" ==>
                 && resolve(dining[k].name + ", " + d.location) == Ok(after.diningOptions.value[k].image)
                 && after.diningOptions.value[k] == dining[k].(image := after.diningOptions.value[k].image))
  {
    var dining := d.diningOptions.value;
    forall k | 0 <= k < |dining| && dining[k].image != "" ensures resolve(dining[k].name + ", " + d.location).Ok? {
      WantedHas(dining, DiningSlot(d.location), k);
    }
  }

  lemma ItemImages(items: seq<NecessaryItem>, resolve: string -> Try<string>)
    requires forall q :: q in Wanted(items, ItemSlot()) ==> resolve(q).Ok?
    ensures var after := RewriteItems(items, UrlOf(resolve));
      && |after| == |items|
      && forall k :: 0 <= k < |items| ==>
           && (items[k].image == "" ==> after[k] == items[k])
           && (items[k].image != "" ==> resolve(items[k].name) == Ok(after[k].image) && after[k] == items[k].(image := after[k].image))
  {
    forall k | 0 <= k < |items| && items[k].image != "" ensures resolve(items[k].name).Ok? {
      WantedHas(items, ItemSlot(), k);
    }
  }

  /**
   * The images of day i after a completed walk, entry by entry: an
   * accommodation or dining option with a truthy image holds the lookup's
   * answer for "<name>, <day location>", an activity the answer for its
   * activity text alone, a necessary item the answer for its name; entries
   * with a falsy image, and the day's other fields, are untouched.
   */
  lemma EnrichedImages(doc: Document, resolve: string -> Try<string>, i: nat)
    requires doc.trip.Some? && EnrichRun(doc, resolve).out.Ok? && i < |doc.trip.value.days|
    ensures var after := EnrichRun(doc, resolve).out.value;
      && after.trip.Some? && |after.trip.value.days| == |doc.trip.value.days|
      && doc.necessaryItems.Some? && after.necessaryItems.Some?
      && DayComplete(doc.trip.value.days[i]) && DayComplete(after.trip.value.days[i])
    ensures var day := doc.trip.value.days[i]; var after := EnrichRun(doc, resolve).out.value.trip.value.days[i];
      && after.date == day.date && after.location == day.location && after.distanceToNextDay == day.distanceToNextDay
      && var acc := day.accommodation.value; var acc' := after.accommodation.value;
      && (acc.image == "" ==> acc' == acc)
      && (acc.image != "" ==> resolve(acc.name + ", " + day.location) == Ok(acc'.image) && acc' == acc.(image := acc'.image))
    ensures var day := doc.trip.value.days[i]; var after := EnrichRun(doc, resolve).out.value.trip.value.days[i];
      var acts := day.activities.value; var acts' := after.activities.value;
      && |acts'| == |acts|
      && forall k :: 0 <= k < |acts| ==>
           && (acts[k].image == "" ==> acts'[k] == acts[k])
           && (acts[k].image != "" ==> resolve(acts[k].activity) == Ok(acts'[k].image) && acts'[k] == acts[k].(image := acts'[k].image))
    ensures var day := doc.trip.value.days[i]; var after := EnrichRun(doc, resolve).out.value.trip.value.days[i];
      var dining := day.diningOptions.value; var dining' := after.diningOptions.value;
      && |dining'| == |dining|
      && forall k :: 0 <= k < |dining| ==>
           && (dining[k].image == "" ==> dining'[k] == dining[k])
           && (dining[k].image != "" ==>
                 resolve(dining[k].name + ", " + day.location) == Ok(dining'[k].image) && dining'[k] == dining[k].(image := dining'[k].image))
    ensures var items := doc.necessaryItems.value; var items' := EnrichRun(doc, resolve).out.value.necessaryItems.value;
      && |items'| == |items|
      && forall k :: 0 <= k < |items| ==>
           && (items[k].image == "" ==> items'[k] == items[k])
           && (items[k].image != "" ==> resolve(items[k].name) == Ok(items'[k].image) && items'[k] == items[k].(image := items'[k].image))
  {
    var day := doc.trip.value.days[i];
    EnrichedDay(doc, resolve, i);
    AccommodationImage(day, resolve);
    ActivityImages(day, resolve);
    DiningImages(day, resolve);
    ItemImages(doc.necessaryItems.value, resolve);
  }

  /**
   * The number of lookups of a completed walk: each day's own entries, plus
   * one lookup per necessary item with a truthy image for every day.
   */
  lemma {:induction false} PlannedCount(days: seq<DayPlan>, items: Option<seq<NecessaryItem>>)
    ensures |Planned(days, items)| == DayNeeds(days) + |days| * |Wanted(OrEmpty(items), ItemSlot())|
    decreases |days|
  {
    if days != [] {
      var k := |Wanted(OrEmpty(items), ItemSlot())|;
      PlannedCount(days[..|days| - 1], items);
      assert (|days| - 1) * k + k == |days| * k;
    }
  }

  lemma EraseRewrittenDay(d: DayPlan, url: string -> string)
    ensures EraseDay(RewriteDay(d, url)) == EraseDay(d)
  {
    var r := RewriteDay(d, url);
    if d.activities.Some? {
      var xs, ys := d.activities.value, r.activities.value;
      assert EraseActivities(ys) == EraseActivities(xs);
    }
    if d.diningOptions.Some? {
      var xs, ys := d.diningOptions.value, r.diningOptions.value;
      assert EraseDining(ys) == EraseDining(xs);
    }
  }

  /** The reference rewrite changes image fields only. */
  lemma EraseExpected(doc: Document, url: string -> string)
    ensures EraseImages(Expected(doc, url)) == EraseImages(doc)
  {
    if doc.trip.Some? {
      var trip := doc.trip.value;
      var days' := RewriteDays(trip.days, url);
      forall k | 0 <= k < |trip.days| ensures EraseDay(days'[k]) == EraseDay(trip.days[k]) {
        EraseRewrittenDay(trip.days[k], url);
      }
      assert EraseDays(days') == EraseDays(trip.days);
      if doc.necessaryItems.Some? && |trip.days| > 0 {
        var its := doc.necessaryItems.value;
        assert EraseItems(RewriteItems(its, url)) == EraseItems(its);
      }
      assert EraseImages(Expected(doc, url)).necessaryItems == EraseImages(doc).necessaryItems;
    }
  }

  /** Enrichment writes image fields only: blank every image and the document is the one that came in. */
  lemma EnrichOnlyWritesImages(doc: Document, resolve: string -> Try<string>)
    requires EnrichRun(doc, resolve).out.Ok?
    ensures EraseImages(EnrichRun(doc, resolve).out.value) == EraseImages(doc)
  {
    if doc.trip.Some? {
      EnrichMeaning(doc, resolve);
      EraseExpected(doc, UrlOf(resolve));
    }
  }
}
