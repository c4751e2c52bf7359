/**
 * The data-shaping rules `displayResults` applies to a decoded webhook
 * response before it touches the page: which value is the payload, what
 * the summary shows, which source cards and insight cards are built, and
 * which items the implications list gets. Each region's rule is a stage
 * that either completes or stops at the TypeError the browser would throw,
 * keeping what it built before that point.
 */
module Rendering {
  import opened Wrappers
  import opened JsValues
  import opened JsText

  const DefaultSummary: string := "Research complete. See findings below."
  const DefaultImplication: string := "Review the research findings above for strategic insights."

  /** What a stage of `displayResults` leaves in its region, and the
      TypeError that stopped it, if any. */
  datatype Stage<T> = Stage(items: seq<T>, fault: Option<Fault>)

  /** The first index of `xs` whose element satisfies `p`, or `|xs|`. */
  function FirstWhere<T>(xs: seq<T>, p: T -> bool): (k: nat)
    ensures k <= |xs|
    ensures forall i :: 0 <= i < k ==> !p(xs[i])
    ensures k < |xs| ==> p(xs[k])
  {
    if xs == [] || p(xs[0]) then 0 else 1 + FirstWhere(xs[1..], p)
  }

  // ---------------------------------------------------------------- escaping

  /** The result of `escapeHtml(v)`: the empty string for a falsy value, and
      otherwise the browser's serialisation of the value's text, which is
      kept abstract. */
  datatype Html = Blank | Escaped(raw: Json)

  function EscapeHtml(v: Json): (h: Html)
    ensures h == Blank <==> !Truthy(v)
    ensures h.Escaped? ==> h.raw == v
  {
    if Truthy(v) then Escaped(v) else Blank
  }

  // ---------------------------------------------------------------- envelope

  /** The payload `displayResults` renders: a truthy string `output` is
      parsed, falling back to the whole body when parsing fails; any other
      truthy `output` is used as it is; otherwise the body itself. Reading
      `output` off a null body is a TypeError. */
  function Normalize(data: Json, parse: string -> Option<Json>): (r: Result<Json, Fault>)
    ensures r.Err? <==> Nullish(data)
    ensures r.Err? ==> r.error == ReadOfNullish("output")
    ensures r.Ok? && !Truthy(Prop(data, "output")) ==> r.value == data
    ensures r.Ok? && Truthy(Prop(data, "output")) && !Prop(data, "output").Str? ==> r.value == Prop(data, "output")
    ensures r.Ok? && Prop(data, "output").Str? && parse(Prop(data, "output").s).Some? && Prop(data, "output").s != ""
            ==> r.value == parse(Prop(data, "output").s).value
    ensures r.Ok? && Prop(data, "output").Str? && parse(Prop(data, "output").s).None? ==> r.value == data
  {
    if Nullish(data) then Err(ReadOfNullish("output"))
    else
      var output := Prop(data, "output");
      if Truthy(output) then
        if output.Str? then
          match parse(output.s)
          case Some(parsed) => Ok(parsed)
          case None => Ok(data)
        else Ok(output)
      else Ok(data)
  }

  /** The envelope a workflow wraps its answer in: an object whose `output`
      holds the serialised payload. */
  function Envelope(fields: map<string, Json>, text: string): Json {
    Obj(fields["output" := Str(text)])
  }

  /** Wrapping a payload as serialised text and normalising gives the payload
      back, whatever else the envelope carries, as long as the text is one
      the parser accepts. */
  lemma EnvelopeRoundTrip(fields: map<string, Json>, payload: Json, text: string, parse: string -> Option<Json>)
    requires text != "" && parse(text) == Some(payload)
    ensures Normalize(Envelope(fields, text), parse) == Ok(payload)
  {
  }

  /** A body without an `output` field, or with a falsy one, is its own payload. */
  lemma BareBodyIsPayload(data: Json, parse: string -> Option<Json>)
    requires !Nullish(data) && !Truthy(Prop(data, "output"))
    ensures Normalize(data, parse) == Ok(data)
  {
  }

  // ---------------------------------------------------------------- summary

  /** The value written into the summary: `search_summary` when it is
      truthy, the fixed sentence otherwise; either way never falsy. */
  function SummaryOf(results: Json): (summary: Json)
    requires !Nullish(results)
    ensures Truthy(summary)
    ensures Truthy(Prop(results, "search_summary")) ==> summary == Prop(results, "search_summary")
    ensures !Truthy(Prop(results, "search_summary")) ==> summary == Str(DefaultSummary)
  {
    var given := Prop(results, "search_summary");
    if Truthy(given) then given else Str(DefaultSummary)
  }

  // ---------------------------------------------------------------- categories

  const CategoryLabels: map<string, string> := map[
    "trends" := "Trends",
    "contrarian" := "Contrarian",
    "case_study" := "Case Study",
    "misconception" := "Myth Buster",
    "metrics" := "Data Point"
  ]

  /** `formatCategory`: a known category gets its display label, anything
      else is shown as it is. */
  function FormatCategory(category: Json): (caption: Json)
    ensures category.Str? && category.s in CategoryLabels ==> caption == Str(CategoryLabels[category.s])
    ensures !(category.Str? && category.s in CategoryLabels) ==> caption == category
    ensures Truthy(category) ==> Truthy(caption)
  {
    if category.Str? && category.s in CategoryLabels && Truthy(Str(CategoryLabels[category.s])) then
      Str(CategoryLabels[category.s])
    else category
  }

  /** Different known categories never share a label. */
  lemma CategoryLabelsDistinct(a: string, b: string)
    requires a in CategoryLabels && b in CategoryLabels && a != b
    ensures FormatCategory(Str(a)) != FormatCategory(Str(b))
  {
  }

  // ---------------------------------------------------------------- source cards

  /** The fields `createSourceCard` puts on a card (markup left aside). */
  datatype SourceCard = SourceCard(category: Json, caption: Json, title: Html, snippet: Html, link: Option<Html>)

  /** `createSourceCard(source)`: the category defaults to `trends`, the
      title to `Source`, the snippet to nothing, and the link appears only
      for a truthy `url`. Reading `category` off a null entry throws. */
  function CreateSourceCard(source: Json): (r: Result<SourceCard, Fault>)
    ensures r.Err? <==> Nullish(source)
    ensures r.Err? ==> r.error == ReadOfNullish("category")
    ensures r.Ok? ==>
      var card := r.value;
      && Truthy(card.category) && Truthy(card.caption)
      && card.caption == FormatCategory(card.category)
      && (Truthy(Prop(source, "category")) ==> card.category == Prop(source, "category"))
      && (!Truthy(Prop(source, "category")) ==> card.category == Str("trends") && card.caption == Str("Trends"))
      && card.title.Escaped?
      && card.title.raw == (if Truthy(Prop(source, "title")) then Prop(source, "title") else Str("Source"))
      && (card.snippet == Blank <==> !Truthy(Prop(source, "snippet")))
      && (card.snippet.Escaped? ==> card.snippet.raw == Prop(source, "snippet"))
      && (card.link.Some? <==> Truthy(Prop(source, "url")))
      && (card.link.Some? ==> card.link.value == Escaped(Prop(source, "url")))
  {
    if Nullish(source) then Err(ReadOfNullish("category"))
    else
      var given := Prop(source, "category");
      var category := if Truthy(given) then given else Str("trends");
      var title := Prop(source, "title");
      var snippet := Prop(source, "snippet");
      var url := Prop(source, "url");
      Ok(SourceCard(
        category,
        FormatCategory(category),
        EscapeHtml(if Truthy(title) then title else Str("Source")),
        EscapeHtml(if Truthy(snippet) then snippet else Str("")),
        if Truthy(url) then Some(EscapeHtml(url)) else None))
  }

  /** The sources grid: when `results.results` is an array, one card per
      entry in order, stopping at the first null entry with a TypeError;
      otherwise empty. */
  function SourcesStage(results: Json): (st: Stage<SourceCard>)
    requires !Nullish(results)
    ensures !Prop(results, "results").Arr? ==> st == Stage([], None)
    ensures Prop(results, "results").Arr? ==>
      var entries := Prop(results, "results").items;
      && |st.items| <= |entries|
      && (forall i :: 0 <= i < |st.items| ==> CreateSourceCard(entries[i]) == Ok(st.items[i]))
      && (st.fault.None? <==> |st.items| == |entries|)
      && (st.fault.None? <==> forall i :: 0 <= i < |entries| ==> !Nullish(entries[i]))
      && (st.fault.Some? ==> Nullish(entries[|st.items|]) && st.fault.value == ReadOfNullish("category"))
  {
    var list := Prop(results, "results");
    if list.Arr? then
      var entries := list.items;
      var k := FirstWhere(entries, Nullish);
      Stage(seq(k, i requires 0 <= i < k => CreateSourceCard(entries[i]).value),
            if k < |entries| then Some(ReadOfNullish("category")) else None)
    else Stage([], None)
  }

  // ---------------------------------------------------------------- insight cards

  /** One of the five lists of `research_insights`, with the card title and
      category it is shown under. */
  datatype Slot = Slot(key: string, title: string, category: string)

  /** The five lists, in the order their cards are emitted. */
  const Slots: seq<Slot> := [
    Slot("trends_and_developments", "Trends & Developments", "trends"),
    Slot("contrarian_viewpoints", "Contrarian Viewpoints", "contrarian"),
    Slot("success_stories", "Success Stories", "case_study"),
    Slot("misconceptions", "Misconceptions", "misconception"),
    Slot("key_metrics", "Key Metrics", "metrics")
  ]

  /** The position in `Slots` of the slot with this category, or 5. */
  function SlotIndex(category: string): (k: nat)
    ensures k <= |Slots|
    ensures k < |Slots| ==> Slots[k].category == category
    ensures k == |Slots| ==> forall j :: 0 <= j < |Slots| ==> Slots[j].category != category
  {
    if category == "trends" then 0
    else if category == "contrarian" then 1
    else if category == "case_study" then 2
    else if category == "misconception" then 3
    else if category == "metrics" then 4
    else 5
  }

  /** The fields `createInsightCard` puts on a card: each list item escaped. */
  datatype InsightCard = InsightCard(title: string, category: string, items: seq<Html>)

  function CreateInsightCard(title: string, category: string, items: seq<Json>): InsightCard
  {
    InsightCard(title, category, seq(|items|, i requires 0 <= i < |items| => EscapeHtml(items[i])))
  }

  /** What one `if (insights.<key>?.length)` does. */
  datatype SlotOutcome = Skipped | Emitted(card: InsightCard) | Failed(fault: Fault)

  /** A card is emitted exactly for a non-empty array; a non-array whose
      `length` is truthy (a non-empty string, an object with a truthy
      `length`) reaches `items.map` and throws. */
  function SlotOutcomeOf(insights: Json, slot: Slot): (o: SlotOutcome)
    requires !Nullish(insights)
    ensures o.Emitted? <==> Prop(insights, slot.key).Arr? && Prop(insights, slot.key).items != []
    ensures o.Emitted? ==> o.card == CreateInsightCard(slot.title, slot.category, Prop(insights, slot.key).items)
    ensures o.Failed? <==> !Prop(insights, slot.key).Arr? && Truthy(OptionalLength(Prop(insights, slot.key)))
    ensures o.Failed? ==> o.fault == NotAFunction("map")
  {
    var list := Prop(insights, slot.key);
    if Truthy(OptionalLength(list)) then
      if list.Arr? then Emitted(CreateInsightCard(slot.title, slot.category, list.items))
      else Failed(NotAFunction("map"))
    else
      assert list.Arr? ==> list.items == [] by {
        if list.Arr? { LengthTruthyIffNonEmpty(list); }
      }
      Skipped
  }

  function CategoriesOf(cards: seq<InsightCard>): seq<string> {
    seq(|cards|, i requires 0 <= i < |cards| => cards[i].category)
  }

  /** The cards the first `n` slots leave in the grid, and the TypeError
      that stopped them, if any: each slot runs only while no earlier one
      has thrown. */
  function InsightsUpTo(insights: Json, n: nat): Stage<InsightCard>
    requires !Nullish(insights) && n <= |Slots|
  {
    if n == 0 then Stage([], None)
    else
      var prev := InsightsUpTo(insights, n - 1);
      if prev.fault.Some? then prev
      else
        match SlotOutcomeOf(insights, Slots[n - 1])
        case Skipped => prev
        case Emitted(card) => Stage(prev.items + [card], None)
        case Failed(f) => Stage(prev.items, Some(f))
  }

  /** Each card comes from a slot that emits it, in strictly increasing slot
      order, so the first `n` slots give at most `n` cards. */
  lemma {:induction false} InsightsFromSlots(insights: Json, n: nat)
    requires !Nullish(insights) && n <= |Slots|
    ensures var st := InsightsUpTo(insights, n);
      && |st.items| <= n
      && (forall i :: 0 <= i < |st.items| ==>
            var k := SlotIndex(st.items[i].category);
            k < n && SlotOutcomeOf(insights, Slots[k]) == Emitted(st.items[i]))
      && (forall i, j :: 0 <= i < j < |st.items| ==>
            SlotIndex(st.items[i].category) < SlotIndex(st.items[j].category))
  {
    if n > 0 {
      InsightsFromSlots(insights, n - 1);
      var prev := InsightsUpTo(insights, n - 1);
      var o := SlotOutcomeOf(insights, Slots[n - 1]);
      if prev.fault.None? && o.Emitted? {
        assert InsightsUpTo(insights, n).items == prev.items + [o.card];
        AppendEmitted(insights, prev.items, o.card, n);
      }
    }
  }

  /** The step of `InsightsFromSlots` where slot `n - 1` emits its card. */
  lemma AppendEmitted(insights: Json, items: seq<InsightCard>, card: InsightCard, n: nat)
    requires !Nullish(insights) && 0 < n <= |Slots|
    requires SlotOutcomeOf(insights, Slots[n - 1]) == Emitted(card)
    requires |items| <= n - 1
    requires forall i :: 0 <= i < |items| ==>
      var k := SlotIndex(items[i].category);
      k < n - 1 && SlotOutcomeOf(insights, Slots[k]) == Emitted(items[i])
    requires forall i, j :: 0 <= i < j < |items| ==>
      SlotIndex(items[i].category) < SlotIndex(items[j].category)
    ensures var all := items + [card];
      && |all| <= n
      && (forall i :: 0 <= i < |all| ==>
            var k := SlotIndex(all[i].category);
            k < n && SlotOutcomeOf(insights, Slots[k]) == Emitted(all[i]))
      && (forall i, j :: 0 <= i < j < |all| ==>
            SlotIndex(all[i].category) < SlotIndex(all[j].category))
  {
    assert card.category == Slots[n - 1].category;
    assert SlotIndex(card.category) == n - 1;
  }

  /** The slots stop exactly when one of them throws, and what they throw
      is the missing `map`. */
  lemma {:induction false} InsightsFaultIff(insights: Json, n: nat)
    requires !Nullish(insights) && n <= |Slots|
    ensures var st := InsightsUpTo(insights, n);
      && (st.fault.None? <==> forall k :: 0 <= k < n ==> !SlotOutcomeOf(insights, Slots[k]).Failed?)
      && (st.fault.Some? ==> st.fault.value == NotAFunction("map"))
  {
    if n > 0 {
      InsightsFaultIff(insights, n - 1);
    }
  }

  /** When no slot threw, every slot that emits a card has its card in the
      grid. */
  lemma {:induction false} InsightsComplete(insights: Json, n: nat)
    requires !Nullish(insights) && n <= |Slots|
    ensures var st := InsightsUpTo(insights, n);
      st.fault.None? ==> forall k :: 0 <= k < n && SlotOutcomeOf(insights, Slots[k]).Emitted? ==>
        Slots[k].category in CategoriesOf(st.items)
  {
    if n > 0 {
      InsightsComplete(insights, n - 1);
      var prev := InsightsUpTo(insights, n - 1);
      var o := SlotOutcomeOf(insights, Slots[n - 1]);
      if prev.fault.None? && o.Emitted? {
        assert CategoriesOf(prev.items + [o.card]) == CategoriesOf(prev.items) + [o.card.category];
      }
    }
  }

  /** Once a slot has thrown, the later slots are never reached. */
  lemma {:induction false} InsightsStayFailed(insights: Json, m: nat, n: nat)
    requires !Nullish(insights) && m <= n <= |Slots|
    requires InsightsUpTo(insights, m).fault.Some?
    ensures InsightsUpTo(insights, n) == InsightsUpTo(insights, m)
    decreases n
  {
    if n > m {
      InsightsStayFailed(insights, m, n - 1);
    }
  }

  /** The insights grid: nothing unless `research_insights` is truthy, then
      the cards of all five slots. */
  function InsightsStage(results: Json): (st: Stage<InsightCard>)
    requires !Nullish(results)
    ensures |st.items| <= |Slots|
    ensures !Truthy(Prop(results, "research_insights")) ==> st == Stage([], None)
  {
    var insights := Prop(results, "research_insights");
    if Truthy(insights) then
      InsightsFromSlots(insights, |Slots|);
      InsightsUpTo(insights, |Slots|)
    else Stage([], None)
  }

  // ---------------------------------------------------------------- implications

  /** The TypeError `item.replace(...)` throws on an item that is no string. */
  function ReplaceFault(item: Json): Fault {
    if Nullish(item) then ReadOfNullish("replace") else NotAFunction("replace")
  }

  /** The `forEach` over the implications, item by item: each string item
      loses its bullet, and the first item that is not a string throws and
      ends the list. */
  function StripItems(xs: seq<Json>): Stage<string>
    decreases |xs|
  {
    if xs == [] then Stage([], None)
    else
      var prev := StripItems(xs[..|xs| - 1]);
      var x := xs[|xs| - 1];
      if prev.fault.Some? then prev
      else if x.Str? then Stage(prev.items + [StripMarker(x.s)], None)
      else Stage(prev.items, Some(ReplaceFault(x)))
  }

  /** The items are the leading string items without their bullets, in
      order. */
  lemma {:induction false} StripItemsPrefix(xs: seq<Json>)
    ensures var st := StripItems(xs);
      && |st.items| <= |xs|
      && forall i :: 0 <= i < |st.items| ==> xs[i].Str? && st.items[i] == StripMarker(xs[i].s)
    decreases |xs|
  {
    if xs != [] {
      var init := xs[..|xs| - 1];
      StripItemsPrefix(init);
      var prev := StripItems(init);
      var x := xs[|xs| - 1];
      if prev.fault.None? && x.Str? {
        StripItemsFault(init);
        var st := StripItems(xs);
        assert st.items == prev.items + [StripMarker(x.s)];
        forall i | 0 <= i < |st.items|
          ensures xs[i].Str? && st.items[i] == StripMarker(xs[i].s)
        {
          if i < |prev.items| {
            assert st.items[i] == prev.items[i] && init[i] == xs[i];
          } else {
            assert i == |init| && xs[i] == x;
          }
        }
      } else {
        assert forall i :: 0 <= i < |init| ==> init[i] == xs[i];
      }
    }
  }

  /** The list is complete exactly when every item is a string; otherwise
      it stops at the first item that is not, with that item's TypeError. */
  lemma {:induction false} StripItemsFault(xs: seq<Json>)
    ensures var st := StripItems(xs);
      && |st.items| <= |xs|
      && (st.fault.None? <==> |st.items| == |xs|)
      && (st.fault.None? <==> forall i :: 0 <= i < |xs| ==> xs[i].Str?)
      && (st.fault.Some? ==> !xs[|st.items|].Str? && st.fault.value == ReplaceFault(xs[|st.items|]))
    decreases |xs|
  {
    if xs != [] {
      var init := xs[..|xs| - 1];
      var x := xs[|xs| - 1];
      StripItemsFault(init);
      assert xs == init + [x];
      StripItemsFaultStep(init, x, StripItems(init), StripItems(xs));
    }
  }

  /** The step of `StripItemsFault` that adds the item `x` after `init`. */
  lemma StripItemsFaultStep(init: seq<Json>, x: Json, prev: Stage<string>, st: Stage<string>)
    requires |prev.items| <= |init|
    requires prev.fault.None? <==> |prev.items| == |init|
    requires prev.fault.None? <==> forall i :: 0 <= i < |init| ==> init[i].Str?
    requires prev.fault.Some? ==> !init[|prev.items|].Str? && prev.fault.value == ReplaceFault(init[|prev.items|])
    requires st == if prev.fault.Some? then prev
                   else if x.Str? then Stage(prev.items + [StripMarker(x.s)], None)
                   else Stage(prev.items, Some(ReplaceFault(x)))
    ensures var xs := init + [x];
      && |st.items| <= |xs|
      && (st.fault.None? <==> |st.items| == |xs|)
      && (st.fault.None? <==> forall i :: 0 <= i < |xs| ==> xs[i].Str?)
      && (st.fault.Some? ==> !xs[|st.items|].Str? && st.fault.value == ReplaceFault(xs[|st.items|]))
  {
    var xs := init + [x];
    if prev.fault.Some? {
      var k := |prev.items|;
      assert xs[k] == init[k];
    } else {
      assert forall i :: 0 <= i < |init| ==> xs[i] == init[i];
      assert xs[|init|] == x;
    }
  }

  /** Once an item has thrown, the items after it are never looked at. */
  lemma {:induction false} StripItemsStayFailed(xs: seq<Json>, n: nat)
    requires n <= |xs|
    requires StripItems(xs[..n]).fault.Some?
    ensures StripItems(xs) == StripItems(xs[..n])
    decreases |xs|
  {
    if n < |xs| {
      var init := xs[..|xs| - 1];
      assert init[..n] == xs[..n];
      StripItemsStayFailed(init, n);
    } else {
      assert xs[..n] == xs;
    }
  }

  /** The lines a string of implications is cut into: split at line feeds,
      blank lines dropped. */
  function ImplicationLines(s: string): (lines: seq<Json>)
    ensures forall i :: 0 <= i < |lines| ==> lines[i].Str? && !IsBlank(lines[i].s) && '\n' !in lines[i].s
  {
    var kept := NonBlank(Split(s, '\n'));
    seq(|kept|, i requires 0 <= i < |kept| => Str(kept[i]))
  }

  /** The implications list: a falsy value gives the single default item; a
      string gives one item per non-blank line with its bullet stripped; an
      array gives its items with their bullets stripped, up to the first
      non-string; any other truthy value gives nothing. */
  function ImplicationsStage(value: Json): (st: Stage<string>)
    ensures !Truthy(value) ==> st == Stage([DefaultImplication], None)
    ensures Truthy(value) && value.Str? ==>
      var lines := NonBlank(Split(value.s, '\n'));
      && st.fault.None?
      && |st.items| == |lines|
      && forall i :: 0 <= i < |lines| ==> st.items[i] == StripMarker(lines[i])
    ensures Truthy(value) && value.Arr? ==> st == StripItems(value.items)
    ensures Truthy(value) && !value.Str? && !value.Arr? ==> st == Stage([], None)
  {
    if Truthy(value) then
      if value.Str? then
        StripItemsPrefix(ImplicationLines(value.s));
        StripItemsFault(ImplicationLines(value.s));
        StripItems(ImplicationLines(value.s))
      else if value.Arr? then StripItems(value.items)
      else Stage([], None)
    else Stage([DefaultImplication], None)
  }

  /** Text made of separate lines yields one item per non-blank line, in
      the lines' order. */
  lemma ImplicationsPerLine(lines: seq<string>)
    requires |lines| >= 1
    requires forall i :: 0 <= i < |lines| ==> '\n' !in lines[i]
    requires Join(lines, '\n') != ""
    ensures var st := ImplicationsStage(Str(Join(lines, '\n')));
      && st.fault.None?
      && |st.items| == |NonBlank(lines)|
      && forall i :: 0 <= i < |NonBlank(lines)| ==> st.items[i] == StripMarker(NonBlank(lines)[i])
  {
    SplitJoin(lines, '\n');
  }

  // ---------------------------------------------------------------- the whole page

  /** The four result regions `displayResults` fills. */
  datatype Regions = Regions(summary: Json, sources: seq<SourceCard>, insights: seq<InsightCard>, implications: seq<string>)

  /** What `displayResults` leaves behind: the regions and the TypeError, if
      one interrupted it. */
  datatype Shown = Shown(regions: Regions, fault: Option<Fault>)

  /** `displayResults(data)` on regions that held `before`: the stages run in
      the page's order, and a TypeError leaves the regions already reached
      as the stage left them and the later ones as they were. */
  function Display(before: Regions, data: Json, parse: string -> Option<Json>): Shown
  {
    match Normalize(data, parse)
    case Err(f) => Shown(before, Some(f))
    case Ok(results) =>
      if Nullish(results) then Shown(before, Some(ReadOfNullish("search_summary")))
      else Render(before, results)
  }

  /** The four stages on a payload that can be read from: the summary, then
      the sources, the insights and the implications, each region emptied
      before it is filled, up to the first TypeError. */
  function Render(before: Regions, results: Json): Shown
    requires !Nullish(results)
  {
    var summary := SummaryOf(results);
    var sources := SourcesStage(results);
    if sources.fault.Some? then
      Shown(before.(summary := summary, sources := sources.items), sources.fault)
    else
      var insights := InsightsStage(results);
      if insights.fault.Some? then
        Shown(before.(summary := summary, sources := sources.items, insights := insights.items), insights.fault)
      else
        var implications := ImplicationsStage(Prop(results, "rangeway_implications"));
        Shown(Regions(summary, sources.items, insights.items, implications.items), implications.fault)
  }

  /** A null or undefined body stops at its first read and changes nothing;
      and when nothing throws, the regions hold exactly what the four
      stages give for the normalised payload, whatever they held before. */
  lemma DisplayOutcome(before: Regions, data: Json, parse: string -> Option<Json>)
    ensures Nullish(data) ==> Display(before, data, parse) == Shown(before, Some(ReadOfNullish("output")))
    ensures Display(before, data, parse).fault.None? ==>
      && Normalize(data, parse).Ok?
      && var results := Normalize(data, parse).value;
      && !Nullish(results)
      && Display(before, data, parse).regions == Regions(
           SummaryOf(results),
           SourcesStage(results).items,
           InsightsStage(results).items,
           ImplicationsStage(Prop(results, "rangeway_implications")).items)
  {
  }
}
