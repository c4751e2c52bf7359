/**
 * The search page's state: three panels (loading, results, error) that are
 * shown or hidden, the search button's enabled flag and label, the error
 * panel's text, the four result regions, and the log of requests sent.
 * Each display function of the page sets the panels and the button to a
 * fixed configuration; `displayResults` then fills the regions.
 */
module SearchPage {
  import opened Wrappers
  import opened JsValues
  import opened JsText
  import opened Rendering
  import opened Dispatch

  class Page {
    var loadingActive: bool
    var resultsActive: bool
    var errorActive: bool
    var buttonDisabled: bool
    var buttonLabel: string
    var errorText: string
    var summary: Json
    var sourceCards: seq<SourceCard>
    var insightCards: seq<InsightCard>
    var implicationItems: seq<string>
    var sent: seq<Request>

    /** At most one panel is shown; the button is disabled exactly while
        loading and its label says so; a shown error panel holds an error
        message. */
    ghost predicate Valid()
      reads this
    {
      && (loadingActive ==> !resultsActive && !errorActive)
      && !(resultsActive && errorActive)
      && buttonDisabled == loadingActive
      && buttonLabel == (if buttonDisabled then "Searching..." else "Search")
      && (errorActive ==> IsErrorText(errorText))
    }

    /** The four result regions. */
    function CurrentRegions(): Regions
      reads this`summary, this`sourceCards, this`insightCards, this`implicationItems
    {
      Rendering.Regions(summary, sourceCards, insightCards, implicationItems)
    }

    /** The page shows `settled`: its regions, the results or the error
        panel alone with the error's text, and the button enabled. */
    ghost predicate Shows(settled: Settled)
      reads this
    {
      && CurrentRegions() == settled.regions
      && !loadingActive && !buttonDisabled && buttonLabel == "Search"
      && (settled.ShowsResults? ==> resultsActive && !errorActive)
      && (settled.ShowsError? ==> errorActive && !resultsActive && errorText == ErrorText(settled.message))
    }

    /** A page as loaded: no panel shown, the button enabled, nothing sent. */
    constructor ()
      ensures Valid()
      ensures !loadingActive && !resultsActive && !errorActive
      ensures !buttonDisabled && buttonLabel == "Search"
      ensures sent == []
      ensures CurrentRegions() == Rendering.Regions(Str(""), [], [], [])
    {
      loadingActive, resultsActive, errorActive := false, false, false;
      buttonDisabled, buttonLabel := false, "Search";
      errorText := "";
      summary := Str("");
      sourceCards, insightCards, implicationItems := [], [], [];
      sent := [];
    }

    /** `showLoading`: only the loading panel, the button disabled and
        labelled `Searching...`. */
    method ShowLoading()
      modifies this`loadingActive, this`resultsActive, this`errorActive, this`buttonDisabled, this`buttonLabel
      ensures loadingActive && !resultsActive && !errorActive
      ensures buttonDisabled && buttonLabel == "Searching..."
      ensures Valid()
    {
      loadingActive := true;
      resultsActive := false;
      errorActive := false;
      buttonDisabled := true;
      buttonLabel := "Searching...";
    }

    /** `showError(message)`: only the error panel, holding the message in
        the fixed wording, and the button enabled again. */
    method ShowError(message: string)
      modifies this`loadingActive, this`resultsActive, this`errorActive, this`errorText,
               this`buttonDisabled, this`buttonLabel
      ensures !loadingActive && !resultsActive && errorActive
      ensures errorText == ErrorText(message)
      ensures !buttonDisabled && buttonLabel == "Search"
      ensures Valid()
    {
      loadingActive := false;
      resultsActive := false;
      errorActive := true;
      errorText := ErrorText(message);
      buttonDisabled := false;
      buttonLabel := "Search";
    }

    /** `displayResults(data)`: only the results panel and the button enabled
        again, exactly as after an error; then the regions as `Display`
        describes them, and the TypeError that interrupted it, if any. */
    method DisplayResults(data: Json, parse: string -> Option<Json>) returns (fault: Option<Fault>)
      modifies this`loadingActive, this`resultsActive, this`errorActive, this`buttonDisabled,
               this`buttonLabel, this`summary, this`sourceCards, this`insightCards, this`implicationItems
      ensures !loadingActive && resultsActive && !errorActive
      ensures !buttonDisabled && buttonLabel == "Search"
      ensures Shown(CurrentRegions(), fault) == Display(old(CurrentRegions()), data, parse)
      ensures Valid()
    {
      loadingActive := false;
      errorActive := false;
      resultsActive := true;
      buttonDisabled := false;
      buttonLabel := "Search";

      var normalized := Normalize(data, parse);
      if normalized.Err? {
        return Some(normalized.error);
      }
      var results := normalized.value;
      if Nullish(results) {
        return Some(ReadOfNullish("search_summary"));
      }
      fault := FillRegions(results);
    }

    /** The summary, then the three lists, up to the first TypeError. */
    method FillRegions(results: Json) returns (fault: Option<Fault>)
      requires !Nullish(results)
      modifies this`summary, this`sourceCards, this`insightCards, this`implicationItems
      ensures Shown(CurrentRegions(), fault) == Render(old(CurrentRegions()), results)
    {
      if Truthy(Prop(results, "search_summary")) {
        summary := Prop(results, "search_summary");
      } else {
        summary := Str(DefaultSummary);
      }

      fault := FillSources(results);
      if fault.Some? {
        return;
      }
      fault := FillInsights(results);
      if fault.Some? {
        return;
      }
      fault := FillImplications(results);
    }

    /** The sources grid, emptied and then given one card per entry of
        `results.results` when that is an array. */
    method FillSources(results: Json) returns (fault: Option<Fault>)
      requires !Nullish(results)
      modifies this`sourceCards
      ensures Stage(sourceCards, fault) == SourcesStage(results)
    {
      sourceCards := [];
      var list := Prop(results, "results");
      if list.Arr? {
        var entries := list.items;
        var i := 0;
        while i < |entries|
          invariant 0 <= i <= |entries|
          invariant |sourceCards| == i
          invariant forall j :: 0 <= j < i ==> CreateSourceCard(entries[j]) == Ok(sourceCards[j])
        {
          var card := CreateSourceCard(entries[i]);
          if card.Err? {
            return Some(card.error);
          }
          sourceCards := sourceCards + [card.value];
          i := i + 1;
        }
      }
      return None;
    }

    /** The insights grid, emptied and then given the cards of the five
        lists in their fixed order. */
    method FillInsights(results: Json) returns (fault: Option<Fault>)
      requires !Nullish(results)
      modifies this`insightCards
      ensures Stage(insightCards, fault) == InsightsStage(results)
    {
      insightCards := [];
      var insights := Prop(results, "research_insights");
      if Truthy(insights) {
        fault := EmitInsight(insights, 0);
        if fault.Some? {
          InsightsStayFailed(insights, 1, |Slots|);
          return;
        }
        fault := EmitInsight(insights, 1);
        if fault.Some? {
          InsightsStayFailed(insights, 2, |Slots|);
          return;
        }
        fault := EmitInsight(insights, 2);
        if fault.Some? {
          InsightsStayFailed(insights, 3, |Slots|);
          return;
        }
        fault := EmitInsight(insights, 3);
        if fault.Some? {
          InsightsStayFailed(insights, 4, |Slots|);
          return;
        }
        fault := EmitInsight(insights, 4);
        return;
      }
      return None;
    }

    /** One `if (insights.<key>?.length)`: appends the slot's card, or throws
        where `items.map` is missing. */
    method EmitInsight(insights: Json, k: nat) returns (fault: Option<Fault>)
      requires !Nullish(insights) && k < |Slots|
      requires Stage(insightCards, None) == InsightsUpTo(insights, k)
      modifies this`insightCards
      ensures Stage(insightCards, fault) == InsightsUpTo(insights, k + 1)
    {
      var slot := Slots[k];
      var list := Prop(insights, slot.key);
      if Truthy(OptionalLength(list)) {
        if !list.Arr? {
          return Some(NotAFunction("map"));
        }
        insightCards := insightCards + [CreateInsightCard(slot.title, slot.category, list.items)];
      }
      return None;
    }

    /** The implications list, emptied and then filled from
        `rangeway_implications`, or given the default item. */
    method FillImplications(results: Json) returns (fault: Option<Fault>)
      requires !Nullish(results)
      modifies this`implicationItems
      ensures Stage(implicationItems, fault) == ImplicationsStage(Prop(results, "rangeway_implications"))
    {
      implicationItems := [];
      var implications := Prop(results, "rangeway_implications");
      if Truthy(implications) {
        if implications.Str? {
          implications := Arr(ImplicationLines(implications.s));
        }
        if implications.Arr? {
          fault := AppendImplications(implications.items);
          return;
        }
      } else {
        implicationItems := [DefaultImplication];
      }
      return None;
    }

    /** The `forEach` over the implications: each item loses its bullet and
        is appended; an item that is not a string throws. */
    method AppendImplications(items: seq<Json>) returns (fault: Option<Fault>)
      requires implicationItems == []
      modifies this`implicationItems
      ensures Stage(implicationItems, fault) == StripItems(items)
    {
      var i := 0;
      while i < |items|
        invariant 0 <= i <= |items|
        invariant StripItems(items[..i]) == Stage(implicationItems, None)
      {
        assert items[..i + 1][..i] == items[..i];
        if !items[i].Str? {
          StripItemsStayFailed(items, i + 1);
          return Some(ReplaceFault(items[i]));
        }
        implicationItems := implicationItems + [StripMarker(items[i].s)];
        i := i + 1;
      }
      assert items[..i] == items;
      return None;
    }

    /** `performSearch` for a search box holding `input`, whose request ends
        with `delivery`. A blank input changes nothing and sends nothing.
        Otherwise exactly one request is sent and the page settles in the
        results panel or the error panel as `Settle` says, with the button
        enabled again either way. */
    method PerformSearch(input: string, delivery: Delivery, parse: string -> Option<Json>,
                         describe: Fault -> string)
      requires Valid()
      modifies this
      ensures Valid()
      ensures IsBlank(input) ==> unchanged(this)
      ensures !IsBlank(input) ==> sent == old(sent) + [SearchRequest(input).value]
      ensures !IsBlank(input) ==> Shows(Settle(old(CurrentRegions()), delivery, parse, describe))
      ensures !errorActive ==> errorText == old(errorText)
    {
      var request := SearchRequest(input);
      if request.None? {
        return;
      }
      Search(request.value, delivery, parse, describe);
    }

    /** The request `request` is sent with the loading panel shown, and the
        page settles once it is over. */
    method Search(request: Request, delivery: Delivery, parse: string -> Option<Json>,
                  describe: Fault -> string)
      modifies this
      ensures Valid()
      ensures sent == old(sent) + [request]
      ensures Shows(Settle(old(CurrentRegions()), delivery, parse, describe))
      ensures !errorActive ==> errorText == old(errorText)
    {
      ghost var before := CurrentRegions();
      ShowLoading();
      sent := sent + [request];
      Complete(before, delivery, parse, describe);
    }

    /** What `performSearch` does once its request is over: the error panel
        for a rejected fetch, a status that is not ok, a body that does not
        decode or a TypeError while displaying; the results otherwise. */
    method Complete(ghost before: Regions, delivery: Delivery, parse: string -> Option<Json>,
                    describe: Fault -> string)
      requires CurrentRegions() == before
      modifies this`loadingActive, this`resultsActive, this`errorActive, this`errorText,
               this`buttonDisabled, this`buttonLabel, this`summary, this`sourceCards,
               this`insightCards, this`implicationItems
      ensures Valid()
      ensures Shows(Settle(before, delivery, parse, describe))
      ensures !errorActive ==> errorText == old(errorText)
    {
      match delivery
      case Rejected(message) =>
        ShowError(message);
      case Responded(status, body) =>
        if !IsOk(status) {
          ShowError(StatusMessage(status));
        } else {
          match body
          case Undecodable(message) =>
            ShowError(message);
          case Decoded(data) =>
            var fault := DisplayResults(data, parse);
            if fault.Some? {
              ShowError(describe(fault.value));
            }
        }
    }
  }
}
