/**
 * The pure rules of `performSearch`: which request a query produces, how a
 * finished request is turned into either rendered results or an error
 * message, and the wording of that message.
 */
module Dispatch {
  import opened Wrappers
  import opened JsValues
  import opened JsText
  import opened Rendering

  const WorkerUrl: string := "https://n8n.winnick.cloud/webhook/rangeway-research"

  /** The POST the page sends; its JSON body is `{message: <message>}`. */
  datatype Request = Request(url: string, verb: string, contentType: string, message: string)

  /** The request a search box holding `input` produces: none when the input
      is blank, otherwise a POST of the trimmed text to the webhook. */
  function SearchRequest(input: string): (r: Option<Request>)
    ensures r.None? <==> IsBlank(input)
    ensures r.Some? ==> r.value.url == WorkerUrl && r.value.verb == "POST"
                        && r.value.contentType == "application/json"
    ensures r.Some? ==> r.value.message == Trim(input)
    ensures r.Some? ==> r.value.message != [] && |r.value.message| <= |input|
                        && !IsSpace(r.value.message[0]) && !IsSpace(r.value.message[|r.value.message| - 1])
  {
    var query := Trim(input);
    if |query| == 0 then None else Some(Request(WorkerUrl, "POST", "application/json", query))
  }

  /** The decoded body of a response, or the reason `response.json()` failed. */
  datatype Body = Decoded(data: Json) | Undecodable(message: string)

  /** How the request ended: `fetch` rejected with a message, or a response
      arrived with a status and a body. */
  datatype Delivery = Rejected(message: string) | Responded(status: nat, body: Body)

  /** `response.ok`. */
  predicate IsOk(status: nat) {
    200 <= status <= 299
  }

  /** The message thrown for a response that is not ok. */
  function StatusMessage(status: nat): (m: string)
    ensures |m| > 15 && m[..15] == "Search failed: "
    ensures forall i :: 15 <= i < |m| ==> IsDigit(m[i])
    ensures DecimalValue(m[15..]) == status
    ensures m[15] == '0' ==> status == 0 && |m| == 16
  {
    var digits := Decimal(status);
    DecimalRoundTrip(status);
    assert ("Search failed: " + digits)[15..] == digits;
    "Search failed: " + digits
  }

  /** Different statuses give different messages. */
  lemma StatusMessageInjective(a: nat, b: nat)
    requires StatusMessage(a) == StatusMessage(b)
    ensures a == b
  {
  }

  /** What the error panel says for a failure with message `m`: the message
      can be read back between the fixed prefix and suffix. */
  function ErrorText(m: string): (t: string)
    ensures |t| == |m| + 26
    ensures t[..7] == "Error: " && t[7..7 + |m|] == m && t[7 + |m|..] == ". Please try again."
  {
    var t := "Error: " + m + ". Please try again.";
    assert t[7..7 + |m|] == m;
    t
  }

  /** Text the error panel can hold after `showError`. */
  predicate IsErrorText(t: string) {
    |t| >= 26 && t[..7] == "Error: " && t[|t| - 19..] == ". Please try again."
  }

  /** The error panel of a failed status shows the status in decimal. */
  lemma StatusErrorText(status: nat)
    ensures ErrorText(StatusMessage(status)) == "Error: Search failed: " + Decimal(status) + ". Please try again."
  {
    var d := Decimal(status);
    assert StatusMessage(status) == "Search failed: " + d;
    assert "Error: " + "Search failed: " == "Error: Search failed: ";
    assert "Error: " + ("Search failed: " + d) == "Error: Search failed: " + d;
  }

  lemma DecimalOf500()
    ensures Decimal(500) == "500"
  {
    assert DigitChar(5) == '5' && DigitChar(0) == '0';
    assert Decimal(5) == "5";
    assert Decimal(50) == Decimal(5) + [DigitChar(0)] == "50";
  }

  /** A server error shows its status in the error panel. */
  lemma ServerErrorText()
    ensures ErrorText(StatusMessage(500)) == "Error: Search failed: " + "500" + ". Please try again."
  {
    StatusErrorText(500);
    DecimalOf500();
  }

  /** How the page ends up once the request is over. */
  datatype Settled = ShowsResults(regions: Regions) | ShowsError(message: string, regions: Regions)

  /** The outcome of a search whose request ended with `delivery`, on regions
      that held `before`: a rejected fetch, a status that is not ok and a body
      that does not decode each show their message and leave the regions as
      they were; a decoded body is displayed, and a TypeError while
      displaying it shows the engine's description `describe` of that error
      over whatever the display had already built. */
  function Settle(before: Regions, delivery: Delivery, parse: string -> Option<Json>,
                  describe: Fault -> string): Settled
  {
    match delivery
    case Rejected(m) => ShowsError(m, before)
    case Responded(status, body) =>
      if !IsOk(status) then ShowsError(StatusMessage(status), before)
      else
        match body
        case Undecodable(m) => ShowsError(m, before)
        case Decoded(data) =>
          var shown := Display(before, data, parse);
          if shown.fault.None? then ShowsResults(shown.regions)
          else ShowsError(describe(shown.fault.value), shown.regions)
  }

  /** The three failures before anything is rendered show their own
      message over the untouched regions; the results panel is reached
      exactly when an ok response decodes and displays without a TypeError;
      and a decoded body leaves the regions as the display left them, also
      when it then fails. */
  lemma SettleOutcomes(before: Regions, delivery: Delivery, parse: string -> Option<Json>,
                       describe: Fault -> string)
    ensures delivery.Rejected? ==> Settle(before, delivery, parse, describe) == ShowsError(delivery.message, before)
    ensures delivery.Responded? && !IsOk(delivery.status) ==>
              Settle(before, delivery, parse, describe) == ShowsError(StatusMessage(delivery.status), before)
    ensures delivery.Responded? && IsOk(delivery.status) && delivery.body.Undecodable? ==>
              Settle(before, delivery, parse, describe) == ShowsError(delivery.body.message, before)
    ensures Settle(before, delivery, parse, describe).ShowsResults? <==>
              delivery.Responded? && IsOk(delivery.status) && delivery.body.Decoded?
              && Display(before, delivery.body.data, parse).fault.None?
    ensures delivery.Responded? && IsOk(delivery.status) && delivery.body.Decoded? ==>
              Settle(before, delivery, parse, describe).regions == Display(before, delivery.body.data, parse).regions
  {
  }

  /** A body of JSON `null` decodes, but rendering it reads `output` off
      null: the search ends in the error panel, with the regions untouched. */
  lemma NullBodyShowsError(before: Regions, status: nat, parse: string -> Option<Json>,
                           describe: Fault -> string)
    requires IsOk(status)
    ensures Settle(before, Responded(status, Decoded(Null)), parse, describe)
            == ShowsError(describe(ReadOfNullish("output")), before)
  {
    DisplayOutcome(before, Null, parse);
  }
}
