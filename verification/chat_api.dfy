/**
 * The support-chat endpoint: its request checks, the keyword fallback used when no language-model
 * key is configured or the model call fails, and the shape of each response.
 */
module ChatApi {
  import opened Wrappers
  import opened Text

  const DefaultKey := "default"
  const DefaultReply := "I'm here to help! Ask me about booking, payments, safety, ride features, or account help."

  /** The reply table, in declaration order; the "default" entry comes last. */
  const Responses: seq<(string, string)> := [
    ("how do i book", "To book a ride: Open the app, enter your destination, choose your ride type, and tap 'Book Ride'. You'll be matched with a nearby driver shortly."),
    ("how much does it cost", "Fares are calculated based on distance, time, and demand. You'll see an estimated fare before booking."),
    ("what payment methods", "We accept credit/debit cards, UPI, Paytm, PhonePe, Google Pay, and BluRide wallet balance."),
    ("is it safe", "Safety is our priority. All drivers undergo background checks and vehicle inspections. You can share your trip with friends and use emergency features."),
    ("can i cancel", "Yes, you can cancel if the driver hasn't arrived yet. Cancellation fees may apply depending on timing."),
    ("how do i tip", "You can add a tip after your ride is completed. 100% of the tip goes directly to your driver."),
    ("what about shared rides", "You can enable ride sharing to split costs with other passengers heading in the same direction."),
    ("lost and found", "If you lost something, contact support with your ride details and we'll help you retrieve it."),
    ("issue refund", "Contact support with your ride number and we'll review your case within 24 hours."),
    (DefaultKey, DefaultReply)
  ]

  /** The loop's test: a keyword entry whose key occurs in the normalised query. */
  predicate KeyMatches(entry: (string, string), normalized: string) {
    entry.0 != DefaultKey && Contains(normalized, entry.0)
  }

  /** The index of the first matching entry at or after `from`, or `|entries|` when there is none. */
  function FirstMatch(entries: seq<(string, string)>, normalized: string, from: nat): (k: nat)
    requires from <= |entries|
    ensures from <= k <= |entries|
    ensures k < |entries| ==> KeyMatches(entries[k], normalized)
    ensures forall j :: from <= j < k ==> !KeyMatches(entries[j], normalized)
    decreases |entries| - from
  {
    if from == |entries| then from
    else if KeyMatches(entries[from], normalized) then from
    else FirstMatch(entries, normalized, from + 1)
  }

  /**
   * `getFallbackResponse`: the reply of the first key, in table order, found in the lower-cased query;
   * the default reply when no key is found. The "default" entry is never matched as a keyword.
   */
  function FallbackResponse(query: string): (r: string)
    ensures var q := ToLower(query);
      || (exists k :: 0 <= k < |Responses| && KeyMatches(Responses[k], q) && r == Responses[k].1
            && forall j :: 0 <= j < k ==> !KeyMatches(Responses[j], q))
      || ((forall k :: 0 <= k < |Responses| ==> !KeyMatches(Responses[k], q)) && r == DefaultReply)
  {
    var k := FirstMatch(Responses, ToLower(query), 0);
    if k < |Responses| then Responses[k].1 else DefaultReply
  }

  /** Only keyword entries can produce a reply other than the default one, so a key "default" in the text is ignored. */
  lemma FallbackNeverMatchesDefaultKey(query: string, k: nat)
    requires k < |Responses| && Responses[k].0 == DefaultKey
    ensures !KeyMatches(Responses[k], ToLower(query))
  {
  }

  /** The lookup is case-insensitive: lower-casing the query first changes nothing. */
  lemma FallbackCaseInsensitive(query: string)
    ensures FallbackResponse(ToLower(query)) == FallbackResponse(query)
  {
    ToLowerIdempotent(query);
  }

  /** A key found in the query decides the reply unless an earlier key is found too. */
  lemma FallbackFirstKeyWins(query: string, k: nat)
    requires k < |Responses| && KeyMatches(Responses[k], ToLower(query))
    requires forall j :: 0 <= j < k ==> !KeyMatches(Responses[j], ToLower(query))
    ensures FallbackResponse(query) == Responses[k].1
  {
    var q := ToLower(query);
    var m := FirstMatch(Responses, q, 0);
    assert m == k;
  }

  /** The value of `message` in the parsed request body. */
  datatype MessageField = Absent | StringValue(text: string) | NonString

  /** The request body: JSON that parsed, or the parse failure's error message. */
  datatype Request = Json(message: MessageField) | Unparsable(errorMessage: string)

  /** What the model call produced: the first choice's content if any, or the thrown error's message. */
  datatype ModelOutcome = Completed(content: Option<string>) | Failed(errorMessage: string)

  datatype Response = Response(
    status: int, reply: Option<string>, source: Option<string>, error: Option<string>, note: Option<string>)

  const InvalidMessageFormat := "Invalid message format"
  const NoContentReply := "I couldn't process that request."
  const GeneralInquiry := "General inquiry"
  const FallbackModeError := "Service temporarily using fallback mode"
  const NoKeyNote := "OpenAI integration disabled. Set OPENAI_API_KEY in .env.local to enable AI responses."

  /** The `catch` branch: the fallback reply for the error text, status 200. */
  function ErrorFallback(errorMessage: string): (resp: Response)
    ensures resp.status == 200 && resp.source == Some("fallback") && resp.note.None?
    ensures errorMessage != "" ==> resp.reply == Some(FallbackResponse(errorMessage)) && resp.error == Some(errorMessage)
    ensures errorMessage == "" ==> resp.reply == Some(FallbackResponse(GeneralInquiry)) && resp.error == Some(FallbackModeError)
  {
    var text := if errorMessage != "" then errorMessage else GeneralInquiry;
    Response(200, Some(FallbackResponse(text)), Some("fallback"),
      Some(if errorMessage != "" then errorMessage else FallbackModeError), None)
  }

  /** The parsed body carries a non-empty string `message`. */
  predicate ValidMessage(request: Request) {
    request.Json? && request.message.StringValue? && request.message.text != ""
  }

  /**
   * `POST`. Whether an API key is configured and what the model call produced are parameters; the
   * model call is only consulted when the key is there and the message is valid.
   */
  function Post(request: Request, apiKeyConfigured: bool, outcome: ModelOutcome): (resp: Response)
    ensures request.Json? && !(request.message.StringValue? && request.message.text != "") <==> resp.status == 400
    ensures resp.status == 400 ==> resp.error == Some(InvalidMessageFormat) && resp.reply.None?
    ensures request.Json? && request.message.StringValue? && request.message.text != "" && !apiKeyConfigured ==>
      resp == Response(200, Some(FallbackResponse(request.message.text)), Some("fallback"), None, Some(NoKeyNote))
    ensures request.Unparsable? ==> resp == ErrorFallback(request.errorMessage)
    ensures ValidMessage(request) && apiKeyConfigured && outcome.Failed? ==> resp == ErrorFallback(outcome.errorMessage)
    ensures ValidMessage(request) && apiKeyConfigured && outcome.Completed? ==>
      resp.status == 200 && resp.source == Some("openai") && resp.error.None? && resp.note.None?
    ensures ValidMessage(request) && apiKeyConfigured && outcome.Completed? && outcome.content.Some? && outcome.content.value != "" ==>
      resp.reply == outcome.content
    ensures ValidMessage(request) && apiKeyConfigured && outcome.Completed? && !(outcome.content.Some? && outcome.content.value != "") ==>
      resp.reply == Some(NoContentReply)
    ensures resp.note.Some? <==> ValidMessage(request) && !apiKeyConfigured
    ensures resp.status in {200, 400}
  {
    match request
    case Unparsable(e) => ErrorFallback(e)
    case Json(message) =>
      if !(message.StringValue? && message.text != "") then
        Response(400, None, None, Some(InvalidMessageFormat), None)
      else if !apiKeyConfigured then
        Response(200, Some(FallbackResponse(message.text)), Some("fallback"), None, Some(NoKeyNote))
      else
        match outcome
        case Completed(content) =>
          var reply := if content.Some? && content.value != "" then content.value else NoContentReply;
          Response(200, Some(reply), Some("openai"), None, None)
        case Failed(e) => ErrorFallback(e)
  }

  /** An accepted message always gets a reply with status 200, whatever the model call does. */
  lemma ValidMessageAlwaysAnswered(text: string, apiKeyConfigured: bool, outcome: ModelOutcome)
    requires text != ""
    ensures var resp := Post(Json(StringValue(text)), apiKeyConfigured, outcome);
      resp.status == 200 && resp.reply.Some? && resp.reply.value != ""
  {
    var resp := Post(Json(StringValue(text)), apiKeyConfigured, outcome);
    if resp.source == Some("fallback") {
      FallbackNonEmpty(if outcome.Failed? && apiKeyConfigured then
        (if outcome.errorMessage != "" then outcome.errorMessage else GeneralInquiry) else text);
    }
  }

  /** Every fallback reply is a non-empty text. */
  lemma FallbackNonEmpty(query: string)
    ensures FallbackResponse(query) != ""
  {
    var q := ToLower(query);
    var k := FirstMatch(Responses, q, 0);
    if k < |Responses| {
      assert Responses[k].1 != "" by {
        assert forall j :: 0 <= j < |Responses| ==> |Responses[j].1| > 0;
      }
    }
  }
}
