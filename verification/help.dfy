/**
 * The help centre: the FAQ table, the chatbot's FAQ lookup, the chatbot's message handling and
 * the FAQ search filter.
 */
module Help {
  import opened Wrappers
  import opened Lists
  import opened Text

  datatype Faq = Faq(question: string, answer: string)

  datatype Category = Category(id: string, title: string, faqs: seq<Faq>)

  const FaqCategories: seq<Category> := [
    Category("getting-started", "Getting Started", [
      Faq("How do I book a ride?", "Open the app, enter your destination, choose your ride type, and tap 'Book Ride'. You'll be matched with a nearby driver."),
      Faq("How do I create an account?", "Download the app and sign up using your email or phone number. You'll need to verify your account to start booking rides."),
      Faq("Is BluRide available in my city?", "BluRide is available in over 100 cities across India. Check the app to see if service is available in your area.")
    ]),
    Category("payments", "Payments & Pricing", [
      Faq("What payment methods are accepted?", "We accept credit/debit cards, UPI, Paytm, PhonePe, Google Pay, and BluRide wallet balance."),
      Faq("How is the fare calculated?", "Fares are calculated based on distance, time, demand, and the ride type selected. You'll see an estimated fare before booking."),
      Faq("Can I tip my driver?", "Yes! You can add a tip after your ride is completed. 100% of the tip goes directly to your driver.")
    ]),
    Category("safety", "Safety & Security", [
      Faq("How are drivers verified?", "All drivers undergo background checks, vehicle inspections, and must maintain a minimum rating to drive on our platform."),
      Faq("Can I share my ride details with someone?", "Yes! Tap 'Share Trip' during your ride to send real-time location updates to friends or family."),
      Faq("What if I feel unsafe during a ride?", "Use the emergency button in the app to contact local authorities. You can also report the ride after it ends.")
    ]),
    Category("rides", "During Your Ride", [
      Faq("Can I change my destination during a ride?", "Yes, tap on your destination in the app during the ride to edit it. The fare will be recalculated."),
      Faq("What if my driver cancels?", "You'll be automatically matched with another nearby driver. If you're charged a cancellation fee incorrectly, contact support."),
      Faq("Can I request a specific driver?", "Currently, you cannot request specific drivers. However, you can favorite drivers for future reference.")
    ])
  ]

  const NotFoundReply := "I could not find that yet. Try asking about booking, fare calculation, tipping, or safety."

  const WelcomeMessage := "Hi! I am the Ride FAQ assistant. Ask me about booking, payments, safety, or ride changes."

  /** `categories.flatMap((category) => category.faqs)`. */
  function AllFaqs(categories: seq<Category>): (faqs: seq<Faq>)
    ensures forall c, f :: c in categories && f in c.faqs ==> f in faqs
    ensures forall f :: f in faqs ==> exists c :: c in categories && f in c.faqs
  {
    if categories == [] then [] else categories[0].faqs + AllFaqs(categories[1..])
  }

  /** The characters `/[^a-z0-9\s]/g` leaves in place. */
  predicate IsTokenChar(c: char) {
    'a' <= c <= 'z' || '0' <= c <= '9' || IsJsWhitespace(c)
  }

  predicate NonEmpty(s: string) {
    s != ""
  }

  /** A question's tokens: lower-cased, stripped of other characters, split on spaces, empties dropped. */
  function Tokens(question: string): (tokens: seq<string>)
    ensures forall k :: 0 <= k < |tokens| ==> tokens[k] != "" && ' ' !in tokens[k]
  {
    Filter(Split(Filter(ToLower(question), IsTokenChar), ' '), NonEmpty)
  }

  /** The first lookup: the lower-cased question contains the lower-cased query. */
  function QuestionContains(normalized: string): Faq -> bool {
    (f: Faq) => Contains(ToLower(f.question), normalized)
  }

  /** The second lookup: some token of the question occurs in the lower-cased query. */
  function SharesToken(normalized: string): Faq -> bool {
    (f: Faq) => exists t :: t in Tokens(f.question) && Contains(normalized, t)
  }

  /**
   * `getFaqReply` over a FAQ table: the answer of the first FAQ whose question contains the query;
   * failing that, of the first FAQ with a question token inside the query; failing that, the fixed
   * not-found reply.
   */
  function FaqReply(categories: seq<Category>, query: string): (r: string)
    ensures var q := ToLower(query); var all := AllFaqs(categories);
      || (exists k :: 0 <= k < |all| && QuestionContains(q)(all[k]) && r == all[k].answer
            && forall j :: 0 <= j < k ==> !QuestionContains(q)(all[j]))
      || ((forall k :: 0 <= k < |all| ==> !QuestionContains(q)(all[k]))
          && (exists k :: 0 <= k < |all| && SharesToken(q)(all[k]) && r == all[k].answer
               && forall j :: 0 <= j < k ==> !SharesToken(q)(all[j])))
      || ((forall k :: 0 <= k < |all| ==> !QuestionContains(q)(all[k]) && !SharesToken(q)(all[k]))
          && r == NotFoundReply)
    ensures r == NotFoundReply || exists k :: 0 <= k < |AllFaqs(categories)| && r == AllFaqs(categories)[k].answer
  {
    var normalized := ToLower(query);
    var all := AllFaqs(categories);
    var exact := FindFirst(all, QuestionContains(normalized));
    if exact < |all| then all[exact].answer
    else
      var partial := FindFirst(all, SharesToken(normalized));
      if partial < |all| then all[partial].answer else NotFoundReply
  }

  /** `getFaqReply` on the page's own table. */
  function GetFaqReply(query: string): string {
    FaqReply(FaqCategories, query)
  }

  /** The first question of the page's table. */
  lemma FirstQuestionIsBooking()
    ensures |FaqCategories| > 0 && |FaqCategories[0].faqs| > 0
    ensures FaqCategories[0].faqs[0].question == "How do I book a ride?"
  {
  }

  /** The booking question, lower-cased, is its five spaced words and a question mark. */
  lemma LowerBookingQuestion(question: string, body: string, r2: string, r3: string, r4: string, r5: string)
    requires r5 == "a" + [' '] + "ride" && r4 == "book" + [' '] + r5 && r3 == "i" + [' '] + r4
    requires r2 == "do" + [' '] + r3 && body == "how" + [' '] + r2
    requires question == "How do I book a ride?"
    ensures ToLower(question) == body + "?"
    ensures forall i :: 0 <= i < |body| ==> IsTokenChar(body[i])
  {
  }

  /** Stripping a closing '?' from text that is otherwise all token characters. */
  lemma StripQuestionMark(lower: string, body: string)
    requires lower == body + "?"
    requires forall i :: 0 <= i < |body| ==> IsTokenChar(body[i])
    ensures Filter(lower, IsTokenChar) == body
  {
    FilterConcat(body, "?", IsTokenChar);
    FilterKeepsAll(body, IsTokenChar);
    assert "?"[1..] == [];
  }

  /** Six space-free words joined by single spaces split back into those words. */
  lemma SplitSixWords(body: string, r2: string, r3: string, r4: string, r5: string,
                      w1: string, w2: string, w3: string, w4: string, w5: string, w6: string)
    requires ' ' !in w1 && ' ' !in w2 && ' ' !in w3 && ' ' !in w4 && ' ' !in w5 && ' ' !in w6
    requires r5 == w5 + [' '] + w6 && r4 == w4 + [' '] + r5 && r3 == w3 + [' '] + r4
    requires r2 == w2 + [' '] + r3 && body == w1 + [' '] + r2
    ensures Split(body, ' ') == [w1, w2, w3, w4, w5, w6]
  {
    SplitWord(w6, ' ', "");
    SplitPrepend(w5, ' ', w6, [w6]);
    SplitPrepend(w4, ' ', r5, [w5, w6]);
    SplitPrepend(w3, ' ', r4, [w4, w5, w6]);
    SplitPrepend(w2, ' ', r3, [w3, w4, w5, w6]);
    SplitPrepend(w1, ' ', r2, [w2, w3, w4, w5, w6]);
  }

  /** The tokens of a question whose lower-cased text is space-separated words and a closing '?'. */
  lemma TokensOfWords(question: string, body: string, words: seq<string>)
    requires ToLower(question) == body + "?"
    requires forall i :: 0 <= i < |body| ==> IsTokenChar(body[i])
    requires Split(body, ' ') == words
    ensures Tokens(question) == Filter(words, NonEmpty)
  {
    StripQuestionMark(ToLower(question), body);
  }

  /** The tokens of "How do I book a ride?" include the one-letter words "i" and "a". */
  lemma BookingQuestionTokens(question: string)
    requires question == "How do I book a ride?"
    ensures "i" in Tokens(question) && "a" in Tokens(question)
  {
    var r5 := "a" + [' '] + "ride";
    var r4 := "book" + [' '] + r5;
    var r3 := "i" + [' '] + r4;
    var r2 := "do" + [' '] + r3;
    var body := "how" + [' '] + r2;
    var words := ["how", "do", "i", "book", "a", "ride"];
    LowerBookingQuestion(question, body, r2, r3, r4, r5);
    SplitSixWords(body, r2, r3, r4, r5, "how", "do", "i", "book", "a", "ride");
    TokensOfWords(question, body, words);
    assert words[2] == "i" && NonEmpty(words[2]);
    assert words[4] == "a" && NonEmpty(words[4]);
  }

  /**
   * Because the booking question has the one-letter tokens "i" and "a", any query with an 'a' or
   * an 'i' in it that no question contains gets the booking answer, when the booking question
   * comes first, as it does in the page's table.
   */
  lemma OneLetterTokensCatchAll(categories: seq<Category>, query: string)
    requires |categories| > 0 && |categories[0].faqs| > 0
    requires categories[0].faqs[0].question == "How do I book a ride?"
    requires 'a' in ToLower(query) || 'i' in ToLower(query)
    requires forall f :: f in AllFaqs(categories) ==> !QuestionContains(ToLower(query))(f)
    ensures FaqReply(categories, query) == categories[0].faqs[0].answer
  {
    var q := ToLower(query);
    var all := AllFaqs(categories);
    assert all[0] == categories[0].faqs[0];
    BookingQuestionTokens(all[0].question);
    var letter: string := if 'a' in q then "a" else "i";
    var k :| 0 <= k < |q| && q[k] == letter[0];
    assert OccursAt(q, letter, k) by {
      assert q[k..k + 1] == [q[k]];
    }
    ContainsAt(q, letter);
    assert letter in Tokens(all[0].question);
    assert SharesToken(q)(all[0]);
    assert forall k :: 0 <= k < |all| ==> !QuestionContains(q)(all[k]);
  }

  /** A question's exact wording, in any case, finds its own answer unless an earlier question contains it. */
  lemma QuestionFindsItsAnswer(categories: seq<Category>, k: nat)
    requires k < |AllFaqs(categories)|
    requires forall j :: 0 <= j < k ==>
      !QuestionContains(ToLower(AllFaqs(categories)[k].question))(AllFaqs(categories)[j])
    ensures FaqReply(categories, AllFaqs(categories)[k].question) == AllFaqs(categories)[k].answer
  {
    var all := AllFaqs(categories);
    var q := ToLower(all[k].question);
    assert OccursAt(q, q, 0);
    ContainsAt(q, q);
    assert QuestionContains(q)(all[k]);
  }

  /** The search test of `filteredCategories`: question or answer contains the query, ignoring case. */
  function SearchHit(query: string): Faq -> bool {
    (f: Faq) => Contains(ToLower(f.question), ToLower(query)) || Contains(ToLower(f.answer), ToLower(query))
  }

  /** The `map` step: every category with its FAQs narrowed to the matching ones. */
  function MapFaqs(categories: seq<Category>, query: string): (r: seq<Category>)
    ensures |r| == |categories|
    ensures forall i :: 0 <= i < |r| ==> r[i] == categories[i].(faqs := Filter(categories[i].faqs, SearchHit(query)))
    decreases |categories|
  {
    if categories == [] then []
    else [categories[0].(faqs := Filter(categories[0].faqs, SearchHit(query)))] + MapFaqs(categories[1..], query)
  }

  /** The ids of a list of categories, in order. */
  function Ids(categories: seq<Category>): (r: seq<string>)
    ensures |r| == |categories| && forall i :: 0 <= i < |r| ==> r[i] == categories[i].id
    decreases |categories|
  {
    if categories == [] then [] else [categories[0].id] + Ids(categories[1..])
  }

  /** The non-empty-query branch: matching FAQs only, categories left empty dropped. */
  function FilterCategories(categories: seq<Category>, query: string): (r: seq<Category>)
    ensures |r| <= |categories|
    ensures forall c :: c in r ==> |c.faqs| > 0 && forall f :: f in c.faqs ==> SearchHit(query)(f)
    decreases |categories|
  {
    if categories == [] then []
    else
      var c0 := categories[0];
      var kept := Filter(c0.faqs, SearchHit(query));
      var rest := FilterCategories(categories[1..], query);
      if |kept| > 0 then [c0.(faqs := kept)] + rest else rest
  }

  /**
   * The result is the mapped list with some categories left out, so the categories keep their
   * order and none appears more often than in the input.
   */
  lemma {:induction false} FilterCategoriesInOrder(categories: seq<Category>, query: string)
    ensures Subsequence(FilterCategories(categories, query), MapFaqs(categories, query))
    ensures Subsequence(Ids(FilterCategories(categories, query)), Ids(categories))
    decreases |categories|
  {
    if categories != [] {
      FilterCategoriesInOrder(categories[1..], query);
      var c0 := categories[0];
      var kept := Filter(c0.faqs, SearchHit(query));
      var rest := FilterCategories(categories[1..], query);
      var mapped := MapFaqs(categories, query);
      assert mapped[0] == c0.(faqs := kept) && mapped[1..] == MapFaqs(categories[1..], query);
      assert Ids(categories)[0] == c0.id && Ids(categories)[1..] == Ids(categories[1..]);
      if |kept| > 0 {
        var r := [c0.(faqs := kept)] + rest;
        assert r[0] == mapped[0] && r[1..] == rest;
        assert Ids(r)[0] == c0.id && Ids(r)[1..] == Ids(rest);
      }
    }
  }

  /** Each category in the result is one of the input categories with its FAQs filtered. */
  lemma {:induction false} FilterCategoriesSound(categories: seq<Category>, query: string, c: Category)
    requires c in FilterCategories(categories, query)
    ensures exists c0 ::
      c0 in categories && c == c0.(faqs := Filter(c0.faqs, SearchHit(query))) && Subsequence(c.faqs, c0.faqs)
    decreases |categories|
  {
    var c0 := categories[0];
    var kept := Filter(c0.faqs, SearchHit(query));
    if |kept| > 0 && c == c0.(faqs := kept) {
      FilterIsSubsequence(c0.faqs, SearchHit(query));
    } else {
      FilterCategoriesSound(categories[1..], query, c);
      var c1 :| c1 in categories[1..] && c == c1.(faqs := Filter(c1.faqs, SearchHit(query)))
        && Subsequence(c.faqs, c1.faqs);
      assert c1 in categories;
    }
  }

  /** Every FAQ that matches the search shows up under its category's id. */
  lemma {:induction false} FilterCategoriesComplete(categories: seq<Category>, query: string, i: nat, f: Faq)
    requires i < |categories| && f in categories[i].faqs && SearchHit(query)(f)
    ensures exists c :: c in FilterCategories(categories, query) && c.id == categories[i].id && f in c.faqs
    decreases i
  {
    var c0 := categories[0];
    var kept := Filter(c0.faqs, SearchHit(query));
    var rest := FilterCategories(categories[1..], query);
    var r := FilterCategories(categories, query);
    if i == 0 {
      assert f in kept;
      assert r[0] == c0.(faqs := kept);
      assert r[0] in r;
    } else {
      FilterCategoriesComplete(categories[1..], query, i - 1, f);
      var c :| c in rest && c.id == categories[i].id && f in c.faqs;
      assert c in r;
    }
  }

  /** `filteredCategories`: every category for an empty search box, otherwise the filtered list. */
  function FilteredCategories(categories: seq<Category>, query: string): (r: seq<Category>)
    ensures query == "" ==> r == categories
    ensures query != "" ==> r == FilterCategories(categories, query)
  {
    if query != "" then FilterCategories(categories, query) else categories
  }

  /** Searching the search results again with the same query changes nothing. */
  lemma {:induction false} FilterCategoriesIdempotent(categories: seq<Category>, query: string)
    ensures FilterCategories(FilterCategories(categories, query), query) == FilterCategories(categories, query)
    decreases |categories|
  {
    if categories != [] {
      var c0 := categories[0];
      var kept := Filter(c0.faqs, SearchHit(query));
      var rest := FilterCategories(categories[1..], query);
      FilterCategoriesIdempotent(categories[1..], query);
      if |kept| > 0 {
        var once := [c0.(faqs := kept)] + rest;
        assert once[0] == c0.(faqs := kept) && once[1..] == rest;
        FilterKeepsAll(kept, SearchHit(query));
      }
    }
  }

  datatype Role = Assistant | User

  datatype ChatMessage = ChatMessage(id: string, role: Role, content: string)

  /**
   * The chatbot panel's state. Every message sent arms a reply timer; the timers share one delay,
   * so they fire in the order they were armed. `pendingQueries` holds the queries of the timers
   * that have not fired yet, oldest first.
   */
  class HelpChat {
    var chatMessages: seq<ChatMessage>
    var chatInput: string
    var isBotTyping: bool
    var pendingQueries: seq<string>
    /** The FAQ table the chatbot answers from: the page's own. */
    const faqs: seq<Category>

    constructor ()
      ensures chatMessages == [ChatMessage("welcome", Assistant, WelcomeMessage)]
      ensures chatInput == "" && !isBotTyping && pendingQueries == [] && faqs == FaqCategories
    {
      faqs := FaqCategories;
      chatMessages := [ChatMessage("welcome", Assistant, WelcomeMessage)];
      chatInput := "";
      isBotTyping := false;
      pendingQueries := [];
    }

    /**
     * `handleSendMessage`, up to the scheduled reply: a blank input changes nothing; otherwise the
     * trimmed text is appended as a user message, the input cleared, the typing flag set and a
     * reply timer armed for the trimmed text.
     */
    method HandleSendMessage(id: string) returns (sent: bool)
      modifies this
      ensures sent <==> !IsBlank(old(chatInput))
      ensures !sent ==>
        chatMessages == old(chatMessages) && chatInput == old(chatInput)
        && isBotTyping == old(isBotTyping) && pendingQueries == old(pendingQueries)
      ensures sent ==>
        chatMessages == old(chatMessages) + [ChatMessage(id, User, Trim(old(chatInput)))]
        && chatInput == "" && isBotTyping && pendingQueries == old(pendingQueries) + [Trim(old(chatInput))]
    {
      var trimmed := Trim(chatInput);
      if trimmed == "" {
        return false;
      }
      chatMessages := chatMessages + [ChatMessage(id, User, trimmed)];
      chatInput := "";
      isBotTyping := true;
      pendingQueries := pendingQueries + [trimmed];
      sent := true;
    }

    /**
     * The oldest reply timer fires: `getFaqReply`'s answer to its query is appended and the typing
     * flag cleared, even while later replies are still pending.
     */
    method DeliverReply(id: string)
      requires pendingQueries != []
      modifies this`chatMessages, this`isBotTyping, this`pendingQueries
      ensures chatMessages == old(chatMessages) + [ChatMessage(id, Assistant, FaqReply(faqs, old(pendingQueries)[0]))]
      ensures !isBotTyping && pendingQueries == old(pendingQueries)[1..]
    {
      var query := pendingQueries[0];
      chatMessages := chatMessages + [ChatMessage(id, Assistant, FaqReply(faqs, query))];
      pendingQueries := pendingQueries[1..];
      isBotTyping := false;
    }
  }

}
