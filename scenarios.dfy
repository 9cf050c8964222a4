/** Concrete questions and a concrete order, worked through the model. */
module Scenarios {
  import opened Common
  import opened Text
  import opened ShippingStatus
  import opened Orders
  import opened Query
  import opened Registry

  /** A keyword (which has no spaces) occurs in a lower-cased four-word question
      exactly when it occurs in one of its lower-cased words. */
  lemma FourWords(w0: string, w1: string, w2: string, w3: string, pat: string)
    requires ' ' !in pat
    ensures Contains(Lower(w0 + " " + w1 + " " + w2 + " " + w3), pat)
            <==> (Contains(Lower(w0), pat) || Contains(Lower(w1), pat)
                  || Contains(Lower(w2), pat) || Contains(Lower(w3), pat))
  {
    var s1 := w0 + " " + w1;
    var s2 := s1 + " " + w2;
    LowerSpaced(s2, w3);
    LowerSpaced(s1, w2);
    LowerSpaced(w0, w1);
    ContainsAcrossSpace(Lower(s2), Lower(w3), pat);
    ContainsAcrossSpace(Lower(s1), Lower(w2), pat);
    ContainsAcrossSpace(Lower(w0), Lower(w1), pat);
  }

  /** The same for five words. */
  lemma FiveWords(w0: string, w1: string, w2: string, w3: string, w4: string, pat: string)
    requires ' ' !in pat
    ensures Contains(Lower(w0 + " " + w1 + " " + w2 + " " + w3 + " " + w4), pat)
            <==> (Contains(Lower(w0), pat) || Contains(Lower(w1), pat) || Contains(Lower(w2), pat)
                  || Contains(Lower(w3), pat) || Contains(Lower(w4), pat))
  {
    var s3 := w0 + " " + w1 + " " + w2 + " " + w3;
    LowerSpaced(s3, w4);
    ContainsAcrossSpace(Lower(s3), Lower(w4), pat);
    FourWords(w0, w1, w2, w3, pat);
  }

  /** A keyword is missing from a lower-cased four-word question when each word
      lacks, in both cases, one of the keyword's letters (the `k`-th for word `w`). */
  lemma LacksInFour(pat: string, w0: string, k0: int, w1: string, k1: int,
                    w2: string, k2: int, w3: string, k3: int)
    requires ' ' !in pat
    requires 0 <= k0 < |pat| && 'a' <= pat[k0] <= 'z' && pat[k0] !in w0 && (pat[k0] as int - 32) as char !in w0
    requires 0 <= k1 < |pat| && 'a' <= pat[k1] <= 'z' && pat[k1] !in w1 && (pat[k1] as int - 32) as char !in w1
    requires 0 <= k2 < |pat| && 'a' <= pat[k2] <= 'z' && pat[k2] !in w2 && (pat[k2] as int - 32) as char !in w2
    requires 0 <= k3 < |pat| && 'a' <= pat[k3] <= 'z' && pat[k3] !in w3 && (pat[k3] as int - 32) as char !in w3
    ensures !Contains(Lower(w0 + " " + w1 + " " + w2 + " " + w3), pat)
  {
    WordLacks(w0, pat, k0);
    WordLacks(w1, pat, k1);
    WordLacks(w2, pat, k2);
    WordLacks(w3, pat, k3);
    FourWords(w0, w1, w2, w3, pat);
  }

  /** A keyword found in one word of a four-word question is found in it. */
  lemma HasInFour(w0: string, w1: string, w2: string, w3: string, pat: string)
    requires ' ' !in pat
    requires Contains(Lower(w0), pat) || Contains(Lower(w1), pat)
          || Contains(Lower(w2), pat) || Contains(Lower(w3), pat)
    ensures Contains(Lower(w0 + " " + w1 + " " + w2 + " " + w3), pat)
  {
    FourWords(w0, w1, w2, w3, pat);
  }

  /** The same as `LacksInFour`, for five words. */
  lemma LacksInFive(pat: string, w0: string, k0: int, w1: string, k1: int,
                    w2: string, k2: int, w3: string, k3: int, w4: string, k4: int)
    requires ' ' !in pat
    requires 0 <= k0 < |pat| && 'a' <= pat[k0] <= 'z' && pat[k0] !in w0 && (pat[k0] as int - 32) as char !in w0
    requires 0 <= k1 < |pat| && 'a' <= pat[k1] <= 'z' && pat[k1] !in w1 && (pat[k1] as int - 32) as char !in w1
    requires 0 <= k2 < |pat| && 'a' <= pat[k2] <= 'z' && pat[k2] !in w2 && (pat[k2] as int - 32) as char !in w2
    requires 0 <= k3 < |pat| && 'a' <= pat[k3] <= 'z' && pat[k3] !in w3 && (pat[k3] as int - 32) as char !in w3
    requires 0 <= k4 < |pat| && 'a' <= pat[k4] <= 'z' && pat[k4] !in w4 && (pat[k4] as int - 32) as char !in w4
    ensures !Contains(Lower(w0 + " " + w1 + " " + w2 + " " + w3 + " " + w4), pat)
  {
    WordLacks(w0, pat, k0);
    WordLacks(w1, pat, k1);
    WordLacks(w2, pat, k2);
    WordLacks(w3, pat, k3);
    WordLacks(w4, pat, k4);
    FiveWords(w0, w1, w2, w3, w4, pat);
  }

  /** A keyword found in one word of a five-word question is found in it. */
  lemma HasInFive(w0: string, w1: string, w2: string, w3: string, w4: string, pat: string)
    requires ' ' !in pat
    requires Contains(Lower(w0), pat) || Contains(Lower(w1), pat) || Contains(Lower(w2), pat)
          || Contains(Lower(w3), pat) || Contains(Lower(w4), pat)
    ensures Contains(Lower(w0 + " " + w1 + " " + w2 + " " + w3 + " " + w4), pat)
  {
    FiveWords(w0, w1, w2, w3, w4, pat);
  }

  /** A lower-cased text lacks a keyword when it lacks the keyword's `k`-th letter
      in both cases. */
  lemma WordLacks(w: string, pat: string, k: int)
    requires 0 <= k < |pat| && 'a' <= pat[k] <= 'z'
    requires pat[k] !in w && (pat[k] as int - 32) as char !in w
    ensures !Contains(Lower(w), pat)
  {
    LowerHasChar(w, pat[k]);
    ContainsHasChar(Lower(w), pat, k);
  }

  /** A word whose lower-cased form starts with a keyword contains it. */
  lemma WordStarts(w: string, pat: string)
    requires |pat| <= |w| && Lower(w)[..|pat|] == pat
    ensures Contains(Lower(w), pat)
  {
    assert OccursAt(Lower(w), pat, 0);
  }

  // "What's the delivery status tracking?"

  lemma DeliveryQuestionWords()
    ensures "What's the delivery status tracking?"
         == "What's" + " " + "the" + " " + "delivery" + " " + "status" + " " + "tracking?"
  {
  }

  lemma DeliveryQuestionLacksWhere()
    ensures !Contains(Lower("What's" + " " + "the" + " " + "delivery" + " " + "status" + " " + "tracking?"), "where")
  {
    LacksInFive("where", "What's", 2, "the", 0, "delivery", 0, "status", 0, "tracking?", 0);
  }

  lemma DeliveryQuestionLacksLocation()
    ensures !Contains(Lower("What's" + " " + "the" + " " + "delivery" + " " + "status" + " " + "tracking?"), "location")
  {
    LacksInFive("location", "What's", 1, "the", 1, "delivery", 1, "status", 1, "tracking?", 1);
  }

  lemma DeliveryQuestionHasDelivery()
    ensures Contains(Lower("What's" + " " + "the" + " " + "delivery" + " " + "status" + " " + "tracking?"), "delivery")
  {
    WordStarts("delivery", "delivery");
    HasInFive("What's", "the", "delivery", "status", "tracking?", "delivery");
  }

  /** "delivery" is tested before "status" and "tracking", so this question asks when. */
  lemma DeliveryOutranksStatus()
    ensures Classify(Lower("What's the delivery status tracking?")) == Eta
  {
    DeliveryQuestionWords();
    DeliveryQuestionLacksWhere();
    DeliveryQuestionLacksLocation();
    DeliveryQuestionHasDelivery();
  }

  // The menu's questions, in menu order.

  lemma StatusQuestionWords()
    ensures "What is the status?" == "What" + " " + "is" + " " + "the" + " " + "status?"
  {
  }

  lemma StatusQuestionLacksWhere()
    ensures !Contains(Lower("What" + " " + "is" + " " + "the" + " " + "status?"), "where")
  {
    LacksInFour("where", "What", 2, "is", 0, "the", 0, "status?", 0);
  }

  lemma StatusQuestionLacksLocation()
    ensures !Contains(Lower("What" + " " + "is" + " " + "the" + " " + "status?"), "location")
  {
    LacksInFour("location", "What", 0, "is", 0, "the", 0, "status?", 0);
  }

  lemma StatusQuestionLacksWhen()
    ensures !Contains(Lower("What" + " " + "is" + " " + "the" + " " + "status?"), "when")
  {
    LacksInFour("when", "What", 2, "is", 0, "the", 0, "status?", 0);
  }

  lemma StatusQuestionLacksDelivery()
    ensures !Contains(Lower("What" + " " + "is" + " " + "the" + " " + "status?"), "delivery")
  {
    LacksInFour("delivery", "What", 0, "is", 0, "the", 0, "status?", 0);
  }

  lemma StatusQuestionLacksArrive()
    ensures !Contains(Lower("What" + " " + "is" + " " + "the" + " " + "status?"), "arrive")
  {
    LacksInFour("arrive", "What", 4, "is", 4, "the", 4, "status?", 4);
  }

  lemma StatusQuestionHasStatus()
    ensures Contains(Lower("What" + " " + "is" + " " + "the" + " " + "status?"), "status")
  {
    WordStarts("status?", "status");
    HasInFour("What", "is", "the", "status?", "status");
  }

  /** The menu's first question asks for the status. */
  lemma StatusQuestionAsksStatus()
    ensures Classify(Lower("What is the status?")) == CurrentStatus
  {
    StatusQuestionWords();
    StatusQuestionLacksWhere();
    StatusQuestionLacksLocation();
    StatusQuestionLacksWhen();
    StatusQuestionLacksDelivery();
    StatusQuestionLacksArrive();
    StatusQuestionHasStatus();
  }

  lemma LocationQuestionWords()
    ensures "Where is my order?" == "Where" + " " + "is" + " " + "my" + " " + "order?"
  {
  }

  lemma LocationQuestionHasWhere()
    ensures Contains(Lower("Where" + " " + "is" + " " + "my" + " " + "order?"), "where")
  {
    WordStarts("Where", "where");
    HasInFour("Where", "is", "my", "order?", "where");
  }

  /** The menu's second question asks where the order is. */
  lemma LocationQuestionAsksLocation()
    ensures Classify(Lower("Where is my order?")) == Location
  {
    LocationQuestionWords();
    LocationQuestionHasWhere();
  }

  lemma ArriveQuestionWords()
    ensures "When will it arrive?" == "When" + " " + "will" + " " + "it" + " " + "arrive?"
  {
  }

  lemma ArriveQuestionLacksWhere()
    ensures !Contains(Lower("When" + " " + "will" + " " + "it" + " " + "arrive?"), "where")
  {
    LacksInFour("where", "When", 3, "will", 2, "it", 0, "arrive?", 0);
  }

  lemma ArriveQuestionLacksLocation()
    ensures !Contains(Lower("When" + " " + "will" + " " + "it" + " " + "arrive?"), "location")
  {
    LacksInFour("location", "When", 1, "will", 1, "it", 1, "arrive?", 1);
  }

  lemma ArriveQuestionHasWhen()
    ensures Contains(Lower("When" + " " + "will" + " " + "it" + " " + "arrive?"), "when")
  {
    WordStarts("When", "when");
    HasInFour("When", "will", "it", "arrive?", "when");
  }

  /** The menu's third question asks when the order arrives. */
  lemma ArriveQuestionAsksWhen()
    ensures Classify(Lower("When will it arrive?")) == Eta
  {
    ArriveQuestionWords();
    ArriveQuestionLacksWhere();
    ArriveQuestionLacksLocation();
    ArriveQuestionHasWhen();
  }

  lemma HistoryQuestionWords()
    ensures "Show me the tracking history" == "Show" + " " + "me" + " " + "the" + " " + "tracking" + " " + "history"
  {
  }

  lemma HistoryQuestionLacksWhere()
    ensures !Contains(Lower("Show" + " " + "me" + " " + "the" + " " + "tracking" + " " + "history"), "where")
  {
    LacksInFive("where", "Show", 2, "me", 0, "the", 0, "tracking", 0, "history", 0);
  }

  lemma HistoryQuestionLacksLocation()
    ensures !Contains(Lower("Show" + " " + "me" + " " + "the" + " " + "tracking" + " " + "history"), "location")
  {
    LacksInFive("location", "Show", 0, "me", 0, "the", 0, "tracking", 0, "history", 0);
  }

  lemma HistoryQuestionLacksWhen()
    ensures !Contains(Lower("Show" + " " + "me" + " " + "the" + " " + "tracking" + " " + "history"), "when")
  {
    LacksInFive("when", "Show", 2, "me", 0, "the", 0, "tracking", 0, "history", 0);
  }

  lemma HistoryQuestionLacksDelivery()
    ensures !Contains(Lower("Show" + " " + "me" + " " + "the" + " " + "tracking" + " " + "history"), "delivery")
  {
    LacksInFive("delivery", "Show", 0, "me", 0, "the", 0, "tracking", 0, "history", 0);
  }

  lemma HistoryQuestionLacksArrive()
    ensures !Contains(Lower("Show" + " " + "me" + " " + "the" + " " + "tracking" + " " + "history"), "arrive")
  {
    LacksInFive("arrive", "Show", 4, "me", 4, "the", 4, "tracking", 4, "history", 4);
  }

  lemma HistoryQuestionHasTracking()
    ensures Contains(Lower("Show" + " " + "me" + " " + "the" + " " + "tracking" + " " + "history"), "tracking")
  {
    WordStarts("tracking", "tracking");
    HasInFive("Show", "me", "the", "tracking", "history", "tracking");
  }

  /** The menu's fourth question, about the tracking history, is answered with the
      current status: "tracking" is tested before "history". */
  lemma MenuHistoryQuestionAsksStatus()
    ensures Classify(Lower("Show me the tracking history")) == CurrentStatus
  {
    HistoryQuestionWords();
    HistoryQuestionLacksWhere();
    HistoryQuestionLacksLocation();
    HistoryQuestionLacksWhen();
    HistoryQuestionLacksDelivery();
    HistoryQuestionLacksArrive();
    HistoryQuestionHasTracking();
  }

  lemma GreetingLacksLocationAndDate()
    ensures var q := Lower("Hello");
      && !Contains(q, "where") && !Contains(q, "location")
      && !Contains(q, "when") && !Contains(q, "delivery") && !Contains(q, "arrive")
  {
    WordLacks("Hello", "where", 0);
    WordLacks("Hello", "location", 2);
    WordLacks("Hello", "when", 0);
    WordLacks("Hello", "delivery", 0);
    WordLacks("Hello", "arrive", 0);
  }

  lemma GreetingLacksStatusAndHistory()
    ensures var q := Lower("Hello");
      && !Contains(q, "status") && !Contains(q, "tracking")
      && !Contains(q, "history") && !Contains(q, "updates")
  {
    WordLacks("Hello", "status", 0);
    WordLacks("Hello", "tracking", 0);
    WordLacks("Hello", "history", 1);
    WordLacks("Hello", "updates", 0);
  }

  /** A question with none of the keywords gets the fallback answer. */
  lemma GreetingFallsBack()
    ensures Classify(Lower("Hello")) == Fallback
  {
    GreetingLacksLocationAndDate();
    GreetingLacksStatusAndHistory();
  }

  // The menu's fourth option as evidently intended: "Show me the history".

  lemma HistoryOnlyQuestionWords()
    ensures "Show me the history" == "Show" + " " + "me" + " " + "the" + " " + "history"
  {
  }

  lemma HistoryOnlyQuestionLacksWhere()
    ensures !Contains(Lower("Show" + " " + "me" + " " + "the" + " " + "history"), "where")
  {
    LacksInFour("where", "Show", 2, "me", 0, "the", 0, "history", 0);
  }

  lemma HistoryOnlyQuestionLacksLocation()
    ensures !Contains(Lower("Show" + " " + "me" + " " + "the" + " " + "history"), "location")
  {
    LacksInFour("location", "Show", 0, "me", 0, "the", 0, "history", 0);
  }

  lemma HistoryOnlyQuestionLacksWhen()
    ensures !Contains(Lower("Show" + " " + "me" + " " + "the" + " " + "history"), "when")
  {
    LacksInFour("when", "Show", 2, "me", 0, "the", 0, "history", 0);
  }

  lemma HistoryOnlyQuestionLacksDelivery()
    ensures !Contains(Lower("Show" + " " + "me" + " " + "the" + " " + "history"), "delivery")
  {
    LacksInFour("delivery", "Show", 0, "me", 0, "the", 0, "history", 0);
  }

  lemma HistoryOnlyQuestionLacksArrive()
    ensures !Contains(Lower("Show" + " " + "me" + " " + "the" + " " + "history"), "arrive")
  {
    LacksInFour("arrive", "Show", 4, "me", 4, "the", 4, "history", 4);
  }

  lemma HistoryOnlyQuestionLacksStatus()
    ensures !Contains(Lower("Show" + " " + "me" + " " + "the" + " " + "history"), "status")
  {
    LacksInFour("status", "Show", 4, "me", 4, "the", 4, "history", 4);
  }

  lemma HistoryOnlyQuestionLacksTracking()
    ensures !Contains(Lower("Show" + " " + "me" + " " + "the" + " " + "history"), "tracking")
  {
    LacksInFour("tracking", "Show", 4, "me", 4, "the", 4, "history", 4);
  }

  lemma HistoryOnlyQuestionHasHistory()
    ensures Contains(Lower("Show" + " " + "me" + " " + "the" + " " + "history"), "history")
  {
    WordStarts("history", "history");
    HasInFour("Show", "me", "the", "history", "history");
  }

  /** "Show me the history" has none of the location, delivery-date or status
      keywords, so it reaches the history answer. */
  lemma HistoryOnlyQuestionAsksHistory()
    ensures Classify(Lower("Show me the history")) == History
  {
    HistoryOnlyQuestionWords();
    HistoryOnlyQuestionLacksWhere();
    HistoryOnlyQuestionLacksLocation();
    HistoryOnlyQuestionLacksWhen();
    HistoryOnlyQuestionLacksDelivery();
    HistoryOnlyQuestionLacksArrive();
    HistoryOnlyQuestionLacksStatus();
    HistoryOnlyQuestionLacksTracking();
    HistoryOnlyQuestionHasHistory();
  }

  // The console menu's question options.

  /** What each numbered option of the question menu says it shows. */
  function MenuLabel(choice: string): Option<Intent>
  {
    if choice == "1" then Some(CurrentStatus)
    else if choice == "2" then Some(Location)
    else if choice == "3" then Some(Eta)
    else if choice == "4" then Some(History)
    else None
  }

  /** The question the menu sends for each option, as written. */
  function MenuQuestion(choice: string): (r: Option<string>)
    ensures r.Some? <==> MenuLabel(choice).Some?
  {
    if choice == "1" then Some("What is the status?")
    else if choice == "2" then Some("Where is my order?")
    else if choice == "3" then Some("When will it arrive?")
    else if choice == "4" then Some("Show me the tracking history")
    else None
  }

  /** The menu as written: options 1 to 3 get the answer their label promises,
      but option 4, labelled as the tracking history, gets the current status,
      because "tracking" is tested before "history". */
  lemma MenuAsWritten(choice: string)
    requires MenuLabel(choice).Some?
    ensures choice != "4" ==> Classify(Lower(MenuQuestion(choice).value)) == MenuLabel(choice).value
    ensures choice == "4" ==> Classify(Lower(MenuQuestion(choice).value)) == CurrentStatus != MenuLabel(choice).value
  {
    if choice == "1" {
      StatusQuestionAsksStatus();
    } else if choice == "2" {
      LocationQuestionAsksLocation();
    } else if choice == "3" {
      ArriveQuestionAsksWhen();
    } else {
      MenuHistoryQuestionAsksStatus();
    }
  }

  /** The question each option evidently should send: option 4 without the word
      "tracking". */
  function IntendedMenuQuestion(choice: string): (r: Option<string>)
    ensures r.Some? <==> MenuLabel(choice).Some?
  {
    if choice == "4" then Some("Show me the history") else MenuQuestion(choice)
  }

  /** With the intended question for option 4, every option gets the answer its
      label promises. */
  lemma IntendedMenuMatchesLabels(choice: string)
    requires MenuLabel(choice).Some?
    ensures Classify(Lower(IntendedMenuQuestion(choice).value)) == MenuLabel(choice).value
  {
    if choice == "1" {
      StatusQuestionAsksStatus();
    } else if choice == "2" {
      LocationQuestionAsksLocation();
    } else if choice == "3" {
      ArriveQuestionAsksWhen();
    } else {
      HistoryOnlyQuestionAsksHistory();
    }
  }

  // The updates the menu applies to every order it creates.

  function DemoScript(t0: Time, t1: Time, t2: Time): seq<Update>
  {
    [Update(Processing, None, t0),
     Update(Shipped, Some("Warehouse A"), t1),
     Update(InTransit, Some("Distribution Center B"), t2)]
  }

  /** Applies the menu's three updates to an order, at the given times. */
  method RunDemo(order: Order, t0: Time, t1: Time, t2: Time)
    requires order.State() == Initial
    modifies order
    ensures order.State() == Replay(DemoScript(t0, t1, t2))
    ensures order.Valid()
  {
    DemoPrefixes(t0, t1, t2);
    order.UpdateStatus(Processing, None, t0);
    order.UpdateStatus(Shipped, Some("Warehouse A"), t1);
    order.UpdateStatus(InTransit, Some("Distribution Center B"), t2);
  }

  /** The demo's tracking state, one call at a time. */
  lemma DemoPrefixes(t0: Time, t1: Time, t2: Time)
    ensures var script := DemoScript(t0, t1, t2);
      Replay(script) == Apply(Apply(Apply(Initial, script[0]), script[1]), script[2])
  {
    var script := DemoScript(t0, t1, t2);
    assert script[..1][..0] == [];
    assert script[..2][..1] == script[..1];
    assert script[..2] == script[..|script| - 1];
    assert Replay(script[..1]) == Apply(Initial, script[0]);
    assert Replay(script[..2]) == Apply(Replay(script[..1]), script[1]);
  }

  /** After the demo the order is in transit at the distribution center, with one
      entry per call; the first entry has no location and does not clear it. */
  lemma DemoState(t0: Time, t1: Time, t2: Time)
    ensures Replay(DemoScript(t0, t1, t2))
         == Tracking(InTransit, "Distribution Center B",
                     [TrackingUpdate(t0, "Processing", None),
                      TrackingUpdate(t1, "Shipped", Some("Warehouse A")),
                      TrackingUpdate(t2, "In Transit", Some("Distribution Center B"))])
  {
    DemoPrefixes(t0, t1, t2);
  }

  /** Asked where the demo order is, the answer names the distribution center. */
  lemma DemoLocationAnswer(t0: Time, t1: Time, t2: Time, eta: Time, stamp: Time -> string, longDate: Time -> string)
    ensures Answer("Where is my order?", Replay(DemoScript(t0, t1, t2)), eta, stamp, longDate)
         == "Your order is currently " + "Distribution Center B"
  {
    DemoState(t0, t1, t2);
    LocationQuestionAsksLocation();
  }

  /** Asked for the status, the answer is the display text of In Transit. */
  lemma DemoStatusAnswer(t0: Time, t1: Time, t2: Time, eta: Time, stamp: Time -> string, longDate: Time -> string)
    ensures Answer("What is the status?", Replay(DemoScript(t0, t1, t2)), eta, stamp, longDate)
         == "Your order is currently " + "In Transit"
  {
    DemoState(t0, t1, t2);
    StatusQuestionAsksStatus();
  }

  /** The menu's first option followed by a location question: create an order in
      the registry, apply the demo updates to the filed order, then ask where it is.
      The registry stays valid and the answer names the distribution center. */
  method DemoSession(sys: ShippingQuerySystem, customerId: string, items: seq<string>, draw: int,
                     now: Time, t0: Time, t1: Time, t2: Time,
                     stamp: Time -> string, longDate: Time -> string)
    returns (orderId: string, reply: string)
    requires sys.Valid()
    requires MinDraw <= draw <= MaxDraw
    modifies sys
    ensures orderId == OrderId(draw) && orderId in sys.orders
    ensures sys.orders[orderId].State() == Replay(DemoScript(t0, t1, t2))
    ensures sys.Valid()
    ensures reply == "Your order is currently " + "Distribution Center B"
  {
    orderId := sys.CreateOrder(customerId, items, draw, now);
    RunDemo(sys.orders[orderId], t0, t1, t2);
    reply := sys.ProcessQuery("Where is my order?", orderId, stamp, longDate);
    DemoLocationAnswer(t0, t1, t2, sys.orders[orderId].estimatedDelivery, stamp, longDate);
  }
}
