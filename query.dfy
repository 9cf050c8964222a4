/** `process_query` once the order is found: classify the lower-cased question by
    keyword, first match wins, and render the answer from the order's fields. */
module Query {
  import opened Common
  import opened Text
  import opened ShippingStatus
  import opened Orders

  /** What a question asks about. */
  datatype Intent = Location | Eta | CurrentStatus | History | Fallback

  /** The keywords that select each intent (none select the fallback). */
  function Keywords(i: Intent): seq<string>
  {
    match i
    case Location => ["where", "location"]
    case Eta => ["when", "delivery", "arrive"]
    case CurrentStatus => ["status", "tracking"]
    case History => ["history", "updates"]
    case Fallback => []
  }

  /** The position of each intent in the if/elif chain. */
  function Rank(i: Intent): nat
  {
    match i
    case Location => 0
    case Eta => 1
    case CurrentStatus => 2
    case History => 3
    case Fallback => 4
  }

  /** The if/elif chain over an already lower-cased question. The result is the
      earliest intent one of whose keywords occurs, or the fallback when none does. */
  function Classify(q: string): (r: Intent)
    ensures r != Fallback ==> MentionsAny(q, Keywords(r))
    ensures forall j: Intent :: Rank(j) < Rank(r) ==> !MentionsAny(q, Keywords(j))
  {
    if Contains(q, "where") || Contains(q, "location") then
      assert Keywords(Location)[0] == "where" && Keywords(Location)[1] == "location";
      Location
    else if Contains(q, "when") || Contains(q, "delivery") || Contains(q, "arrive") then
      assert Keywords(Eta)[0] == "when" && Keywords(Eta)[1] == "delivery" && Keywords(Eta)[2] == "arrive";
      Eta
    else if Contains(q, "status") || Contains(q, "tracking") then
      assert Keywords(CurrentStatus)[0] == "status" && Keywords(CurrentStatus)[1] == "tracking";
      CurrentStatus
    else if Contains(q, "history") || Contains(q, "updates") then
      assert Keywords(History)[0] == "history" && Keywords(History)[1] == "updates";
      History
    else
      Fallback
  }

  const NotFoundReply: string :=
    "I'm sorry, " + "but I couldn't find an order with that ID. Please verify your order number and try again."
  const CurrentlyPrefix: string := "Your order is currently "
  const NoLocationReply: string := "Location information is not available yet."
  const EtaPrefix: string := "Your order is estimated to be delivered by "
  const HistoryHeader: string := "Tracking history for your order:"

  /** One history line, `- <stamp>: <status> <location or nothing>`; the space
      before the location is there even when the location is not. */
  function HistoryLine(e: TrackingUpdate, stamp: Time -> string): string
  {
    "- " + stamp(e.timestamp) + ": " + e.status + " " + (if Truthy(e.location) then e.location.value else "")
  }

  /** The list comprehension: one line per entry, in history order. */
  function HistoryLines(h: seq<TrackingUpdate>, stamp: Time -> string): seq<string>
  {
    seq(|h|, k requires 0 <= k < |h| => HistoryLine(h[k], stamp))
  }

  /** The answer for an intent, from the order's tracking state and estimated delivery.
      `stamp` stands for `strftime('%Y-%m-%d %H:%M')`, `longDate` for `strftime('%B %d, %Y')`. */
  function Render(i: Intent, t: Tracking, eta: Time, stamp: Time -> string, longDate: Time -> string): string
  {
    match i
    case Location =>
      if t.currentLocation != "" then CurrentlyPrefix + t.currentLocation else NoLocationReply
    case Eta => EtaPrefix + longDate(eta)
    case CurrentStatus => CurrentlyPrefix + Value(t.status)
    case History => HistoryHeader + "\n" + JoinLines(HistoryLines(t.trackingUpdates, stamp))
    case Fallback => "Current status: " + Value(t.status) + ". Estimated delivery: " + longDate(eta)
  }

  /** The answer to `query` about a found order. */
  function Answer(query: string, t: Tracking, eta: Time, stamp: Time -> string, longDate: Time -> string): string
  {
    Render(Classify(Lower(query)), t, eta, stamp, longDate)
  }

  /** A found order's answer never starts the way the apology for an unknown id
      does, so a caller can always tell the two apart. */
  lemma AnswerIsNotApology(query: string, t: Tracking, eta: Time, stamp: Time -> string, longDate: Time -> string)
    ensures |Answer(query, t, eta, stamp, longDate)| > 0
    ensures Answer(query, t, eta, stamp, longDate)[0] != NotFoundReply[0]
  {
    var r := Answer(query, t, eta, stamp, longDate);
    assert NotFoundReply[0] == 'I';
    match Classify(Lower(query))
    case Location =>
      if t.currentLocation != "" {
        assert r[0] == CurrentlyPrefix[0];
      } else {
        assert r == NoLocationReply;
      }
    case Eta => assert r[0] == EtaPrefix[0] == 'Y';
    case CurrentStatus => assert r[0] == CurrentlyPrefix[0];
    case History => assert r[0] == HistoryHeader[0];
    case Fallback => assert r[0] == 'C';
  }

  /** Matching ignores case: a question and its lower-cased form get the same answer. */
  lemma AnswerIgnoresCase(query: string, t: Tracking, eta: Time, stamp: Time -> string, longDate: Time -> string)
    ensures Answer(query, t, eta, stamp, longDate) == Answer(Lower(query), t, eta, stamp, longDate)
  {
    LowerIdempotent(query);
  }

  /** Entries whose parts carry no line break. */
  predicate PrintableHistory(h: seq<TrackingUpdate>)
  {
    forall k :: 0 <= k < |h| ==> '\n' !in h[k].status && (h[k].location.Some? ==> '\n' !in h[k].location.value)
  }

  /** The history answer is the header line followed by exactly one line per entry,
      oldest first; with no entries it is the header and an empty line. */
  lemma HistoryAnswerLines(t: Tracking, eta: Time, stamp: Time -> string, longDate: Time -> string)
    requires forall x :: '\n' !in stamp(x)
    requires PrintableHistory(t.trackingUpdates)
    ensures var r := Render(History, t, eta, stamp, longDate);
      && (t.trackingUpdates != [] ==> SplitLines(r) == [HistoryHeader] + HistoryLines(t.trackingUpdates, stamp))
      && (t.trackingUpdates == [] ==> SplitLines(r) == [HistoryHeader, ""])
  {
    var lines := HistoryLines(t.trackingUpdates, stamp);
    if lines == [] {
      assert Render(History, t, eta, stamp, longDate) == JoinLines([HistoryHeader, ""]);
      SplitJoin([HistoryHeader, ""]);
    } else {
      var all := [HistoryHeader] + lines;
      assert all[1..] == lines;
      assert Render(History, t, eta, stamp, longDate) == JoinLines(all);
      forall k | 0 <= k < |all|
        ensures '\n' !in all[k]
      {
        if k > 0 {
          assert all[k] == HistoryLine(t.trackingUpdates[k - 1], stamp);
        }
      }
      SplitJoin(all);
    }
  }

  /** An order whose updates passed locations free of line breaks has a printable
      history: its entries' status texts never hold one. */
  lemma ReplayPrintable(us: seq<Update>)
    requires forall k :: 0 <= k < |us| && us[k].location.Some? ==> '\n' !in us[k].location.value
    ensures PrintableHistory(Replay(us).trackingUpdates)
  {
    ReplayHistory(us);
    forall st: Status
      ensures '\n' !in Value(st)
    {
      ValueSingleLine(st);
    }
  }

  /** After one or more calls whose locations hold no line break, with timestamps
      that hold none either, the history answer is the header followed by one line
      per call, in call order. */
  lemma HistoryAnswerAfter(us: seq<Update>, eta: Time, stamp: Time -> string, longDate: Time -> string)
    requires forall x :: '\n' !in stamp(x)
    requires forall k :: 0 <= k < |us| && us[k].location.Some? ==> '\n' !in us[k].location.value
    requires us != []
    ensures var lines := SplitLines(Render(History, Replay(us), eta, stamp, longDate));
      && |lines| == |us| + 1 && lines[0] == HistoryHeader
      && forall k :: 0 <= k < |us| ==> lines[k + 1] == HistoryLine(Entry(us[k]), stamp)
  {
    ReplayPrintable(us);
    ReplayHistory(us);
    HistoryAnswerLines(Replay(us), eta, stamp, longDate);
  }

  /** An update extends a non-empty history answer by exactly the new entry's line. */
  lemma HistoryAnswerGrows(t: Tracking, u: Update, eta: Time, stamp: Time -> string, longDate: Time -> string)
    requires t.trackingUpdates != []
    ensures Render(History, Apply(t, u), eta, stamp, longDate)
         == Render(History, t, eta, stamp, longDate) + "\n" + HistoryLine(Entry(u), stamp)
  {
    var h := t.trackingUpdates;
    assert HistoryLines(h + [Entry(u)], stamp) == HistoryLines(h, stamp) + [HistoryLine(Entry(u), stamp)];
    JoinLinesSnoc(HistoryLines(h, stamp), HistoryLine(Entry(u), stamp));
  }

  /** A location question about an order after the calls `us` names the last truthy
      location passed, or says none is available when none was. */
  lemma LocationAnswerAfter(query: string, us: seq<Update>, eta: Time, stamp: Time -> string, longDate: Time -> string)
    requires Classify(Lower(query)) == Location
    ensures (forall k :: 0 <= k < |us| ==> !Truthy(us[k].location))
            ==> Answer(query, Replay(us), eta, stamp, longDate) == NoLocationReply
    ensures forall k :: 0 <= k < |us| && Truthy(us[k].location)
                        && (forall j :: k < j < |us| ==> !Truthy(us[j].location))
                        ==> Answer(query, Replay(us), eta, stamp, longDate) == CurrentlyPrefix + us[k].location.value
  {
    ReplayState(us);
  }

  /** A status question about an order after the calls `us` names the last status
      passed, or `Processing` before any call. */
  lemma StatusAnswerAfter(query: string, us: seq<Update>, eta: Time, stamp: Time -> string, longDate: Time -> string)
    requires Classify(Lower(query)) == CurrentStatus
    ensures us == [] ==> Answer(query, Replay(us), eta, stamp, longDate) == CurrentlyPrefix + "Processing"
    ensures us != [] ==> Answer(query, Replay(us), eta, stamp, longDate) == CurrentlyPrefix + Value(us[|us| - 1].status)
  {
    ReplayState(us);
  }

  /** The fallback answer mentions both the current status and the estimated delivery date. */
  lemma FallbackMentionsStatusAndDate(t: Tracking, eta: Time, stamp: Time -> string, longDate: Time -> string)
    ensures Contains(Render(Fallback, t, eta, stamp, longDate), Value(t.status))
    ensures Contains(Render(Fallback, t, eta, stamp, longDate), longDate(eta))
  {
    var r := Render(Fallback, t, eta, stamp, longDate);
    var a := "Current status: ";
    var b := ". Estimated delivery: ";
    assert r == a + Value(t.status) + b + longDate(eta);
    assert OccursAt(r, Value(t.status), |a|) by {
      assert r[|a|..|a| + |Value(t.status)|] == Value(t.status);
    }
    var n := |a| + |Value(t.status)| + |b|;
    assert OccursAt(r, longDate(eta), n) by {
      assert r[n..n + |longDate(eta)|] == longDate(eta);
    }
  }
}
