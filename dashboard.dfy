/** The client's blood-request dashboard: the status tab filter, the tab
    counters and the two display mappings. Absent strings are held as `""`,
    which the source treats as falsy. */
module Dashboard {
  import opened Common
  import opened JsText
  import Models

  /** What the dashboard reads of a request: its status, the `urgency` the
      cards display (set only on the built-in sample requests) and the
      server's `urgencyLevel` (absent on the samples). */
  datatype RequestCard = RequestCard(id: Id, status: string, urgency: string, urgencyLevel: string)

  /** A request as `my-requests` returns it: the document has no `urgency`
      property, only `urgencyLevel`. */
  function CardOf(request: Models.BloodRequest): (card: RequestCard)
    reads request
    ensures card.id == request.id && card.status == Models.RequestStatusName(request.status)
    ensures card.urgency == "" && card.urgencyLevel == request.urgencyLevel
  {
    RequestCard(request.id, Models.RequestStatusName(request.status), "", request.urgencyLevel)
  }

  const AllTab := "all"

  /** The status a card is filed under: its lower-cased status. */
  function TabOf(card: RequestCard): string
  {
    ToLower(card.status)
  }

  predicate ShownUnder(card: RequestCard, tab: string)
  {
    tab == AllTab || TabOf(card) == tab
  }

  /** `filteredRequests`: the cards of the active tab, in their order. */
  function FilteredRequests(requests: seq<RequestCard>, tab: string): (shown: seq<RequestCard>)
    ensures IsSubsequence(shown, requests)
    ensures forall i :: 0 <= i < |shown| ==> ShownUnder(shown[i], tab)
    ensures forall i :: 0 <= i < |requests| && ShownUnder(requests[i], tab) ==> requests[i] in shown
  {
    if requests == [] then []
    else if ShownUnder(requests[0], tab) then [requests[0]] + FilteredRequests(requests[1..], tab)
    else FilteredRequests(requests[1..], tab)
  }

  /** The `all` tab shows everything. */
  lemma {:induction false} AllTabShowsEverything(requests: seq<RequestCard>)
    ensures FilteredRequests(requests, AllTab) == requests
  {
    if requests != [] {
      AllTabShowsEverything(requests[1..]);
    }
  }

  /** The filter ignores the case of the stored status. */
  lemma FilterIgnoresCase(tab: string, card: RequestCard)
    ensures ShownUnder(card, tab) <==> ShownUnder(card.(status := ToLower(card.status)), tab)
  {
    ToLowerIdempotent(card.status);
  }

  // ---------------------------------------------------------------------------
  // Display mappings

  /** `getStatusDisplay(status).text` */
  function StatusDisplay(status: string): (text: string)
    ensures text in {"Pending", "Approved", "In Progress", "Completed", "Cancelled", "Unknown"}
    ensures text == "Pending" <==> ToLower(status) == "pending"
    ensures text == "Approved" <==> ToLower(status) == "approved"
    ensures text == "Completed" <==> ToLower(status) == "completed"
    ensures text == "In Progress" <==> ToLower(status) in {"in-progress", "fulfilled"}
    ensures text == "Cancelled" <==> ToLower(status) in {"cancelled", "expired"}
    ensures text == "Unknown" <==>
              ToLower(status) !in {"pending", "approved", "in-progress", "fulfilled", "completed", "cancelled", "expired"}
  {
    var s := ToLower(status);
    if s == "pending" then "Pending"
    else if s == "approved" then "Approved"
    else if s == "in-progress" || s == "fulfilled" then "In Progress"
    else if s == "completed" then "Completed"
    else if s == "cancelled" || s == "expired" then "Cancelled"
    else "Unknown"
  }

  /** `getUrgencyDisplay(urgency).text` */
  function UrgencyDisplay(urgency: string): (text: string)
    ensures text in {"Critical", "Urgent", "Normal"}
    ensures text == "Critical" <==> ToLower(urgency) in {"critical", "high"}
    ensures text == "Urgent" <==> ToLower(urgency) in {"urgent", "medium"}
  {
    var u := ToLower(urgency);
    if u == "critical" || u == "high" then "Critical"
    else if u == "urgent" || u == "medium" then "Urgent"
    else "Normal"
  }

  /** Both mappings see a string and its lower-cased form alike. */
  lemma DisplaysIgnoreCase(s: string)
    ensures StatusDisplay(ToLower(s)) == StatusDisplay(s)
    ensures UrgencyDisplay(ToLower(s)) == UrgencyDisplay(s)
  {
    ToLowerIdempotent(s);
  }

  /** How the server's statuses are displayed: none is `Unknown`, and a
      fulfilled request is shown as in progress. */
  lemma ServerStatusesDisplay()
    ensures StatusDisplay(Models.RequestStatusName(Models.Pending)) == "Pending"
    ensures StatusDisplay(Models.RequestStatusName(Models.Approved)) == "Approved"
    ensures StatusDisplay(Models.RequestStatusName(Models.Fulfilled)) == "In Progress"
    ensures StatusDisplay(Models.RequestStatusName(Models.Cancelled)) == "Cancelled"
    ensures StatusDisplay(Models.RequestStatusName(Models.Expired)) == "Cancelled"
  {
    LowerServerNames();
  }

  /** The urgency badge as written: `getUrgencyDisplay(request.urgency)`. */
  function CardUrgency(card: RequestCard): (text: string)
    ensures card.urgency == "" ==> text == "Normal"
  {
    UrgencyDisplay(card.urgency)
  }

  /** The discrepancy: every request the server returns lacks `urgency`, so
      its badge reads `Normal` whatever its urgency level. */
  lemma ServerRequestsShowNormal(request: Models.BloodRequest)
    ensures CardUrgency(CardOf(request)) == "Normal"
  {
  }

  /** A `Critical` request from the server, shown as written and as
      intended. */
  lemma CriticalRequestShownAsNormal()
    ensures var card := RequestCard("r1", "Pending", "", "Critical");
            CardUrgency(card) == "Normal" && CardUrgencyIntended(card) == "Critical"
  {
    LowerServerNames();
  }

  /** The urgency badge as intended: the card's `urgency` when set, the
      server's `urgencyLevel` otherwise. */
  function CardUrgencyIntended(card: RequestCard): (text: string)
    ensures card.urgency != "" ==> text == CardUrgency(card)
    ensures card.urgency == "" ==> text == UrgencyDisplay(card.urgencyLevel)
  {
    UrgencyDisplay(if card.urgency != "" then card.urgency else card.urgencyLevel)
  }

  /** Under the intended badge, each server urgency level is shown by its own
      badge: `Low` as normal, `Medium` as urgent, `High` and `Critical` as
      critical. */
  lemma ServerUrgenciesShownAsIntended(request: Models.BloodRequest)
    requires request.urgencyLevel in {"Low", "Medium", "High", "Critical"}
    ensures CardUrgencyIntended(CardOf(request)) == "Critical" <==> request.urgencyLevel in {"High", "Critical"}
    ensures CardUrgencyIntended(CardOf(request)) == "Urgent" <==> request.urgencyLevel == "Medium"
    ensures CardUrgencyIntended(CardOf(request)) == "Normal" <==> request.urgencyLevel == "Low"
  {
    LowerServerNames();
  }

  /** The lower-cased forms of the server's status and urgency names. */
  lemma LowerServerNames()
    ensures ToLower("Pending") == "pending" && ToLower("Approved") == "approved"
    ensures ToLower("Fulfilled") == "fulfilled" && ToLower("Cancelled") == "cancelled"
    ensures ToLower("Expired") == "expired"
    ensures ToLower("Low") == "low" && ToLower("Medium") == "medium"
    ensures ToLower("High") == "high" && ToLower("Critical") == "critical"
  {
    assert LowerChar('P') == 'p' && LowerChar('A') == 'a' && LowerChar('F') == 'f';
    assert LowerChar('C') == 'c' && LowerChar('E') == 'e' && LowerChar('L') == 'l';
    assert LowerChar('M') == 'm' && LowerChar('H') == 'h';
  }

  // ---------------------------------------------------------------------------
  // Tab counters

  /** The number of cards whose status is exactly `key`. */
  function CountExact(requests: seq<RequestCard>, key: string): (n: nat)
    ensures n <= |requests|
    ensures n == 0 <==> forall i :: 0 <= i < |requests| ==> requests[i].status != key
  {
    if requests == [] then 0
    else (if requests[0].status == key then 1 else 0) + CountExact(requests[1..], key)
  }

  /** The tab counter as written: `all` counts every card, any other tab the
      cards whose status equals the lower-case key exactly. */
  function TabCount(requests: seq<RequestCard>, key: string): (n: nat)
    ensures key == AllTab ==> n == |requests|
    ensures n <= |requests|
  {
    if key == AllTab then |requests| else CountExact(requests, key)
  }

  /** The tab counter as intended: the number of cards the tab shows. */
  function TabCountIntended(requests: seq<RequestCard>, key: string): (n: nat)
    ensures n <= |requests|
  {
    if requests == [] then 0
    else (if ShownUnder(requests[0], key) then 1 else 0) + TabCountIntended(requests[1..], key)
  }

  /** The intended counter always agrees with the list under the tab. */
  lemma {:induction false} IntendedCountMatchesFilter(requests: seq<RequestCard>, key: string)
    ensures TabCountIntended(requests, key) == |FilteredRequests(requests, key)|
    ensures key == AllTab ==> TabCountIntended(requests, key) == TabCount(requests, key)
  {
    if requests != [] {
      IntendedCountMatchesFilter(requests[1..], key);
    }
  }

  /** The discrepancy: the server stores `Pending`, which the `pending` tab
      shows but its counter does not count. */
  lemma PendingTabMiscounts()
    ensures var requests := [RequestCard("r1", Models.RequestStatusName(Models.Pending), "", "Medium")];
            TabCount(requests, "pending") == 0
            && |FilteredRequests(requests, "pending")| == 1
            && TabCountIntended(requests, "pending") == 1
  {
    var requests := [RequestCard("r1", "Pending", "", "Medium")];
    LowerServerNames();
    assert requests[1..] == [];
  }

  /** None of the server's statuses is filed under the `in-progress` or the
      `completed` tab. */
  lemma {:induction false} ServerStatusesMissTwoTabs(requests: seq<RequestCard>)
    requires forall i :: 0 <= i < |requests| ==> Models.ParseRequestStatus(requests[i].status).Some?
    ensures FilteredRequests(requests, "in-progress") == []
    ensures FilteredRequests(requests, "completed") == []
  {
    if requests != [] {
      var s := requests[0].status;
      assert ToLower(s) in {"pending", "approved", "fulfilled", "cancelled", "expired"} by {
        LowerServerNames();
      }
      ServerStatusesMissTwoTabs(requests[1..]);
    }
  }
}
