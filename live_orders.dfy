/**
 * The live-order board: a list of orders that the operator advances through
 * Pending, Preparing, Ready and Served, walk-in orders entered through a form,
 * and a single "last action" notice that every action overwrites.
 */
module LiveOrders {
  import opened Wrappers
  import opened Text
  import Seqs

  datatype Status = Pending | Preparing | Ready | Served

  /** The status as it is displayed and put into notices. */
  function StatusName(s: Status): (name: string)
    ensures name == "Pending" || name == "Preparing" || name == "Ready" || name == "Served"
  {
    match s
    case Pending => "Pending"
    case Preparing => "Preparing"
    case Ready => "Ready"
    case Served => "Served"
  }

  /** An order on the board; `guests` and `rush` are absent on the seeded orders. */
  datatype Order = Order(
    id: string,
    table: string,
    items: string,
    status: Status,
    time: string,
    guests: Option<int>,
    rush: Option<bool>)

  /** The orders the board starts with. */
  const InitialOrders: seq<Order> := [
    Order("ORD-5124", "T08", "2x Truffle Pasta, 1x Citrus Spritz", Preparing, "5 min ago", None, None),
    Order("ORD-5125", "T03", "1x Vegan Bowl", Pending, "Just now", None, None),
    Order("ORD-5121", "T14", "3x Sushi Flight", Ready, "2 min ago", None, None)
  ]

  /** The one place the order of the statuses is written down. */
  const StatusSteps: seq<Status> := [Pending, Preparing, Ready, Served]

  /** `STATUS_STEPS[STATUS_STEPS.indexOf(s) + 1] ?? s`. */
  function NextStatus(s: Status): (next: Status)
    ensures Rank(next) == if s == Served then Rank(s) else Rank(s) + 1
  {
    assert StatusSteps[0] == Pending && StatusSteps[1] == Preparing;
    assert StatusSteps[2] == Ready && StatusSteps[3] == Served;
    var i := Seqs.IndexOf(StatusSteps, s);
    assert i == Rank(s);
    if i + 1 < |StatusSteps| then StatusSteps[i + 1] else s
  }

  /** The position of a status in the lifecycle, written independently of `StatusSteps`. */
  function Rank(s: Status): (n: nat)
    ensures n <= 3
  {
    match s
    case Pending => 0
    case Preparing => 1
    case Ready => 2
    case Served => 3
  }

  /** Every status but Served moves exactly one step on; Served is the only fixed point. */
  lemma NextStatusStep(s: Status)
    ensures s != Served ==> Rank(NextStatus(s)) == Rank(s) + 1
    ensures s == Served ==> NextStatus(s) == Served
    ensures NextStatus(s) == s <==> s == Served
  {
  }

  /** The lookup, status by status. */
  lemma NextStatusTable()
    ensures NextStatus(Pending) == Preparing && NextStatus(Preparing) == Ready
    ensures NextStatus(Ready) == Served && NextStatus(Served) == Served
  {
    NextStatusStep(Pending);
    NextStatusStep(Preparing);
    NextStatusStep(Ready);
    NextStatusStep(Served);
  }

  /** Three steps take Pending to Served, and further steps stay there. */
  lemma PendingReachesServed()
    ensures NextStatus(Pending) == Preparing
    ensures NextStatus(NextStatus(Pending)) == Ready
    ensures NextStatus(NextStatus(NextStatus(Pending))) == Served
    ensures NextStatus(NextStatus(NextStatus(NextStatus(Pending)))) == Served
  {
    NextStatusTable();
  }

  /** The label of an order's action button. */
  function AdvanceLabel(s: Status): (caption: string)
    ensures caption == "Completed" <==> NextStatus(s) == s
    ensures caption == "Advance" <==> NextStatus(s) != s
  {
    NextStatusStep(s);
    if s == Served then "Completed" else "Advance"
  }

  // ----- Advancing an order -----

  /** The notice when an order moves on to `next`. */
  function MovedNotice(id: string, next: Status): (notice: string)
    ensures "Order " + id + " moved to " <= notice && notice[|notice| - 1] == '.'
  {
    "Order " + id + " moved to " + StatusName(next) + "."
  }

  /** The notice when an order has nowhere further to go. */
  function AlreadyServedNotice(id: string): (notice: string)
    ensures "Order " + id + " " <= notice && notice[|notice| - 1] == '.'
  {
    "Order " + id + " already served."
  }

  /** The two kinds of notice about the same order never coincide. */
  lemma NoticesDiffer(id: string, next: Status)
    ensures MovedNotice(id, next) != AlreadyServedNotice(id)
  {
    var i := |"Order " + id + " "|;
    assert MovedNotice(id, next)[i] == 'm';
    assert AlreadyServedNotice(id)[i] == 'a';
  }

  /** The notice written for a matching order. */
  function AdvanceNotice(o: Order): (notice: string)
    ensures o.status == Served ==> notice == AlreadyServedNotice(o.id)
    ensures o.status != Served ==> notice == MovedNotice(o.id, NextStatus(o.status))
  {
    NextStatusStep(o.status);
    var next := NextStatus(o.status);
    if next == o.status then AlreadyServedNotice(o.id) else MovedNotice(o.id, next)
  }

  /** What advancing `target` does to one order of the list. */
  function AdvanceOrder(o: Order, target: string): (r: Order)
    ensures o.id != target ==> r == o
    ensures r == o.(status := r.status)
    ensures o.id == target ==> r.status == NextStatus(o.status)
  {
    if o.id != target then o
    else
      var next := NextStatus(o.status);
      if next == o.status then o else o.(status := next)
  }

  /** The list after advancing `target`: `prev.map(...)`. */
  function AdvanceAll(orders: seq<Order>, target: string): (r: seq<Order>)
    ensures |r| == |orders|
  {
    seq(|orders|, k requires 0 <= k < |orders| => AdvanceOrder(orders[k], target))
  }

  /**
   * Advancing keeps the list's length and order: an order whose id differs
   * is unchanged, and a matching one differs from before at most in its
   * status, which is the next one in the lifecycle.
   */
  lemma AdvanceOnlyTarget(orders: seq<Order>, target: string)
    ensures var r := AdvanceAll(orders, target);
      |r| == |orders| &&
      (forall k :: 0 <= k < |orders| && orders[k].id != target ==> r[k] == orders[k]) &&
      (forall k :: 0 <= k < |orders| ==> r[k] == orders[k].(status := r[k].status)) &&
      (forall k :: 0 <= k < |orders| && orders[k].id == target ==> r[k].status == NextStatus(orders[k].status))
  {
  }

  /**
   * The notice after advancing `target`, visiting the orders from the first
   * to the last: each matching order overwrites it, so the last match wins,
   * and without a match it stays `prior`.
   */
  function NoticeAfter(orders: seq<Order>, target: string, prior: Option<string>): (notice: Option<string>)
    ensures prior.Some? ==> notice.Some?
  {
    if orders == [] then prior
    else NoticeAfter(orders[1..], target, if orders[0].id == target then Some(AdvanceNotice(orders[0])) else prior)
  }

  /** Order `k` carries `target` and no later order does. */
  predicate LastMatchAt(orders: seq<Order>, target: string, k: int) {
    && 0 <= k < |orders|
    && orders[k].id == target
    && forall j :: k < j < |orders| ==> orders[j].id != target
  }

  /** Advancing a prefix one order longer. */
  lemma AdvanceAllSnoc(orders: seq<Order>, i: nat, target: string)
    requires i < |orders|
    ensures AdvanceAll(orders[..i + 1], target) == AdvanceAll(orders[..i], target) + [AdvanceOrder(orders[i], target)]
  {
  }

  /** One step of the left-to-right visit. */
  lemma NoticeStep(orders: seq<Order>, i: nat, target: string, prior: Option<string>)
    requires i < |orders|
    ensures NoticeAfter(orders[i..], target, prior) ==
      NoticeAfter(orders[i + 1..], target, if orders[i].id == target then Some(AdvanceNotice(orders[i])) else prior)
  {
    assert orders[i..][1..] == orders[i + 1..];
  }

  /** An id that is on the board nowhere changes neither the list nor the notice. */
  lemma {:induction false} AdvanceAbsent(orders: seq<Order>, target: string, prior: Option<string>)
    requires forall k :: 0 <= k < |orders| ==> orders[k].id != target
    ensures AdvanceAll(orders, target) == orders
    ensures NoticeAfter(orders, target, prior) == prior
  {
    if orders != [] {
      AdvanceAbsent(orders[1..], target, prior);
    }
  }

  /** With several matches the last one wins: its notice overwrites the earlier ones. */
  lemma {:induction false} NoticeOfLastMatch(orders: seq<Order>, target: string, prior: Option<string>, k: nat)
    requires LastMatchAt(orders, target, k)
    ensures NoticeAfter(orders, target, prior) == Some(AdvanceNotice(orders[k]))
  {
    var next := if orders[0].id == target then Some(AdvanceNotice(orders[0])) else prior;
    var rest := orders[1..];
    forall j | k <= j < |rest|
      ensures rest[j].id != target
    {
      assert rest[j] == orders[j + 1];
    }
    if k == 0 {
      AdvanceAbsent(rest, target, next);
    } else {
      assert rest[k - 1] == orders[k];
      NoticeOfLastMatch(rest, target, next, k - 1);
    }
  }

  /** With exactly one order carrying `target`, the notice is the one about that order. */
  lemma NoticeOfUnique(orders: seq<Order>, target: string, prior: Option<string>, k: nat)
    requires k < |orders| && orders[k].id == target
    requires forall j :: 0 <= j < |orders| && j != k ==> orders[j].id != target
    ensures NoticeAfter(orders, target, prior) == Some(AdvanceNotice(orders[k]))
  {
    assert LastMatchAt(orders, target, k);
    NoticeOfLastMatch(orders, target, prior, k);
  }

  /** Advancing a Served order changes nothing about it and says so. */
  lemma AdvanceServed(o: Order)
    requires o.status == Served
    ensures AdvanceOrder(o, o.id) == o
    ensures AdvanceNotice(o) == AlreadyServedNotice(o.id)
  {
    NextStatusStep(Served);
  }

  /** Advancing any other order moves it one step on, and the notice names the new status. */
  lemma AdvanceMoves(o: Order)
    requires o.status != Served
    ensures AdvanceOrder(o, o.id) == o.(status := NextStatus(o.status))
    ensures Rank(AdvanceOrder(o, o.id).status) == Rank(o.status) + 1
    ensures AdvanceNotice(o) == MovedNotice(o.id, NextStatus(o.status))
  {
    NextStatusStep(o.status);
  }

  /** No skips and no reversals: an advance raises the rank by one, or leaves a Served order as it is. */
  lemma AdvanceMonotone(o: Order, target: string)
    ensures var r := AdvanceOrder(o, target);
      Rank(r.status) == Rank(o.status) + 1 || (r == o && (o.id != target || o.status == Served))
  {
    NextStatusStep(o.status);
  }

  /** Three advances of a Pending order serve it, and a fourth leaves it served. */
  lemma ThreeAdvancesServe(o: Order)
    requires o.status == Pending
    ensures AdvanceOrder(AdvanceOrder(AdvanceOrder(o, o.id), o.id), o.id) == o.(status := Served)
    ensures AdvanceOrder(AdvanceOrder(AdvanceOrder(AdvanceOrder(o, o.id), o.id), o.id), o.id) == o.(status := Served)
  {
    PendingReachesServed();
  }

  /** When every order carrying `target` is served, advancing it leaves the list as it was. */
  lemma AdvanceAllServed(orders: seq<Order>, target: string)
    requires forall j :: 0 <= j < |orders| && orders[j].id == target ==> orders[j].status == Served
    ensures AdvanceAll(orders, target) == orders
  {
    NextStatusTable();
    AdvanceOnlyTarget(orders, target);
    var r := AdvanceAll(orders, target);
    forall j | 0 <= j < |orders|
      ensures r[j] == orders[j]
    {
    }
  }

  /** Advancing an id that exactly one order carries: only that order changes, and the notice is about it. */
  lemma AdvanceUnique(orders: seq<Order>, k: nat, prior: Option<string>)
    requires k < |orders|
    requires forall j :: 0 <= j < |orders| && j != k ==> orders[j].id != orders[k].id
    ensures var r := AdvanceAll(orders, orders[k].id);
      r[k] == AdvanceOrder(orders[k], orders[k].id) && r[k].id == orders[k].id &&
      (forall j :: 0 <= j < |orders| && j != k ==> r[j] == orders[j]) &&
      (forall j :: 0 <= j < |r| && j != k ==> r[j].id != r[k].id) &&
      NoticeAfter(orders, orders[k].id, prior) == Some(AdvanceNotice(orders[k]))
  {
    NoticeOfUnique(orders, orders[k].id, prior, k);
    AdvanceOnlyTarget(orders, orders[k].id);
  }

  /**
   * An order that is Preparing and the only one with its id: one advance
   * makes it Ready and says so, a second serves it and says so, and a third
   * leaves the whole list as it was and says the order is already served.
   */
  lemma PreparingOrderScenario(l0: seq<Order>, k: nat, prior: Option<string>)
    requires k < |l0| && l0[k].status == Preparing
    requires forall j :: 0 <= j < |l0| && j != k ==> l0[j].id != l0[k].id
    ensures var t := l0[k].id;
      var l1 := AdvanceAll(l0, t);
      var l2 := AdvanceAll(l1, t);
      && l1[k] == l0[k].(status := Ready) && NoticeAfter(l0, t, prior) == Some(MovedNotice(t, Ready))
      && l2[k] == l0[k].(status := Served) && NoticeAfter(l1, t, prior) == Some(MovedNotice(t, Served))
      && AdvanceAll(l2, t) == l2 && NoticeAfter(l2, t, prior) == Some(AlreadyServedNotice(t))
      && (forall j :: 0 <= j < |l0| && j != k ==> l2[j] == l0[j])
  {
    var t := l0[k].id;
    NextStatusTable();
    AdvanceUnique(l0, k, prior);
    var l1 := AdvanceAll(l0, t);
    AdvanceUnique(l1, k, prior);
    var l2 := AdvanceAll(l1, t);
    AdvanceUnique(l2, k, prior);
    assert l2[k] == l2[k].(status := Served);
    AdvanceAllServed(l2, t);
  }

  /** The seeded ORD-5124 is such an order: it is Preparing and no other seeded order shares its id. */
  lemma SeededScenario()
    ensures InitialOrders[0].id == "ORD-5124" && InitialOrders[0].status == Preparing
    ensures forall j :: 0 < j < |InitialOrders| ==> InitialOrders[j].id != InitialOrders[0].id
  {
    assert InitialOrders[1].id[7] != InitialOrders[0].id[7];
    assert InitialOrders[2].id[7] != InitialOrders[0].id[7];
  }

  // ----- Walk-in orders -----

  /** `generateWalkInId`: "WALK-" and the hour, minute and second as two digits each. */
  function WalkInId(hours: nat, minutes: nat, seconds: nat): (id: string)
    requires hours < 24 && minutes < 60 && seconds < 60
    ensures |id| == 11 && id[..5] == "WALK-"
    ensures ParseTwoDigits(id[5..7]) == hours
    ensures ParseTwoDigits(id[7..9]) == minutes
    ensures ParseTwoDigits(id[9..11]) == seconds
  {
    var hh, mm, ss := TwoDigits(hours), TwoDigits(minutes), TwoDigits(seconds);
    var id := "WALK-" + hh + mm + ss;
    assert id[5..7] == hh && id[7..9] == mm && id[9..11] == ss;
    id
  }

  /** The six characters after "WALK-" are decimal digits. */
  lemma WalkInIdDigits(hours: nat, minutes: nat, seconds: nat)
    requires hours < 24 && minutes < 60 && seconds < 60
    ensures forall k :: 5 <= k < 11 ==> '0' <= WalkInId(hours, minutes, seconds)[k] <= '9'
  {
    var hh, mm, ss := TwoDigits(hours), TwoDigits(minutes), TwoDigits(seconds);
    AllDigitsConcat(hh, mm);
    AllDigitsConcat(hh + mm, ss);
    var id := WalkInId(hours, minutes, seconds);
    assert id == "WALK-" + (hh + mm + ss);
    assert id[5..] == hh + mm + ss;
    assert AllDigits(id[5..]);
    forall k | 5 <= k < 11
      ensures '0' <= id[k] <= '9'
    {
      assert id[k] == id[5..][k - 5];
    }
  }

  /** Two walk-ins get the same id exactly when they are created within the same second. */
  lemma WalkInIdSameSecond(h1: nat, m1: nat, s1: nat, h2: nat, m2: nat, s2: nat)
    requires h1 < 24 && m1 < 60 && s1 < 60
    requires h2 < 24 && m2 < 60 && s2 < 60
    ensures WalkInId(h1, m1, s1) == WalkInId(h2, m2, s2) <==> h1 == h2 && m1 == m2 && s1 == s2
  {
    var a, b := WalkInId(h1, m1, s1), WalkInId(h2, m2, s2);
    if a == b {
      assert a[5..7] == b[5..7] && a[7..9] == b[7..9] && a[9..11] == b[9..11];
    }
  }

  /** The table as stored: trimmed, upper-cased, and "TAKEOUT" when nothing is left. */
  function NormalizeTable(raw: string): (table: string)
    ensures table != []
    ensures table == "TAKEOUT" || table == ToUpper(Trim(raw))
  {
    var t := ToUpper(Trim(raw));
    if t == "" then "TAKEOUT" else t
  }

  /** A blank table becomes "TAKEOUT"; any other is its trimmed upper-case form. */
  lemma NormalizeTableCases(raw: string)
    ensures (forall k :: 0 <= k < |raw| ==> IsWhitespace(raw[k])) ==> NormalizeTable(raw) == "TAKEOUT"
    ensures (exists k :: 0 <= k < |raw| && !IsWhitespace(raw[k])) ==> NormalizeTable(raw) == ToUpper(Trim(raw))
  {
    TrimEmptyIff(raw);
  }

  /** A non-blank upper-case name without surrounding whitespace is left as it is. */
  lemma NormalizeFixedPoint(t: string)
    requires t != [] && !IsWhitespace(t[0]) && !IsWhitespace(t[|t| - 1])
    requires ToUpper(t) == t
    ensures NormalizeTable(t) == t
  {
    TrimOfTrimmed(t);
  }

  /** A stored table name is already normal: normalising it again changes nothing. */
  lemma NormalizeTableIdempotent(raw: string)
    ensures NormalizeTable(NormalizeTable(raw)) == NormalizeTable(raw)
  {
    var m := Trim(raw);
    var t := ToUpper(m);
    if t == [] {
      ToUpperOfUpper("TAKEOUT");
      NormalizeFixedPoint("TAKEOUT");
    } else {
      UpperKeepsWhitespace(m[0]);
      UpperKeepsWhitespace(m[|m| - 1]);
      ToUpperIdempotent(m);
      NormalizeFixedPoint(t);
    }
  }

  /** What the walk-in form hands to the board. */
  datatype NewOrderInput = NewOrderInput(table: string, items: string, guests: Option<int>, rush: bool)

  /** The guests field of the form: empty, or a number. */
  datatype GuestsField = Blank | Count(n: int)

  /** The walk-in form's fields. */
  datatype SheetForm = SheetForm(table: string, items: string, guests: GuestsField, rush: bool)

  /** The form as it opens: table "T01", two guests, the sample items, not rushed. */
  const DefaultSheet: SheetForm := SheetForm("T01", DefaultItems, Count(2), false)

  /** The sample items the form opens with. */
  const DefaultItems: string := "2x Signature Mocktail, 1x Wagyu Slider Flight"

  /** `isValid`: the items are not blank once trimmed. */
  function IsValid(items: string): (valid: bool)
    ensures valid <==> exists k :: 0 <= k < |items| && !IsWhitespace(items[k])
  {
    TrimEmptyIff(items);
    |Trim(items)| > 0
  }

  /**
   * The guests field is `<input type="number" min={1}>` in a form that is
   * validated by the browser: a count below one blocks the submit event,
   * so `handleSubmit` does not run. A blank field is allowed ("Optional").
   */
  predicate GuestsAccepted(guests: GuestsField) {
    guests.Blank? || guests.n >= 1
  }

  /**
   * Submitting the form: nothing when the browser blocks the guests field or
   * `handleSubmit` finds blank items; otherwise the input with trimmed items
   * and "" guests as absent.
   */
  function SubmitSheet(form: SheetForm): (r: Option<NewOrderInput>)
    ensures r.None? <==> !GuestsAccepted(form.guests) || !IsValid(form.items)
    ensures r.Some? ==> r.value.table == form.table && r.value.rush == form.rush
    ensures r.Some? ==> r.value.items == Trim(form.items)
    ensures r.Some? ==> r.value.items != [] && Trim(r.value.items) == r.value.items
    ensures r.Some? ==> (r.value.guests == None <==> form.guests == Blank)
    ensures r.Some? && form.guests.Count? ==> r.value.guests == Some(form.guests.n) && form.guests.n >= 1
  {
    if !GuestsAccepted(form.guests) || !IsValid(form.items) then None
    else
      var items := Trim(form.items);
      assert |items| > 0;
      TrimOfTrimmed(items);
      var guests := if form.guests.Blank? then None else Some(form.guests.n);
      Some(NewOrderInput(form.table, items, guests, form.rush))
  }

  /** The form as it opens can be submitted straight away, for table T01 and two guests. */
  lemma DefaultSheetSubmits()
    ensures SubmitSheet(DefaultSheet).Some?
    ensures SubmitSheet(DefaultSheet).value == NewOrderInput("T01", Trim(DefaultItems), Some(2), false)
  {
    assert !IsWhitespace(DefaultItems[10]);
  }

  /** The order `handleCreate` makes from an input at the given time of day. */
  function WalkInOrder(input: NewOrderInput, hours: nat, minutes: nat, seconds: nat): (o: Order)
    requires hours < 24 && minutes < 60 && seconds < 60
    ensures o.status == Pending && o.time == "Just now"
    ensures o.id == WalkInId(hours, minutes, seconds)
    ensures o.table == NormalizeTable(input.table) && o.items == input.items
    ensures o.guests == input.guests && o.rush == Some(input.rush)
  {
    Order(WalkInId(hours, minutes, seconds), NormalizeTable(input.table), input.items,
      Pending, "Just now", input.guests, Some(input.rush))
  }

  /** The notice after a walk-in is added. */
  function CreatedNotice(id: string, rush: bool): (notice: string)
    ensures "Walk-in " + id + " added" <= notice
    ensures rush ==> notice[|notice| - 8..] == " \U{2022} Rush."
    ensures !rush ==> notice[|notice| - 7..] == " added."
  {
    "Walk-in " + id + " added" + (if rush then " \U{2022} Rush" else "") + "."
  }

  /** The notice after the print button, given whether the preview window could be opened. */
  function PrintNotice(windowOpened: bool, id: string): (notice: string)
    ensures windowOpened ==> "Print ticket opened for " + id <= notice
    ensures !windowOpened ==> notice == "Unable to open print preview."
  {
    if windowOpened then "Print ticket opened for " + id + "." else "Unable to open print preview."
  }

  /** The state of the live-orders page. */
  class LiveOrderBoard {
    var orders: seq<Order>
    var recentAction: Option<string>
    var isCreating: bool

    constructor ()
      ensures orders == InitialOrders && recentAction == None && !isCreating
    {
      orders := InitialOrders;
      recentAction := None;
      isCreating := false;
    }

    /** `handleAdvance`: advance every order carrying `targetId`, each match writing the notice. */
    method Advance(targetId: string)
      modifies this
      ensures orders == AdvanceAll(old(orders), targetId)
      ensures recentAction == NoticeAfter(old(orders), targetId, old(recentAction))
      ensures isCreating == old(isCreating)
    {
      var prev := orders;
      var next: seq<Order> := [];
      var notice := recentAction;
      var i := 0;
      while i < |prev|
        invariant 0 <= i <= |prev|
        invariant next == AdvanceAll(prev[..i], targetId)
        invariant NoticeAfter(prev[i..], targetId, notice) == NoticeAfter(prev, targetId, recentAction)
        modifies {}
      {
        var order := prev[i];
        NoticeStep(prev, i, targetId, notice);
        AdvanceAllSnoc(prev, i, targetId);
        if order.id != targetId {
          next := next + [order];
        } else {
          var nextStatus := NextStatus(order.status);
          if nextStatus == order.status {
            notice := Some(AlreadyServedNotice(order.id));
            next := next + [order];
          } else {
            notice := Some(MovedNotice(order.id, nextStatus));
            next := next + [order.(status := nextStatus)];
          }
        }
        i := i + 1;
      }
      assert prev[..i] == prev;
      assert prev[i..] == [] && NoticeAfter([], targetId, notice) == notice;
      orders, recentAction := next, notice;
    }

    /** `handleCreate`: the new walk-in goes in front of the list and the sheet closes. */
    method Create(input: NewOrderInput, hours: nat, minutes: nat, seconds: nat)
      requires hours < 24 && minutes < 60 && seconds < 60
      modifies this
      ensures orders == [WalkInOrder(input, hours, minutes, seconds)] + old(orders)
      ensures recentAction == Some(CreatedNotice(WalkInId(hours, minutes, seconds), input.rush))
      ensures !isCreating
    {
      var id := WalkInId(hours, minutes, seconds);
      orders := [WalkInOrder(input, hours, minutes, seconds)] + orders;
      recentAction := Some(CreatedNotice(id, input.rush));
      isCreating := false;
    }

    /** Submitting the walk-in form: a blocked guests field or blank items create nothing. */
    method Submit(form: SheetForm, hours: nat, minutes: nat, seconds: nat)
      requires hours < 24 && minutes < 60 && seconds < 60
      modifies this
      ensures SubmitSheet(form).None? ==>
        orders == old(orders) && recentAction == old(recentAction) && isCreating == old(isCreating)
      ensures SubmitSheet(form).Some? ==>
        orders == [WalkInOrder(SubmitSheet(form).value, hours, minutes, seconds)] + old(orders) &&
        |orders| == |old(orders)| + 1 && !isCreating &&
        recentAction == Some(CreatedNotice(WalkInId(hours, minutes, seconds), form.rush))
    {
      var input := SubmitSheet(form);
      if input.Some? {
        Create(input.value, hours, minutes, seconds);
      }
    }

    /** `handlePrint`, reduced to its notice: the ticket document itself is browser output. */
    method Print(order: Order, windowOpened: bool)
      modifies this
      ensures recentAction == Some(PrintNotice(windowOpened, order.id))
      ensures orders == old(orders) && isCreating == old(isCreating)
    {
      recentAction := Some(PrintNotice(windowOpened, order.id));
    }

    /** The Dismiss button clears the notice. */
    method Dismiss()
      modifies this
      ensures recentAction == None
      ensures orders == old(orders) && isCreating == old(isCreating)
    {
      recentAction := None;
    }

    /** "New walk-in order" opens the form. */
    method OpenSheet()
      modifies this
      ensures isCreating
      ensures orders == old(orders) && recentAction == old(recentAction)
    {
      isCreating := true;
    }

    /** Cancel, or a click outside the form, closes it. */
    method CloseSheet()
      modifies this
      ensures !isCreating
      ensures orders == old(orders) && recentAction == old(recentAction)
    {
      isCreating := false;
    }
  }
}
