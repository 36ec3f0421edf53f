/**
 * The decision logic of the shipments table: the status and payment badges,
 * the null case of the revenue cell, the per-status action menu (a small
 * state machine over `Status`) and the `loading` marker that disables one
 * row's menu while its mutation runs.
 */
module ShipmentsTable {
  import opened JsValues
  import opened Shipments

  // ---------------------------------------------------------------------
  // Badges and cells
  // ---------------------------------------------------------------------

  /** The text of the status badge for a known status. */
  function StatusLabel(s: Status): string
  {
    match s
    case Delivered => "Delivered"
    case InTransit => "In Transit"
    case Arrived => "Arrived"
    case Pending => "Pending"
    case Cancelled => "Cancelled"
  }

  /** The five statuses get five different badge texts. */
  lemma StatusLabelsDistinct(s: Status, t: Status)
    ensures StatusLabel(s) == StatusLabel(t) <==> s == t
  {
  }

  /**
   * The badge for the stored status string: a known status gets its label,
   * anything else is shown as it is.
   */
  function StatusBadge(raw: string): (r: string)
    ensures forall s :: StatusName(s) == raw ==> r == StatusLabel(s)
    ensures ParseStatus(raw) == None ==> r == raw
  {
    match ParseStatus(raw)
    case Some(s) => StatusLabel(s)
    case None => raw
  }

  /** The payment cell: three known values get a badge, everything else a dash. */
  function PaymentBadge(paymentStatus: Option<string>): (r: string)
    ensures r == "Paid" <==> paymentStatus == Some(PaymentCompleted)
    ensures r == "Pending" <==> paymentStatus == Some(PaymentInitiated)
    ensures r == "Failed" <==> paymentStatus == Some(PaymentFailed)
    ensures r == "-" <==>
      paymentStatus !in {Some(PaymentCompleted), Some(PaymentInitiated), Some(PaymentFailed)}
  {
    if paymentStatus == Some(PaymentCompleted) then "Paid"
    else if paymentStatus == Some(PaymentInitiated) then "Pending"
    else if paymentStatus == Some(PaymentFailed) then "Failed"
    else "-"
  }

  /**
   * The revenue cell. `localeFormat` stands for the `en-IN` currency
   * formatter, which is outside the model; only the null case is decided here.
   */
  function FormatCurrency(amount: Option<real>, localeFormat: real -> string): (r: string)
    ensures amount == None ==> r == "-"
    ensures amount.Some? ==> r == localeFormat(amount.value)
  {
    match amount
    case None => "-"
    case Some(a) => localeFormat(a)
  }

  // ---------------------------------------------------------------------
  // The action menu
  // ---------------------------------------------------------------------

  /** The items the row's action menu can hold. */
  datatype MenuItem = StartTransit | MarkDelivered | ForceCompleteDelivery | CancelShipment | Delete

  /** The text of a menu item. */
  function ItemLabel(item: MenuItem): string
  {
    match item
    case StartTransit => "Start Transit"
    case MarkDelivered => "Mark Delivered"
    case ForceCompleteDelivery => "Force Complete Delivery"
    case CancelShipment => "Cancel Shipment"
    case Delete => "Delete"
  }

  /** The status an item asks for; Delete is not a status change. */
  function Target(item: MenuItem): (r: Option<Status>)
    ensures r.None? <==> item == Delete
    ensures r.Some? ==> r.value != Pending && r.value != Arrived
  {
    match item
    case StartTransit => Some(InTransit)
    case MarkDelivered => Some(Delivered)
    case ForceCompleteDelivery => Some(Delivered)
    case CancelShipment => Some(Cancelled)
    case Delete => None
  }

  /** The menu of a row in the given status, in the order it is rendered. */
  function Menu(s: Status): (items: seq<MenuItem>)
    ensures |items| > 0 && items[|items| - 1] == Delete
    ensures Delete !in items[..|items| - 1]
    ensures forall i, j :: 0 <= i < j < |items| ==> items[i] != items[j]
  {
    (if s == Pending then [StartTransit] else [])
    + (if s == InTransit then [MarkDelivered] else [])
    + (if s == Arrived then [ForceCompleteDelivery] else [])
    + (if s == Pending || s == InTransit || s == Arrived then [CancelShipment] else [])
    + [Delete]
  }

  /** Position along pending -> in_transit -> arrived -> delivered / cancelled. */
  function Rank(s: Status): nat
  {
    match s
    case Pending => 0
    case InTransit => 1
    case Arrived => 2
    case Delivered => 3
    case Cancelled => 3
  }

  /** The statuses the menu offers to move a row to. */
  function OfferedTargets(s: Status): (r: set<Status>)
    ensures s == Pending ==> r == {InTransit, Cancelled}
    ensures s == InTransit || s == Arrived ==> r == {Delivered, Cancelled}
    ensures s == Delivered || s == Cancelled ==> r == {}
    ensures Pending !in r && Arrived !in r && s !in r
    ensures forall t :: t in r ==> Rank(s) < Rank(t)
  {
    TargetsOfMenu(s);
    TargetsOf(Menu(s))
  }

  /** The status targets of a list of menu items. */
  function TargetsOf(items: seq<MenuItem>): set<Status>
  {
    if items == [] then {}
    else (match Target(items[0]) case Some(t) => {t} case None => {}) + TargetsOf(items[1..])
  }

  lemma TargetsOfMenu(s: Status)
    ensures s == Pending ==> TargetsOf(Menu(s)) == {InTransit, Cancelled}
    ensures s == InTransit ==> TargetsOf(Menu(s)) == {Delivered, Cancelled}
    ensures s == Arrived ==> TargetsOf(Menu(s)) == {Delivered, Cancelled}
    ensures s == Delivered || s == Cancelled ==> TargetsOf(Menu(s)) == {}
  {
    var tail := [CancelShipment, Delete];
    assert TargetsOf([Delete]) == {};
    assert tail[1..] == [Delete];
    assert TargetsOf(tail) == {Cancelled};
    match s
    case Pending =>
      assert Menu(s) == [StartTransit] + tail;
    case InTransit =>
      assert Menu(s) == [MarkDelivered] + tail;
    case Arrived =>
      assert Menu(s) == [ForceCompleteDelivery] + tail;
    case Delivered =>
      assert Menu(s) == [Delete];
    case Cancelled =>
      assert Menu(s) == [Delete];
  }

  /**
   * The in_transit and arrived menus offer the same changes in the same
   * order; they differ only in the text of the delivery item.
   */
  lemma DeliveryItemsDifferOnlyInLabel()
    ensures |Menu(InTransit)| == |Menu(Arrived)| == 3
    ensures forall i :: 0 <= i < 3 ==> Target(Menu(InTransit)[i]) == Target(Menu(Arrived)[i])
    ensures forall i :: 1 <= i < 3 ==> Menu(InTransit)[i] == Menu(Arrived)[i]
    ensures ItemLabel(Menu(InTransit)[0]) == "Mark Delivered"
    ensures ItemLabel(Menu(Arrived)[0]) == "Force Complete Delivery"
  {
    assert Menu(InTransit) == [MarkDelivered, CancelShipment, Delete];
    assert Menu(Arrived) == [ForceCompleteDelivery, CancelShipment, Delete];
  }

  /** A status is terminal when the menu offers no way out of it. */
  predicate Terminal(s: Status)
  {
    OfferedTargets(s) == {}
  }

  lemma TerminalStatuses(s: Status)
    ensures Terminal(s) <==> s == Delivered || s == Cancelled
    ensures Terminal(s) ==> Menu(s) == [Delete]
  {
    if s == Delivered || s == Cancelled {
      assert Menu(s) == [] + [] + [] + [] + [Delete];
    }
  }

  /** A sequence of statuses in which each step is one the menu offers. */
  ghost predicate MenuPath(p: seq<Status>)
    decreases |p|
  {
    |p| <= 1 || (p[1] in OfferedTargets(p[0]) && MenuPath(p[1..]))
  }

  /**
   * Nothing moves backward: along any sequence of menu choices the rank
   * strictly rises.
   */
  lemma {:induction false} MenuPathClimbs(p: seq<Status>)
    requires MenuPath(p)
    ensures forall i, j :: 0 <= i < j < |p| ==> Rank(p[i]) < Rank(p[j])
  {
    if |p| > 1 {
      var q := p[1..];
      MenuPathClimbs(q);
      forall i, j | 0 <= i < j < |p| ensures Rank(p[i]) < Rank(p[j]) {
        if i == 0 {
          if j > 1 {
            assert Rank(q[0]) < Rank(q[j - 1]);
          }
        } else {
          assert Rank(q[i - 1]) < Rank(q[j - 1]);
        }
      }
    }
  }

  /** No status repeats along a sequence of menu choices, so the menu has no cycle. */
  lemma MenuPathHasNoRepeats(p: seq<Status>)
    requires MenuPath(p)
    ensures forall i, j :: 0 <= i < j < |p| ==> p[i] != p[j]
  {
    MenuPathClimbs(p);
  }

  /**
   * Each menu choice climbs at least one rank, and since `arrived` can only
   * open a sequence of choices, such a sequence holds at most three
   * statuses (for example pending, in_transit, delivered).
   */
  lemma {:induction false} MenuPathIsShort(p: seq<Status>)
    requires MenuPath(p) && |p| > 0
    ensures Rank(p[0]) + |p| - 1 <= Rank(p[|p| - 1])
    ensures |p| <= 3
  {
    if |p| > 1 {
      MenuPathIsShort(p[1..]);
    }
    if |p| > 3 {
      MenuPathClimbs(p);
      MenuNeverEnters(p);
    }
  }

  /**
   * `pending` and `arrived` are never entered through the menu: only the
   * first status of a path can be one of them.
   */
  lemma {:induction false} MenuNeverEnters(p: seq<Status>)
    requires MenuPath(p)
    ensures forall i :: 0 < i < |p| ==> p[i] != Pending && p[i] != Arrived
  {
    if |p| > 1 {
      MenuNeverEnters(p[1..]);
      forall i | 0 < i < |p| ensures p[i] != Pending && p[i] != Arrived {
        if i > 1 {
          assert p[i] == p[1..][i - 1];
        }
      }
    }
  }

  /** From a terminal status every path of menu choices stops at once. */
  lemma TerminalPathsAreSingletons(p: seq<Status>)
    requires MenuPath(p) && |p| > 0 && Terminal(p[0])
    ensures p == [p[0]]
  {
  }

  // ---------------------------------------------------------------------
  // The table's mutable state
  // ---------------------------------------------------------------------

  /** A call to one of the server actions, as the table issues it. */
  datatype Mutation = UpdateStatus(id: string, target: Status) | DeleteShipment(id: string)

  /**
   * The table component's state: `loading` is the id of the row whose
   * mutation is in flight, or None; `sent` is the log of server-action
   * calls the table has issued, oldest first. A handler runs in two phases
   * around its `await`: the handler method up to the call, and `Settle`
   * when the call's promise settles.
   */
  class Table {
    var loading: Option<string>
    var sent: seq<Mutation>

    /** The disabled row, if any, is the row of the latest mutation issued. */
    ghost predicate Valid()
      reads this
    {
      loading.Some? ==> |sent| > 0 && sent[|sent| - 1].id == loading.value
    }

    constructor ()
      ensures Valid()
      ensures loading == None && sent == []
    {
      loading := None;
      sent := [];
    }

    /** The menu trigger of row `id` is disabled. */
    predicate TriggerDisabled(id: string): (r: bool)
      reads this
      ensures r <==> loading == Some(id)
      ensures r ==> forall other :: other != id ==> loading != Some(other)
    {
      loading == Some(id)
    }

    /** `handleStatusChange` up to its `await`: mark the row and call the action. */
    method HandleStatusChange(id: string, target: Status)
      requires Valid()
      modifies this
      ensures Valid()
      ensures loading == Some(id)
      ensures sent == old(sent) + [UpdateStatus(id, target)]
      ensures forall other :: TriggerDisabled(other) <==> other == id
    {
      loading := Some(id);
      sent := sent + [UpdateStatus(id, target)];
    }

    /**
     * `handleDelete` up to its `await`. A declined confirmation returns
     * before anything changes.
     */
    method HandleDelete(id: string, confirmed: bool)
      requires Valid()
      modifies this
      ensures Valid()
      ensures !confirmed ==> loading == old(loading) && sent == old(sent)
      ensures confirmed ==> loading == Some(id) && sent == old(sent) + [DeleteShipment(id)]
      ensures confirmed ==> forall other :: TriggerDisabled(other) <==> other == id
    {
      if !confirmed {
        return;
      }
      loading := Some(id);
      sent := sent + [DeleteShipment(id)];
    }

    /**
     * The awaited server action settles. When it resolves, `loading` is
     * reset and no row is disabled; when it rejects, the rest of the
     * handler does not run and `loading` stays as it was.
     */
    method Settle(rejected: bool)
      requires Valid()
      modifies this
      ensures Valid()
      ensures sent == old(sent)
      ensures rejected ==> loading == old(loading)
      ensures !rejected ==> loading == None && forall id :: !TriggerDisabled(id)
    {
      if !rejected {
        loading := None;
      }
    }

    /**
     * The user picks `item` from the menu of `row`. A disabled trigger
     * cannot be opened and an item that is not rendered cannot be picked:
     * both leave everything as it was. Otherwise the item's handler runs.
     */
    method ChooseMenuItem(row: Shipment, item: MenuItem, confirmed: bool) returns (issued: Option<Mutation>)
      requires Valid()
      modifies this
      ensures Valid()
      ensures old(TriggerDisabled(row.id)) || item !in Menu(row.status) ==> issued == None
      ensures !old(TriggerDisabled(row.id)) && item in Menu(row.status) ==>
        issued == match Target(item)
                  case Some(t) => Some(UpdateStatus(row.id, t))
                  case None => if confirmed then Some(DeleteShipment(row.id)) else None
      ensures issued.Some? ==> issued.value.id == row.id && loading == Some(row.id)
      ensures issued.Some? ==> sent == old(sent) + [issued.value]
      ensures issued.None? ==> loading == old(loading) && sent == old(sent)
      ensures issued.Some? && issued.value.UpdateStatus? ==> issued.value.target in OfferedTargets(row.status)
    {
      if TriggerDisabled(row.id) || item !in Menu(row.status) {
        return None;
      }
      match Target(item) {
        case Some(t) =>
          HandleStatusChange(row.id, t);
          issued := Some(UpdateStatus(row.id, t));
        case None =>
          HandleDelete(row.id, confirmed);
          issued := if confirmed then Some(DeleteShipment(row.id)) else None;
      }
    }
  }
}
