/** One order: its fixed identity and dates, and the tracking state that
    `update_status` changes in place. */
module Orders {
  import opened Common
  import opened ShippingStatus

  /** One entry of `tracking_updates`: when, the status's display text, and the
      location argument exactly as it was passed (possibly `None` or `""`). */
  datatype TrackingUpdate = TrackingUpdate(timestamp: Time, status: string, location: Option<string>)

  /** The arguments of one `update_status` call, with the time the clock read. */
  datatype Update = Update(status: Status, location: Option<string>, at: Time)

  /** The part of an order that `update_status` changes. */
  datatype Tracking = Tracking(status: Status, currentLocation: string, trackingUpdates: seq<TrackingUpdate>)

  /** The tracking state of a newly constructed order. */
  const Initial: Tracking := Tracking(Processing, "", [])

  /** The history entry one call appends. */
  function Entry(u: Update): TrackingUpdate
  {
    TrackingUpdate(u.at, Value(u.status), u.location)
  }

  /** The effect of one `update_status` call on the tracking state. */
  function Apply(t: Tracking, u: Update): Tracking
  {
    Tracking(u.status,
             if Truthy(u.location) then u.location.value else t.currentLocation,
             t.trackingUpdates + [Entry(u)])
  }

  /** The tracking state of a new order after the calls `us`, oldest first. */
  function Replay(us: seq<Update>): Tracking
  {
    if us == [] then Initial else Apply(Replay(us[..|us| - 1]), us[|us| - 1])
  }

  /** The location of the most recent entry that carried a truthy location, or `""`. */
  function LatestLocation(h: seq<TrackingUpdate>): string
  {
    if h == [] then ""
    else if Truthy(h[|h| - 1].location) then h[|h| - 1].location.value
    else LatestLocation(h[..|h| - 1])
  }

  /** `LatestLocation` picks the last truthy location, and is `""` exactly when there is none. */
  lemma {:induction false} LatestLocationIsLastTruthy(h: seq<TrackingUpdate>)
    ensures (forall k :: 0 <= k < |h| ==> !Truthy(h[k].location)) ==> LatestLocation(h) == ""
    ensures forall k :: 0 <= k < |h| && Truthy(h[k].location)
                        && (forall j :: k < j < |h| ==> !Truthy(h[j].location))
                        ==> LatestLocation(h) == h[k].location.value
  {
    if h != [] {
      var n := |h| - 1;
      LatestLocationIsLastTruthy(h[..n]);
      if !Truthy(h[n].location) {
        forall k | 0 <= k < n && Truthy(h[k].location) && (forall j :: k < j < |h| ==> !Truthy(h[j].location))
          ensures LatestLocation(h) == h[k].location.value
        {
          assert h[..n][k] == h[k];
          assert forall j :: k < j < n ==> h[..n][j] == h[j];
        }
        if forall k :: 0 <= k < |h| ==> !Truthy(h[k].location) {
          assert forall k :: 0 <= k < n ==> h[..n][k] == h[k];
        }
      }
    }
  }

  /** What the source keeps true of every order: the current location is the last
      truthy location in the history, and the status is `Processing` before any
      update and the status of the last entry after. */
  predicate Consistent(t: Tracking)
  {
    var h := t.trackingUpdates;
    && t.currentLocation == LatestLocation(h)
    && (h == [] ==> t.status == Processing)
    && (h != [] ==> Value(t.status) == h[|h| - 1].status)
  }

  /** Every `update_status` call keeps an order consistent. */
  lemma ApplyPreservesConsistent(t: Tracking, u: Update)
    requires Consistent(t)
    ensures Consistent(Apply(t, u))
  {
    var h' := Apply(t, u).trackingUpdates;
    assert h'[..|h'| - 1] == t.trackingUpdates;
  }

  /** After any calls on a new order: one entry per call, in call order, each the
      entry that call made; the history of fewer calls is a prefix; and the order
      is consistent. */
  lemma {:induction false} ReplayHistory(us: seq<Update>)
    ensures |Replay(us).trackingUpdates| == |us|
    ensures forall i :: 0 <= i < |us| ==> Replay(us).trackingUpdates[i] == Entry(us[i])
    ensures Consistent(Replay(us))
  {
    if us != [] {
      var n := |us| - 1;
      ReplayHistory(us[..n]);
      ApplyPreservesConsistent(Replay(us[..n]), us[n]);
      assert forall i :: 0 <= i < n ==> us[..n][i] == us[i];
    }
  }

  /** A later history starts with every earlier one: entries are never changed,
      removed or reordered. */
  lemma AppendOnly(us: seq<Update>, more: seq<Update>)
    ensures Replay(us).trackingUpdates <= Replay(us + more).trackingUpdates
  {
    ReplayHistory(us);
    ReplayHistory(us + more);
    var h, h' := Replay(us).trackingUpdates, Replay(us + more).trackingUpdates;
    assert forall i :: 0 <= i < |us| ==> (us + more)[i] == us[i];
    assert h == h'[..|h|];
  }

  /** After any calls on a new order: the status is the last call's, or
      `Processing`; the location is the last truthy location passed, or `""`. */
  lemma ReplayState(us: seq<Update>)
    ensures us == [] ==> Replay(us).status == Processing
    ensures us != [] ==> Replay(us).status == us[|us| - 1].status
    ensures (forall k :: 0 <= k < |us| ==> !Truthy(us[k].location)) ==> Replay(us).currentLocation == ""
    ensures forall k :: 0 <= k < |us| && Truthy(us[k].location)
                        && (forall j :: k < j < |us| ==> !Truthy(us[j].location))
                        ==> Replay(us).currentLocation == us[k].location.value
  {
    ReplayHistory(us);
    LatestLocationIsLastTruthy(Replay(us).trackingUpdates);
  }

  /** `Order`: identity, items and dates never change after construction;
      `update_status` changes the rest. */
  class Order {
    const orderId: string
    const customerId: string
    const items: seq<string>
    const orderDate: Time
    const estimatedDelivery: Time
    var status: Status
    var currentLocation: string
    var trackingUpdates: seq<TrackingUpdate>

    /** The mutable part of this order as a value. */
    function State(): Tracking
      reads this
    {
      Tracking(status, currentLocation, trackingUpdates)
    }

    ghost predicate Valid()
      reads this
    {
      Consistent(State())
    }

    /** `Order.__init__`: the dates are given by the caller; the order starts in
        `Processing` with no location and no history. */
    constructor (orderId: string, customerId: string, items: seq<string>,
                 orderDate: Time, estimatedDelivery: Time)
      ensures this.orderId == orderId && this.customerId == customerId && this.items == items
      ensures this.orderDate == orderDate && this.estimatedDelivery == estimatedDelivery
      ensures State() == Initial
      ensures Valid()
    {
      this.orderId := orderId;
      this.customerId := customerId;
      this.items := items;
      this.orderDate := orderDate;
      this.estimatedDelivery := estimatedDelivery;
      status := Processing;
      trackingUpdates := [];
      currentLocation := "";
    }

    /** `update_status(new_status, location)` at time `now`: always overwrites the
        status, overwrites the location only when the argument is truthy, and
        appends exactly one entry holding the argument as given. */
    method UpdateStatus(newStatus: Status, location: Option<string>, now: Time)
      modifies this
      ensures status == newStatus
      ensures currentLocation == if Truthy(location) then location.value else old(currentLocation)
      ensures trackingUpdates == old(trackingUpdates) + [TrackingUpdate(now, Value(newStatus), location)]
      ensures State() == Apply(old(State()), Update(newStatus, location, now))
      ensures old(Valid()) ==> Valid()
    {
      status := newStatus;
      if location.Some? && location.value != "" {
        currentLocation := location.value;
      }
      trackingUpdates := trackingUpdates + [TrackingUpdate(now, Value(newStatus), location)];
      if old(Valid()) {
        ApplyPreservesConsistent(old(State()), Update(newStatus, location, now));
      }
    }
  }
}
