/**
 * Work orders as the engine sees them: the per-tick progress advance and the
 * lookup by id shared by the order-control and workflow operations.
 */
module Orders {
  import opened Util

  /** A production work order. Only the fields the engine and the order
      operations read or write are kept. */
  datatype Order = Order(
    id: string,
    product: string,
    quantity: int,
    status: string,
    paused: bool,
    progress: int)

  /** An order the scheduler may advance: in progress and not paused. */
  predicate Eligible(o: Order) {
    o.status == "In Progress" && !o.paused
  }

  /** An order a running tick touches: eligible and not yet at 100. */
  predicate Advances(o: Order) {
    Eligible(o) && o.progress < 100
  }

  /** Progress points per tick: 8 at nominal speed, scaled with speed, halved
      above 90 degrees. */
  function ProgressSpeed(rpm: real, temp: real): (r: real)
    ensures rpm >= 0.0 ==> 0.0 <= r <= rpm / 150.0
    ensures temp <= 90.0 ==> r * 150.0 == rpm
    ensures temp > 90.0 ==> r * 300.0 == rpm
  {
    var speed := (rpm / 1200.0) * 8.0;
    if temp > 90.0 then speed * 0.5 else speed
  }

  /** One order after a running tick's scheduler pass. Every field but
      `progress` is kept; progress moves only for an advancing order, never
      backwards, never past 100, and by at most the tick's speed. */
  function AdvanceOrder(o: Order, speed: real): (r: Order)
    requires speed >= 0.0
    ensures r.(progress := o.progress) == o
    ensures !Advances(o) ==> r == o
    ensures o.progress <= r.progress
    ensures o.progress <= 100 ==> r.progress <= 100
    // The bound and the cap below hold for any progress; from progress >= 0
    // they are corollaries of the exact step in the last clause.
    ensures o.progress >= 0 ==> r.progress as real <= o.progress as real + speed
    ensures Advances(o) && o.progress as real + speed >= 100.0 ==> r.progress == 100
    ensures Advances(o) && o.progress >= 0 ==> r.progress == MinInt(100, o.progress + speed.Floor)
  {
    if Advances(o) then o.(progress := MinInt(100, Trunc(o.progress as real + speed)))
    else o
  }

  /** At nominal speed and a normal temperature an advancing order gains
      exactly 8 points, capped at 100. */
  lemma NominalTickAddsEight(o: Order)
    requires Advances(o)
    ensures AdvanceOrder(o, ProgressSpeed(1200.0, 60.0)).progress == MinInt(100, o.progress + 8)
  {
  }

  /** Position of the first order with the given id, if any. */
  function IndexOf(orders: seq<Order>, id: string): (r: Option<nat>)
    ensures r.None? <==> forall k :: 0 <= k < |orders| ==> orders[k].id != id
    ensures r.Some? ==> r.value < |orders| && orders[r.value].id == id
    ensures r.Some? ==> forall k :: 0 <= k < r.value ==> orders[k].id != id
  {
    FirstIndex(orders, (o: Order) => o.id == id)
  }

  /** The lookup by id: the first order with this id, scanning left to right. */
  method FindOrder(orders: seq<Order>, id: string) returns (found: Option<nat>)
    ensures found == IndexOf(orders, id)
  {
    found := FindFirst(orders, (o: Order) => o.id == id);
  }
}
