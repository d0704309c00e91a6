/**
  WebSocket URL routing (food_delivery/routing.py). Two patterns, each matched
  against the whole path relative to the router:
    ws/orders/<order_id>/      selects the order consumer
    ws/tracking/<partner_id>/  selects the tracking (location) consumer
  where the identifier must match `[0-9a-f-]+`.
 */
module Routing {
  import opened Wrappers

  const OrdersPrefix: string := "ws/orders/"
  const TrackingPrefix: string := "ws/tracking/"

  /** One character of the class `[0-9a-f-]`: lower-case hex digits and the hyphen. */
  predicate IsIdChar(ch: char) {
    ('0' <= ch <= '9') || ('a' <= ch <= 'f') || ch == '-'
  }

  /** An identifier admitted by `[0-9a-f-]+`. */
  predicate ValidId(s: string) {
    |s| > 0 && forall i :: 0 <= i < |s| ==> IsIdChar(s[i])
  }

  /** The consumer a path selects, with the keyword argument the pattern binds. */
  datatype Route = OrderRoute(orderId: string) | TrackingRoute(partnerId: string) {
    function Id(): string {
      match this
      case OrderRoute(id) => id
      case TrackingRoute(id) => id
    }
  }

  /** The path that a route is reached through. */
  function PathOf(route: Route): string {
    match route
    case OrderRoute(id) => OrdersPrefix + id + "/"
    case TrackingRoute(id) => TrackingPrefix + id + "/"
  }

  predicate HasPrefix(s: string, prefix: string) {
    |prefix| <= |s| && s[..|prefix|] == prefix
  }

  /** The identifier of a remainder of the form `<id>/`, with nothing after the slash. */
  function IdSegment(rest: string): Option<string> {
    if |rest| >= 2 && rest[|rest| - 1] == '/' && ValidId(rest[..|rest| - 1])
    then Some(rest[..|rest| - 1])
    else None
  }

  /**
    The `websocket_urlpatterns` list, tried in order. A path that matches neither
    pattern reaches no consumer (None).
   */
  function Resolve(path: string): (r: Option<Route>)
    ensures r.Some? ==> PathOf(r.value) == path && ValidId(r.value.Id())
  {
    if HasPrefix(path, OrdersPrefix) && IdSegment(path[|OrdersPrefix|..]).Some? then
      var id := IdSegment(path[|OrdersPrefix|..]).value;
      assert path == path[..|OrdersPrefix|] + path[|OrdersPrefix|..];
      assert path[|OrdersPrefix|..] == id + "/";
      Some(OrderRoute(id))
    else if HasPrefix(path, TrackingPrefix) && IdSegment(path[|TrackingPrefix|..]).Some? then
      var id := IdSegment(path[|TrackingPrefix|..]).value;
      assert path == path[..|TrackingPrefix|] + path[|TrackingPrefix|..];
      assert path[|TrackingPrefix|..] == id + "/";
      Some(TrackingRoute(id))
    else
      None
  }

  /** Every route with an admissible identifier is reached through its own path. */
  lemma {:induction false} ResolvePathOf(route: Route)
    requires ValidId(route.Id())
    ensures Resolve(PathOf(route)) == Some(route)
  {
    var path := PathOf(route);
    match route
    case OrderRoute(id) =>
      assert path[..|OrdersPrefix|] == OrdersPrefix;
      assert path[|OrdersPrefix|..] == id + "/";
      assert (id + "/")[..|id + "/"| - 1] == id;
    case TrackingRoute(id) =>
      assert path[3] == 't';
      assert !HasPrefix(path, OrdersPrefix);
      assert path[..|TrackingPrefix|] == TrackingPrefix;
      assert path[|TrackingPrefix|..] == id + "/";
      assert (id + "/")[..|id + "/"| - 1] == id;
  }

  /** An order path and a tracking path are never the same string. */
  lemma {:induction false} PathsOfDistinctKindsDiffer(a: string, b: string)
    ensures PathOf(OrderRoute(a)) != PathOf(TrackingRoute(b))
  {
    assert PathOf(OrderRoute(a))[3] == 'o';
    assert PathOf(TrackingRoute(b))[3] == 't';
  }

  /** Paths of the same kind are equal only when their identifiers are. */
  lemma {:induction false} PathOfInjective(r1: Route, r2: Route)
    requires PathOf(r1) == PathOf(r2)
    ensures r1 == r2
  {
    if r1.OrderRoute? && r2.TrackingRoute? {
      PathsOfDistinctKindsDiffer(r1.orderId, r2.partnerId);
    } else if r1.TrackingRoute? && r2.OrderRoute? {
      PathsOfDistinctKindsDiffer(r2.orderId, r1.partnerId);
    } else {
      var p := if r1.OrderRoute? then OrdersPrefix else TrackingPrefix;
      var a, b := r1.Id(), r2.Id();
      assert PathOf(r1) == p + a + "/" && PathOf(r2) == p + b + "/";
      assert |a| == |b|;
      assert forall i :: 0 <= i < |a| ==> a[i] == PathOf(r1)[|p| + i];
      assert a == b;
    }
  }

  /**
    An identifier outside `[0-9a-f-]+` (empty, upper-case hex, any other character)
    is refused on both routes, so no consumer is created for it.
   */
  lemma {:induction false} InvalidIdRejected(id: string)
    requires !ValidId(id)
    ensures Resolve(OrdersPrefix + id + "/") == None
    ensures Resolve(TrackingPrefix + id + "/") == None
  {
    var r1 := Resolve(PathOf(OrderRoute(id)));
    if r1.Some? {
      PathOfInjective(r1.value, OrderRoute(id));
    }
    var r2 := Resolve(PathOf(TrackingRoute(id)));
    if r2.Some? {
      PathOfInjective(r2.value, TrackingRoute(id));
    }
  }

  /** The trailing slash is required: an admissible identifier without it routes nowhere. */
  lemma {:induction false} TrailingSlashRequired(id: string)
    requires ValidId(id)
    ensures Resolve(OrdersPrefix + id) == None
    ensures Resolve(TrackingPrefix + id) == None
  {
    // Every routed path ends in '/', while an admissible identifier never does.
    assert (OrdersPrefix + id)[|OrdersPrefix + id| - 1] == id[|id| - 1];
    assert (TrackingPrefix + id)[|TrackingPrefix + id| - 1] == id[|id| - 1];
  }
}
