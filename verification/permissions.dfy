/**
  The object permission `IsRestaurantOwner` (core/permissions.py), which the
  category and menu-item views apply (menu/views.py): reads are open to
  everyone, and a write is allowed only to the user who owns the restaurant the
  object belongs to, found through the object's own owner, its restaurant, or
  its category's restaurant, in that order. The restaurant views apply only
  `IsAuthenticatedOrReadOnly`; the answer for a restaurant object is how this
  check would decide if a view applied it.
 */
module Permissions {
  import opened Wrappers
  import opened OrderModels

  /** The HTTP methods that only read. */
  const SafeMethods: set<string> := {"GET", "HEAD", "OPTIONS"}

  /** The user behind a request. */
  datatype User = Anonymous | Member(id: UserId)

  datatype RestaurantRef = RestaurantRef(owner: UserId)
  datatype CategoryRef = CategoryRef(restaurant: RestaurantRef)

  /**
    What the check can see of an object: each attribute it looks for, or None
    when the object has no such attribute.
   */
  datatype Target = Target(owner: Option<UserId>, restaurant: Option<RestaurantRef>,
                           category: Option<CategoryRef>)

  /** A restaurant carries its owner. */
  function RestaurantObject(owner: UserId): Target {
    Target(Some(owner), None, None)
  }

  /** A menu category belongs to a restaurant. */
  function CategoryObject(restaurant: RestaurantRef): Target {
    Target(None, Some(restaurant), None)
  }

  /** A menu item belongs to a category. */
  function MenuItemObject(category: CategoryRef): Target {
    Target(None, None, Some(category))
  }

  /** The request's user is the given user; an anonymous user is nobody. */
  predicate IsUser(user: User, id: UserId) {
    user == Member(id)
  }

  /** `IsRestaurantOwner.has_object_permission`. */
  function HasObjectPermission(httpMethod: string, user: User, obj: Target): (allowed: bool)
    ensures httpMethod in SafeMethods ==> allowed
    ensures user.Anonymous? && httpMethod !in SafeMethods ==> !allowed
  {
    if httpMethod in SafeMethods then true
    else if obj.owner.Some? then IsUser(user, obj.owner.value)
    else if obj.restaurant.Some? then IsUser(user, obj.restaurant.value.owner)
    else if obj.category.Some? then IsUser(user, obj.category.value.restaurant.owner)
    else false
  }

  /** The user a write answers to: the first of the three attributes present. */
  function ResponsibleOwner(obj: Target): Option<UserId> {
    match (obj.owner, obj.restaurant, obj.category)
    case (Some(o), _, _) => Some(o)
    case (None, Some(r), _) => Some(r.owner)
    case (None, None, Some(c)) => Some(c.restaurant.owner)
    case (None, None, None) => None
  }

  /**
    Reads are always allowed; a write is allowed exactly to the responsible
    owner, and an object with none of the attributes cannot be written at all.
   */
  lemma {:induction false} WriteOnlyByResponsibleOwner(httpMethod: string, user: User, obj: Target)
    ensures HasObjectPermission(httpMethod, user, obj) <==>
              httpMethod in SafeMethods || (ResponsibleOwner(obj).Some? && user == Member(ResponsibleOwner(obj).value))
  {
  }

  /** At most one user may write a given object. */
  lemma {:induction false} AtMostOneWriter(httpMethod: string, a: User, b: User, obj: Target)
    requires httpMethod !in SafeMethods
    requires HasObjectPermission(httpMethod, a, obj) && HasObjectPermission(httpMethod, b, obj)
    ensures a == b && a.Member?
  {
    WriteOnlyByResponsibleOwner(httpMethod, a, obj);
    WriteOnlyByResponsibleOwner(httpMethod, b, obj);
  }

  /**
    Categories and menu items are each writable by their restaurant's owner
    alone; so would a restaurant be, were the check applied to it.
   */
  lemma {:induction false} MenuObjectsAnswerToRestaurantOwner(httpMethod: string, user: User, r: RestaurantRef)
    requires httpMethod !in SafeMethods
    ensures HasObjectPermission(httpMethod, user, RestaurantObject(r.owner)) <==> user == Member(r.owner)
    ensures HasObjectPermission(httpMethod, user, CategoryObject(r)) <==> user == Member(r.owner)
    ensures HasObjectPermission(httpMethod, user, MenuItemObject(CategoryRef(r))) <==> user == Member(r.owner)
  {
  }

  /** An object's own owner takes precedence over the restaurant and category it points to. */
  lemma {:induction false} OwnOwnerTakesPrecedence(httpMethod: string, user: User, owner: UserId,
                                                   restaurant: Option<RestaurantRef>, category: Option<CategoryRef>)
    ensures HasObjectPermission(httpMethod, user, Target(Some(owner), restaurant, category))
              == HasObjectPermission(httpMethod, user, Target(Some(owner), None, None))
  {
  }
}
