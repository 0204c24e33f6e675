/**
 * Business and restaurant selection on the client (src/providers/business-provider.tsx).
 */
module BusinessContext {
  import opened Wrappers
  import opened Seqs
  import opened ProviderData

  const MockBusinesses: seq<Business> := [
    Business("1", "Delicious Dining Group", "Premium restaurant chain", "1"),
    Business("2", "Fast Food Empire", "Quick service restaurants", "1")
  ]

  const MockRestaurants: seq<Restaurant> := [
    Restaurant("1", "Downtown Bistro", "123 Main St", "1", "+1-555-0101"),
    Restaurant("2", "Uptown Grill", "456 Oak Ave", "1", "+1-555-0102"),
    Restaurant("3", "Quick Burger", "789 Pine St", "2", "+1-555-0201"),
    Restaurant("4", "Speedy Pizza", "321 Elm St", "2", "+1-555-0202")
  ]

  /** The four pieces of state the provider exposes. */
  datatype Selection = Selection(businesses: seq<Business>, restaurants: seq<Restaurant>,
                                 currentBusiness: Option<Business>, currentRestaurant: Option<Restaurant>)

  const NoSelection := Selection([], [], None, None)

  predicate OwnedBy(ownerId: string, b: Business) { b.ownerId == ownerId }

  /** `mockBusinesses.filter((b) => b.ownerId === user.id)`. */
  function OwnedBusinesses(ownerId: string): (r: seq<Business>)
    ensures IsSubsequence(r, MockBusinesses)
    ensures forall b :: b in r <==> b in MockBusinesses && b.ownerId == ownerId
  {
    Filter(MockBusinesses, b => OwnedBy(ownerId, b))
  }

  function FindBusiness(bs: seq<Business>, id: string): (r: Option<Business>)
    ensures r.Some? ==> r.value in bs && r.value.id == id
    ensures r.None? <==> forall b :: b in bs ==> b.id != id
  {
    if bs == [] then None else if bs[0].id == id then Some(bs[0]) else FindBusiness(bs[1..], id)
  }

  function FindRestaurant(rs: seq<Restaurant>, id: string): (r: Option<Restaurant>)
    ensures r.Some? ==> r.value in rs && r.value.id == id
    ensures r.None? <==> forall x :: x in rs ==> x.id != id
  {
    if rs == [] then None else if rs[0].id == id then Some(rs[0]) else FindRestaurant(rs[1..], id)
  }

  function SavedBusiness(items: map<string, Stored>): Option<Business>
  {
    if CurrentBusinessKey in items && items[CurrentBusinessKey].StoredBusiness? then Some(items[CurrentBusinessKey].business) else None
  }

  function SavedRestaurant(items: map<string, Stored>): Option<Restaurant>
  {
    if CurrentRestaurantKey in items && items[CurrentRestaurantKey].StoredRestaurant? then Some(items[CurrentRestaurantKey].restaurant) else None
  }

  /** JavaScript truthiness of an optional string. */
  predicate Truthy(s: Option<string>) { s.Some? && s.value != "" }

  /** The effect that runs whenever `user` changes, as a step from the previous selection. */
  function UserEffect(s: Selection, user: Option<User>, items: map<string, Stored>): Selection
  {
    if user.None? then NoSelection
    else if user.value.role == OwnerRole then
      var own := OwnedBusinesses(user.value.id);
      var saved := SavedBusiness(items);
      var savedR := SavedRestaurant(items);
      Selection(own, MockRestaurants,
        if saved.Some? && FindBusiness(own, saved.value.id).Some? then saved else s.currentBusiness,
        if savedR.Some? && FindRestaurant(MockRestaurants, savedR.value.id).Some? then savedR else s.currentRestaurant)
    else if Truthy(user.value.businessId) && Truthy(user.value.restaurantId) then
      var b := FindBusiness(MockBusinesses, user.value.businessId.value);
      var r := FindRestaurant(MockRestaurants, user.value.restaurantId.value);
      if b.Some? && r.Some? then Selection([b.value], [r.value], b, r) else s
    else s
  }

  class BusinessProvider {
    /** The user of the authentication provider, as last seen by the effect. */
    var user: Option<User>
    var businesses: seq<Business>
    var restaurants: seq<Restaurant>
    var currentBusiness: Option<Business>
    var currentRestaurant: Option<Restaurant>
    const storage: LocalStorage

    function State(): Selection
      reads this
    {
      Selection(businesses, restaurants, currentBusiness, currentRestaurant)
    }

    constructor(storage: LocalStorage)
      ensures user == None && State() == NoSelection && this.storage == storage
    {
      user := None;
      businesses, restaurants := [], [];
      currentBusiness, currentRestaurant := None, None;
      this.storage := storage;
    }

    /** The effect on `[user]`. It reads storage and writes none. */
    method OnUserChange(newUser: Option<User>)
      modifies this
      ensures user == newUser
      ensures State() == UserEffect(old(State()), newUser, storage.items)
    {
      user := newUser;
      if newUser.Some? {
        var u := newUser.value;
        if u.role == OwnerRole {
          var userBusinesses := OwnedBusinesses(u.id);
          businesses := userBusinesses;
          restaurants := MockRestaurants;
          var savedBusiness := SavedBusiness(storage.items);
          var savedRestaurant := SavedRestaurant(storage.items);
          if savedBusiness.Some? {
            if FindBusiness(userBusinesses, savedBusiness.value.id).Some? {
              currentBusiness := savedBusiness;
            }
          }
          if savedRestaurant.Some? {
            if FindRestaurant(MockRestaurants, savedRestaurant.value.id).Some? {
              currentRestaurant := savedRestaurant;
            }
          }
        } else {
          if Truthy(u.businessId) && Truthy(u.restaurantId) {
            var business := FindBusiness(MockBusinesses, u.businessId.value);
            var restaurant := FindRestaurant(MockRestaurants, u.restaurantId.value);
            if business.Some? && restaurant.Some? {
              businesses := [business.value];
              restaurants := [restaurant.value];
              currentBusiness := business;
              currentRestaurant := restaurant;
            }
          }
        }
      } else {
        businesses := [];
        restaurants := [];
        currentBusiness := None;
        currentRestaurant := None;
      }
    }

    /** setCurrentBusiness(business): select it, drop the restaurant, and mirror both in storage. */
    method SetCurrentBusiness(business: Option<Business>)
      modifies this, storage
      ensures currentBusiness == business && currentRestaurant == None
      ensures businesses == old(businesses) && restaurants == old(restaurants) && user == old(user)
      ensures storage.items == (if business.Some? then old(storage.items)[CurrentBusinessKey := StoredBusiness(business.value)]
                                else old(storage.items) - {CurrentBusinessKey}) - {CurrentRestaurantKey}
    {
      currentBusiness := business;
      currentRestaurant := None;
      if business.Some? {
        storage.SetItem(CurrentBusinessKey, StoredBusiness(business.value));
      } else {
        storage.RemoveItem(CurrentBusinessKey);
      }
      storage.RemoveItem(CurrentRestaurantKey);
    }

    /** setCurrentRestaurant(restaurant): only the restaurant and its storage key change. */
    method SetCurrentRestaurant(restaurant: Option<Restaurant>)
      modifies this, storage
      ensures currentRestaurant == restaurant
      ensures currentBusiness == old(currentBusiness) && businesses == old(businesses)
              && restaurants == old(restaurants) && user == old(user)
      ensures storage.items == if restaurant.Some? then old(storage.items)[CurrentRestaurantKey := StoredRestaurant(restaurant.value)]
                               else old(storage.items) - {CurrentRestaurantKey}
    {
      currentRestaurant := restaurant;
      if restaurant.Some? {
        storage.SetItem(CurrentRestaurantKey, StoredRestaurant(restaurant.value));
      } else {
        storage.RemoveItem(CurrentRestaurantKey);
      }
    }

    /** getRestaurantsForBusiness(businessId): the restaurants of that business, in order. */
    function RestaurantsForBusiness(businessId: string): (r: seq<Restaurant>)
      reads this
      ensures IsSubsequence(r, restaurants)
      ensures forall x :: x in r <==> x in restaurants && x.businessId == businessId
    {
      Filter(restaurants, x => BelongsTo(businessId, x))
    }

    /** canAccessRestaurant(restaurantId). */
    function CanAccessRestaurant(restaurantId: string): (r: bool)
      reads this
      ensures r <==> CanAccess(user, restaurantId)
    {
      if user.Some? && user.value.role == OwnerRole then true
      else if user.Some? && user.value.role == StaffRole then user.value.restaurantId == Some(restaurantId)
      else false
    }
  }

  predicate BelongsTo(businessId: string, r: Restaurant) { r.businessId == businessId }

  /** Who may open a restaurant: an owner any, a staff member only their own, nobody else. */
  ghost predicate CanAccess(user: Option<User>, restaurantId: string)
  {
    match user
    case None => false
    case Some(u) => u.role == OwnerRole || u.restaurantId == Some(restaurantId)
  }

  // ---------------------------------------------------------------------------
  // Properties of the user effect
  // ---------------------------------------------------------------------------

  /** Signing out clears all four fields. */
  lemma NoUserClearsSelection(s: Selection, items: map<string, Stored>)
    ensures UserEffect(s, None, items) == NoSelection
  {
  }

  /**
   * For an owner the lists are the owner's businesses and every mock restaurant. A saved
   * business is restored exactly when one of the owner's businesses has its id, a saved
   * restaurant exactly when some mock restaurant has its id; otherwise the selection is kept.
   */
  lemma {:induction false} OwnerRestore(s: Selection, owner: User, items: map<string, Stored>)
    requires owner.role == OwnerRole
    ensures var t := UserEffect(s, Some(owner), items);
      && (forall b :: b in t.businesses <==> b in MockBusinesses && b.ownerId == owner.id)
      && t.restaurants == MockRestaurants
      && t.currentBusiness ==
           (if SavedBusiness(items).Some?
               && exists b :: b in MockBusinesses && b.ownerId == owner.id && b.id == SavedBusiness(items).value.id
            then SavedBusiness(items) else s.currentBusiness)
      && t.currentRestaurant ==
           (if SavedRestaurant(items).Some?
               && exists r :: r in MockRestaurants && r.id == SavedRestaurant(items).value.id
            then SavedRestaurant(items) else s.currentRestaurant)
  {
    var own := OwnedBusinesses(owner.id);
    var saved := SavedBusiness(items);
    if saved.Some? {
      if exists b :: b in MockBusinesses && b.ownerId == owner.id && b.id == saved.value.id {
        var b :| b in MockBusinesses && b.ownerId == owner.id && b.id == saved.value.id;
        assert b in own;
      }
    }
    var savedR := SavedRestaurant(items);
    if savedR.Some? {
      var found := FindRestaurant(MockRestaurants, savedR.value.id);
      if found.Some? {
        assert found.value in MockRestaurants;
      }
    }
  }

  /** The restored restaurant is not checked against the restored business. */
  lemma OwnerRestaurantFromOtherBusiness()
    ensures var owner := User("1", "John Owner", "owner@example.com", OwnerRole, None, None);
      var items := map[CurrentBusinessKey := StoredBusiness(MockBusinesses[0]),
                       CurrentRestaurantKey := StoredRestaurant(MockRestaurants[2])];
      var t := UserEffect(NoSelection, Some(owner), items);
      t.currentBusiness == Some(MockBusinesses[0]) && t.currentRestaurant == Some(MockRestaurants[2])
      && t.currentRestaurant.value.businessId != t.currentBusiness.value.id
  {
    var own := OwnedBusinesses("1");
    assert OwnedBy("1", MockBusinesses[0]);
    assert MockBusinesses[0] in own;
    assert FindBusiness(own, "1").Some?;
    assert FindRestaurant(MockRestaurants, "3").Some? by {
      assert MockRestaurants[2].id == "3";
    }
  }

  /**
   * A staff member sees exactly their business and restaurant once both ids are set and
   * resolve; when either is missing or unknown nothing changes.
   */
  lemma StaffSelection(s: Selection, staff: User, items: map<string, Stored>)
    requires staff.role == StaffRole
    ensures var t := UserEffect(s, Some(staff), items);
      if Truthy(staff.businessId) && Truthy(staff.restaurantId)
         && (exists b :: b in MockBusinesses && b.id == staff.businessId.value)
         && (exists r :: r in MockRestaurants && r.id == staff.restaurantId.value)
      then
        && |t.businesses| == 1 && |t.restaurants| == 1
        && t.currentBusiness == Some(t.businesses[0]) && t.currentRestaurant == Some(t.restaurants[0])
        && t.businesses[0] in MockBusinesses && t.businesses[0].id == staff.businessId.value
        && t.restaurants[0] in MockRestaurants && t.restaurants[0].id == staff.restaurantId.value
      else t == s
  {
  }

  /** A staff member without both ids keeps the previous selection untouched. */
  lemma StaffWithoutIdsChangesNothing(s: Selection, staff: User, items: map<string, Stored>)
    requires staff.role == StaffRole && (!Truthy(staff.businessId) || !Truthy(staff.restaurantId))
    ensures UserEffect(s, Some(staff), items) == s
  {
  }

  /** The demo staff account resolves to Downtown Bistro of Delicious Dining Group. */
  lemma DemoStaffSelection(s: Selection, items: map<string, Stored>)
    ensures var staff := User("2", "Jane Staff", "staff@example.com", StaffRole, Some("1"), Some("1"));
      UserEffect(s, Some(staff), items) == Selection([MockBusinesses[0]], [MockRestaurants[0]],
                                                    Some(MockBusinesses[0]), Some(MockRestaurants[0]))
  {
  }

  /**
   * Selecting one of the owner's businesses survives a reload: the storage left by
   * setCurrentBusiness makes the user effect of a fresh provider restore it, with no restaurant.
   */
  lemma {:induction false} SelectionSurvivesReload(owner: User, b: Business, items: map<string, Stored>)
    requires owner.role == OwnerRole && b in MockBusinesses && b.ownerId == owner.id
    ensures var stored := items[CurrentBusinessKey := StoredBusiness(b)] - {CurrentRestaurantKey};
      UserEffect(NoSelection, Some(owner), stored).currentBusiness == Some(b)
      && UserEffect(NoSelection, Some(owner), stored).currentRestaurant == None
  {
    var own := OwnedBusinesses(owner.id);
    assert b in own;
    assert FindBusiness(own, b.id).Some?;
  }
}
