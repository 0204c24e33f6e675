/**
 * Records shared by the client-side providers and the browser storage they write
 * (src/providers/auth-provider.tsx, src/providers/business-provider.tsx).
 */
module ProviderData {
  import opened Wrappers

  datatype UserRole = OwnerRole | StaffRole

  /** The signed-in user of the mock authentication. */
  datatype User = User(id: string, name: string, email: string, role: UserRole,
                       businessId: Option<string>, restaurantId: Option<string>)

  datatype Business = Business(id: string, name: string, description: string, ownerId: string)

  datatype Restaurant = Restaurant(id: string, name: string, address: string, businessId: string, phone: string)

  /** A value the providers keep in storage, as it reads back after `JSON.parse`. */
  datatype Stored = StoredUser(user: User) | StoredBusiness(business: Business) | StoredRestaurant(restaurant: Restaurant)

  const UserKey := "user"
  const CurrentBusinessKey := "currentBusiness"
  const CurrentRestaurantKey := "currentRestaurant"

  /** The browser's `localStorage`: one map from keys to stored values, shared by both providers. */
  class LocalStorage {
    var items: map<string, Stored>

    constructor()
      ensures items == map[]
    {
      items := map[];
    }

    /** localStorage.setItem(key, JSON.stringify(value)). */
    method SetItem(key: string, value: Stored)
      modifies this
      ensures items == old(items)[key := value]
    {
      items := items[key := value];
    }

    /** localStorage.removeItem(key). */
    method RemoveItem(key: string)
      modifies this
      ensures items == old(items) - {key}
    {
      items := items - {key};
    }
  }
}
