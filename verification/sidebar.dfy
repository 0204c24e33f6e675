/**
 * Navigation of the dashboard sidebar (src/components/sidebar/app-sidebar.tsx).
 */
module Sidebar {
  import opened Wrappers
  import opened ProviderData

  datatype MenuItem = MenuItem(title: string, url: string)

  /** ownerMenuItems. */
  const OwnerMenuItems: seq<MenuItem> := [MenuItem("Négocios", "/businesses"), MenuItem("Restaurantes", "/restaurants")]

  /** menuItems. */
  const MenuItems: seq<MenuItem> := [
    MenuItem("Dashboard", "/"), MenuItem("Categorias", "/categories"), MenuItem("Ingredientes", "/ingredients"),
    MenuItem("Refeições", "/meals"), MenuItem("Menus", "/menus"), MenuItem("Mesas", "/tables"),
    MenuItem("Pedidos", "/requests")
  ]

  /** isActive(url): the dashboard only on "/" itself, any other entry on every path it prefixes. */
  function IsActive(pathname: string, url: string): (r: bool)
    ensures url == "/" ==> (r <==> pathname == "/")
    ensures url != "/" ==> (r <==> url <= pathname)
  {
    if url == "/" then pathname == "/" else url <= pathname
  }

  /** A rendered menu button. */
  datatype Entry = Entry(item: MenuItem, disabled: bool, active: bool)

  /** The two groups the sidebar renders. */
  datatype View = View(ownerEntries: seq<Entry>, entries: seq<Entry>)

  function Entries(items: seq<MenuItem>, disabled: bool, pathname: string): (r: seq<Entry>)
    ensures |r| == |items|
    ensures forall i :: 0 <= i < |items| ==>
      r[i] == Entry(items[i], disabled, IsActive(pathname, items[i].url))
  {
    seq(|items|, i requires 0 <= i < |items| => Entry(items[i], disabled, IsActive(pathname, items[i].url)))
  }

  /** AppSidebar(): nothing without a user; the owner group only for owners, disabled until a restaurant is chosen. */
  function Render(user: Option<User>, currentRestaurant: Option<Restaurant>, pathname: string): (r: Option<View>)
    ensures r.None? <==> user.None?
    ensures r.Some? ==> (r.value.ownerEntries != [] <==> user.value.role == OwnerRole)
    ensures r.Some? ==> forall e :: e in r.value.ownerEntries ==> (e.disabled <==> currentRestaurant.None?)
    ensures r.Some? && user.value.role == OwnerRole ==>
      |r.value.ownerEntries| == |OwnerMenuItems|
      && forall i :: 0 <= i < |OwnerMenuItems| ==>
           r.value.ownerEntries[i].item == OwnerMenuItems[i]
           && r.value.ownerEntries[i].active == IsActive(pathname, OwnerMenuItems[i].url)
    ensures r.Some? ==> forall e :: e in r.value.entries ==> !e.disabled
    ensures r.Some? ==> |r.value.entries| == |MenuItems|
                        && forall i :: 0 <= i < |MenuItems| ==> r.value.entries[i].item == MenuItems[i]
                                                                && r.value.entries[i].active == IsActive(pathname, MenuItems[i].url)
  {
    if user.None? then None
    else
      var showOwnerItems := user.value.role == OwnerRole;
      var hasRestaurantSelected := currentRestaurant.Some?;
      assert |OwnerMenuItems| == 2;
      Some(View(if showOwnerItems then Entries(OwnerMenuItems, !hasRestaurantSelected, pathname) else [],
                Entries(MenuItems, false, pathname)))
  }

  /** The dashboard entry is active on "/" only; "/tables" is active on "/tablesx" as well, a prefix and not a segment test. */
  lemma ActiveExamples()
    ensures IsActive("/", "/") && !IsActive("/meals", "/")
    ensures IsActive("/tables/3", "/tables") && IsActive("/tablesx", "/tables")
    ensures !IsActive("/menu", "/menus")
  {
  }

  /** On a given page the only active entries are those whose url prefixes it, or the dashboard on "/". */
  lemma {:induction false} ActiveEntriesMatchPath(user: User, currentRestaurant: Option<Restaurant>, pathname: string)
    requires pathname != "/"
    ensures var v := Render(Some(user), currentRestaurant, pathname).value;
      forall i :: 0 <= i < |v.entries| && v.entries[i].active ==> v.entries[i].item.url != "/" && v.entries[i].item.url <= pathname
  {
    var v := Render(Some(user), currentRestaurant, pathname).value;
    forall i | 0 <= i < |v.entries| && v.entries[i].active
      ensures v.entries[i].item.url != "/" && v.entries[i].item.url <= pathname
    {
      assert v.entries[i].active == IsActive(pathname, MenuItems[i].url);
    }
  }
}
