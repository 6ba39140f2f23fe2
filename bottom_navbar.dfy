/** The bottom navigation bar as a whole: from the current path, the
    signed-in user and the app mode to the five keyed links it renders
    (client/src/components/BottomNavbar.tsx). */
module BottomNavbar {
  import opened NavTypes
  import opened NavItems
  import opened NavLayout

  /** The entries the bar shows. Normalisation never changes the chosen set,
      because both sets already have five entries: no placeholder is ever
      shown and no shown entry is disabled. */
  function NavItemsFor(location: string, user: Option<User>, mode: string): (items: seq<NavItem>)
    ensures |items| == NavSlots
    ensures items == SelectNavItems(location, user, mode)
    ensures forall i :: 0 <= i < |items| ==> items[i] != Placeholder && !items[i].disabled
  {
    Normalize(SelectNavItems(location, user, mode))
  }

  /** The render pass: choose the set, normalise it with the loop of
      `getNavItems`, and key each entry. Every key is the entry's own href,
      and the five keys are pairwise different. */
  method Render(location: string, user: Option<User>, mode: string) returns (links: seq<NavLink>)
    ensures |links| == NavSlots
    ensures forall i :: 0 <= i < |links| ==>
      links[i].item == NavItemsFor(location, user, mode)[i] && links[i].key == links[i].item.href
    ensures DistinctKeys(links)
  {
    var navItems := SelectNavItems(location, user, mode);
    var items := GetNavItems(navItems);
    links := Links(items);
    SelectedHrefsDistinct(location, user, mode);
    NormalizedKeysDistinct(navItems);
  }

  /** The role alone picks the set: the seller set exactly for a signed-in
      user whose role is "shopkeeper", the customer set for everyone else,
      including nobody signed in. */
  lemma RoleSelectsSet(location: string, user: Option<User>, mode: string)
    ensures IsShopkeeper(user) ==> NavItemsFor(location, user, mode) == SellerNavItems(location)
    ensures !IsShopkeeper(user) ==> NavItemsFor(location, user, mode) == CustomerNavItems(location, user, mode)
    ensures IsShopkeeper(user) <==> NavItemsFor(location, user, mode)[0].caption == "Dashboard"
  {
  }

  /** The role comparison is exact: a differently capitalised role gets the
      customer set. */
  lemma RoleIsCaseSensitive(location: string, mode: string)
    ensures NavItemsFor(location, Some(User("Shopkeeper")), mode)[0].caption == "Home"
  {
  }

  /** The seller entries, in order, each active exactly while the path starts
      with its own href. */
  lemma SellerEntries(location: string, user: Option<User>, mode: string)
    requires IsShopkeeper(user)
    ensures Labels(NavItemsFor(location, user, mode)) == ["Dashboard", "Store", "Orders", "Inventory", "Account"]
    ensures Hrefs(NavItemsFor(location, user, mode))
      == ["/seller/dashboard", "/seller/store", "/seller/orders", "/seller/inventory", "/account"]
    ensures Icons(NavItemsFor(location, user, mode)) == [HomeIcon, StoreIcon, ShoppingCartIcon, PackageIcon, UserIcon]
    ensures forall i :: 0 <= i < NavSlots ==>
      NavItemsFor(location, user, mode)[i].active == StartsWith(location, NavItemsFor(location, user, mode)[i].href)
  {
  }

  /** The first customer entry is Home, active only on the root path itself. */
  lemma CustomerHome(location: string, user: Option<User>, mode: string)
    requires !IsShopkeeper(user)
    ensures NavItemsFor(location, user, mode)[0].href == "/"
    ensures NavItemsFor(location, user, mode)[0].caption == "Home"
    ensures NavItemsFor(location, user, mode)[0].icon == HomeIcon
    ensures NavItemsFor(location, user, mode)[0].active <==> location == "/"
  {
  }

  /** In shopping mode the middle entries are Products, Stores and the store
      map; the first two match by prefix, the map only on its exact path. */
  lemma ShoppingTriad(location: string, user: Option<User>, mode: string)
    requires !IsShopkeeper(user) && mode == ShoppingMode
    ensures Labels(NavItemsFor(location, user, mode)[1..4]) == ["Products", "Stores", "Map"]
    ensures Hrefs(NavItemsFor(location, user, mode)[1..4]) == ["/products", "/stores", "/store-maps"]
    ensures Icons(NavItemsFor(location, user, mode)[1..4]) == [PackageIcon, StoreIcon, MapPinIcon]
    ensures NavItemsFor(location, user, mode)[1].active == StartsWith(location, "/products")
    ensures NavItemsFor(location, user, mode)[2].active == StartsWith(location, "/stores")
    ensures NavItemsFor(location, user, mode)[3].active == (location == "/store-maps")
  {
  }

  /** In any other mode the middle entries are Menu, Restaurants and the
      restaurant map; Menu matches either of two prefixes, Restaurants one,
      and the map only its exact path. */
  lemma FoodTriad(location: string, user: Option<User>, mode: string)
    requires !IsShopkeeper(user) && mode != ShoppingMode
    ensures Labels(NavItemsFor(location, user, mode)[1..4]) == ["Menu", "Restaurants", "Map"]
    ensures Hrefs(NavItemsFor(location, user, mode)[1..4]) == ["/food-categories", "/restaurants", "/restaurant-maps"]
    ensures Icons(NavItemsFor(location, user, mode)[1..4]) == [UtensilsCrossedIcon, ChefHatIcon, MapPinIcon]
    ensures NavItemsFor(location, user, mode)[1].active
      == (StartsWith(location, "/food-categories") || StartsWith(location, "/categories"))
    ensures NavItemsFor(location, user, mode)[2].active == StartsWith(location, "/restaurants")
    ensures NavItemsFor(location, user, mode)[3].active == (location == "/restaurant-maps")
  {
  }

  /** The map entries match exactly: a path below the map's own path does not
      make it active, the map's path does. */
  lemma MapMatchesExactly(user: Option<User>, mode: string)
    requires !IsShopkeeper(user) && mode != ShoppingMode
    ensures NavItemsFor("/restaurant-maps", user, mode)[3].active
    ensures !NavItemsFor("/restaurant-maps/extra", user, mode)[3].active
  {
  }

  /** The last customer entry is always captioned "Account"; it links to the
      account page for a signed-in user and to the login page otherwise, and
      is active under either of the account prefixes. */
  lemma CustomerAccount(location: string, user: Option<User>, mode: string)
    requires !IsShopkeeper(user)
    ensures NavItemsFor(location, user, mode)[4].caption == "Account"
    ensures NavItemsFor(location, user, mode)[4].icon == UserIcon
    ensures NavItemsFor(location, user, mode)[4].href == (if user.Some? then "/account" else "/login")
    ensures NavItemsFor(location, user, mode)[4].active
      == (StartsWith(location, "/account") || StartsWith(location, "/customer-dashboard"))
  {
  }

  /** No two entries of `items` are active together. */
  predicate ExclusiveActive(items: seq<NavItem>) {
    forall i, j :: 0 <= i < j < |items| ==> !(items[i].active && items[j].active)
  }

  /** The seller hrefs pairwise part at some character, so no path starts
      with two of them. */
  lemma SellerExclusiveActive(location: string)
    ensures ExclusiveActive(SellerNavItems(location))
  {
    var items := SellerNavItems(location);
    forall i, j | 0 <= i < j < |items|
      ensures !(items[i].active && items[j].active)
    {
      // the "/seller/..." hrefs part at their ninth character, "/account" at its second
      PrefixesExclusive(location, items[i].href, items[j].href, if j == 4 then 1 else 8);
    }
  }

  lemma ShoppingExclusiveActive(location: string, user: Option<User>)
    ensures ExclusiveActive(CustomerNavItems(location, user, ShoppingMode))
  {
    PrefixesExclusive(location, "/products", "/stores", 1);
    PrefixesExclusive(location, "/products", "/store-maps", 1);
    PrefixesExclusive(location, "/products", "/account", 1);
    PrefixesExclusive(location, "/products", "/customer-dashboard", 1);
    PrefixesExclusive(location, "/stores", "/store-maps", 6);
    PrefixesExclusive(location, "/stores", "/account", 1);
    PrefixesExclusive(location, "/stores", "/customer-dashboard", 1);
    PrefixesExclusive(location, "/store-maps", "/account", 1);
    PrefixesExclusive(location, "/store-maps", "/customer-dashboard", 1);
  }

  lemma FoodExclusiveActive(location: string, user: Option<User>, mode: string)
    requires mode != ShoppingMode
    ensures ExclusiveActive(CustomerNavItems(location, user, mode))
  {
    PrefixesExclusive(location, "/food-categories", "/restaurants", 1);
    PrefixesExclusive(location, "/food-categories", "/restaurant-maps", 1);
    PrefixesExclusive(location, "/food-categories", "/account", 1);
    PrefixesExclusive(location, "/food-categories", "/customer-dashboard", 1);
    PrefixesExclusive(location, "/categories", "/restaurants", 1);
    PrefixesExclusive(location, "/categories", "/restaurant-maps", 1);
    PrefixesExclusive(location, "/categories", "/account", 1);
    PrefixesExclusive(location, "/categories", "/customer-dashboard", 2);
    PrefixesExclusive(location, "/restaurants", "/restaurant-maps", 11);
    PrefixesExclusive(location, "/restaurants", "/account", 1);
    PrefixesExclusive(location, "/restaurants", "/customer-dashboard", 1);
    PrefixesExclusive(location, "/restaurant-maps", "/account", 1);
    PrefixesExclusive(location, "/restaurant-maps", "/customer-dashboard", 1);
  }

  /** Whatever the path, role and mode, at most one entry is active: no two
      entries' match rules hold of the same path. */
  lemma AtMostOneActive(location: string, user: Option<User>, mode: string)
    ensures ExclusiveActive(NavItemsFor(location, user, mode))
  {
    if IsShopkeeper(user) {
      SellerExclusiveActive(location);
    } else if mode == ShoppingMode {
      ShoppingExclusiveActive(location, user);
    } else {
      FoodExclusiveActive(location, user, mode);
    }
  }

  /** On the products page in shopping mode, Products is the one active
      entry. */
  lemma ProductsAloneActive(user: Option<User>)
    requires !IsShopkeeper(user)
    ensures NavItemsFor("/products", user, ShoppingMode)[1].active
    ensures forall i :: 0 <= i < NavSlots && i != 1 ==> !NavItemsFor("/products", user, ShoppingMode)[i].active
  {
    AtMostOneActive("/products", user, ShoppingMode);
  }
}
