/** The two item sets of the bottom navigation bar and the choice between
    them by role (client/src/components/BottomNavbar.tsx, lines 13-100). */
module NavItems {
  import opened NavTypes

  const ShopkeeperRole: string := "shopkeeper"
  const ShoppingMode: string := "shopping"

  /** The seller set: Dashboard, Store, Orders, Inventory, Account, each
      active while the current path starts with its own href. */
  function SellerNavItems(location: string): (items: seq<NavItem>)
    ensures |items| == 5
    ensures forall i :: 0 <= i < |items| ==> items[i].active == StartsWith(location, items[i].href)
  {
    [ Entry("/seller/dashboard", HomeIcon, "Dashboard", StartsWith(location, "/seller/dashboard")),
      Entry("/seller/store", StoreIcon, "Store", StartsWith(location, "/seller/store")),
      Entry("/seller/orders", ShoppingCartIcon, "Orders", StartsWith(location, "/seller/orders")),
      Entry("/seller/inventory", PackageIcon, "Inventory", StartsWith(location, "/seller/inventory")),
      Entry("/account", UserIcon, "Account", StartsWith(location, "/account")) ]
  }

  /** The three customer entries between Home and Account: the shopping
      triad when the mode is exactly "shopping", the food triad otherwise.
      Both Map entries match their path exactly; Menu matches either of two
      prefixes. */
  function ModeNavItems(location: string, mode: string): (items: seq<NavItem>)
    ensures |items| == 3
    ensures items[2].caption == "Map" && items[2].active == (location == items[2].href)
  {
    if mode == ShoppingMode then
      [ Entry("/products", PackageIcon, "Products", StartsWith(location, "/products")),
        Entry("/stores", StoreIcon, "Stores", StartsWith(location, "/stores")),
        Entry("/store-maps", MapPinIcon, "Map", location == "/store-maps") ]
    else
      [ Entry("/food-categories", UtensilsCrossedIcon, "Menu",
              StartsWith(location, "/food-categories") || StartsWith(location, "/categories")),
        Entry("/restaurants", ChefHatIcon, "Restaurants", StartsWith(location, "/restaurants")),
        Entry("/restaurant-maps", MapPinIcon, "Map", location == "/restaurant-maps") ]
  }

  /** The last customer entry: always captioned "Account", linking to the
      account page when someone is signed in and to the login page
      otherwise. */
  function AccountNavItem(location: string, user: Option<User>): NavItem {
    Entry(if user.Some? then "/account" else "/login", UserIcon, "Account",
          StartsWith(location, "/account") || StartsWith(location, "/customer-dashboard"))
  }

  /** The customer set: Home, the mode's triad, Account. */
  function CustomerNavItems(location: string, user: Option<User>, mode: string): (items: seq<NavItem>)
    ensures |items| == 5
    ensures items[1..4] == ModeNavItems(location, mode)
  {
    [Entry("/", HomeIcon, "Home", location == "/")] + ModeNavItems(location, mode) + [AccountNavItem(location, user)]
  }

  /** `user?.role === "shopkeeper"`: a signed-in user whose role is exactly
      that string. */
  predicate IsShopkeeper(user: Option<User>) {
    user.Some? && user.value.role == ShopkeeperRole
  }

  /** The set the navigation bar shows before normalisation. Either set has
      five routable entries with pairwise different hrefs. */
  function SelectNavItems(location: string, user: Option<User>, mode: string): (items: seq<NavItem>)
    ensures |items| == 5
    ensures Routable(items)
  {
    if IsShopkeeper(user) then SellerNavItems(location) else CustomerNavItems(location, user, mode)
  }

  /** The hrefs of the chosen set are pairwise different, whatever the
      role, mode and path: every real entry's key is unique. */
  lemma SelectedHrefsDistinct(location: string, user: Option<User>, mode: string)
    ensures DistinctHrefs(SelectNavItems(location, user, mode))
  {
  }
}
