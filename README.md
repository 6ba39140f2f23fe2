# Bottom navigation resolver

This project models the bottom navigation bar of a role-based shopping and
food-ordering web application. It is a Dafny model of
`client/src/components/BottomNavbar.tsx`. The bar reads three values:

- the current route path;
- the signed-in user, who may be absent and otherwise has a `role` string;
- the app mode string.

From these it derives five navigation entries. Each entry has an href, an icon,
a caption (the source's `label`), an `active` flag and a `disabled` flag.
Each rendered entry also gets a list key.

- `NavTypes` (`nav_types.dfy`) holds the user, the icon tags, the entry, the
  placeholder entry and JavaScript's `startsWith` as a sequence-prefix test.
- `NavItems` (`nav_items.dfy`) holds the seller set, the customer set with its
  mode-dependent triad, and the role test that picks one of them.
- `NavLayout` (`nav_layout.dfy`) holds the pad-to-five-then-slice
  normalisation. It appears as a pure function and as the `while` loop of
  `getNavItems`, with the loop proved equal to the function. This module also
  holds the key rule.
- `Decimal` (`decimal.dfy`) renders the placeholder index as a decimal
  numeral and proves that distinct numbers get distinct numerals.
- `BottomNavbar` (`bottom_navbar.dfy`) composes these into the render pass and
  proves what the bar promises.

The three hook values become plain parameters: `location: string`,
`user: Option<User>` and `mode: string`.

The last customer entry's caption stays "Account" even when nobody is signed
in. Only its href changes, to `/login` (lines 93-95).

## Model

| member | source | states |
|---|---|---|
| NavItems.SellerNavItems | client/src/components/BottomNavbar.tsx:13-44 | the seller set has five entries, and each is active exactly when the path starts with that entry's own href |
| NavItems.ModeNavItems | client/src/components/BottomNavbar.tsx:53-91 | either triad has three entries, and its last entry is a Map that is active only when the path equals its href exactly |
| NavItems.CustomerNavItems | client/src/components/BottomNavbar.tsx:46-98 | the customer set has five entries, and entries 1 to 3 are the triad chosen by the mode |
| NavItems.SelectNavItems | client/src/components/BottomNavbar.tsx:100 | whatever the role, the chosen set has five entries, each linking to a route (its href starts with `/`) and none disabled |
| NavItems.SelectedHrefsDistinct | client/src/components/BottomNavbar.tsx:13-100 | no two entries of the chosen set share an href, for every role, mode and path |
| NavLayout.Normalize | client/src/components/BottomNavbar.tsx:103-117 | the result has exactly five entries: the input's first entries in order, then `{href "#", caption "", inactive, disabled}` placeholders for the missing slots |
| NavLayout.GetNavItems | client/src/components/BottomNavbar.tsx:103-117 | the copy, push-while-shorter-than-five and slice loop yields exactly the normalised list |
| NavLayout.Links | client/src/components/BottomNavbar.tsx:122-126 | rendering keeps the entries in order, one link per entry; a real entry is keyed by its href, an entry with href `#` by `placeholder-` followed by its index in decimal |
| NavLayout.NormalizedKeysDistinct | client/src/components/BottomNavbar.tsx:126 | if the listed entries link to routes with pairwise different hrefs, all five keys are pairwise different (real entries keyed by href, placeholders by `placeholder-<index>`) |
| Decimal.NatToString | client/src/components/BottomNavbar.tsx:126 | the index in a placeholder key is a non-empty string of decimal digits, with no leading zero except for 0 itself, one digit long exactly for indices below ten |
| Decimal.NatToStringValue | client/src/components/BottomNavbar.tsx:126 | read back as a decimal number, the numeral is the index it renders |
| Decimal.NatToStringInjective | client/src/components/BottomNavbar.tsx:126 | two indices give the same placeholder numeral exactly when they are equal |
| BottomNavbar.NavItemsFor | client/src/components/BottomNavbar.tsx:100-117 | the bar always shows exactly five entries; normalisation leaves the chosen set unchanged, so no placeholder is shown and no shown entry is disabled |
| BottomNavbar.Render | client/src/components/BottomNavbar.tsx:119-126 | the render pass yields five links showing the resolved entries in order; each key is the entry's href, and the keys are pairwise different |
| BottomNavbar.RoleSelectsSet | client/src/components/BottomNavbar.tsx:100 | a signed-in user with role exactly "shopkeeper" gets the seller set; no user or any other role gets the customer set; the first caption is "Dashboard" exactly in the seller case |
| BottomNavbar.RoleIsCaseSensitive | client/src/components/BottomNavbar.tsx:100 | the role "Shopkeeper" gets the customer set |
| BottomNavbar.SellerEntries | client/src/components/BottomNavbar.tsx:13-44 | seller entries are, in order, Dashboard, Store, Orders, Inventory, Account with their hrefs and icons, and each is active exactly when the path starts with its href |
| BottomNavbar.CustomerHome | client/src/components/BottomNavbar.tsx:47-52 | customer entry 0 is Home with href `/` and the home icon, and it is active exactly when the path equals `/` |
| BottomNavbar.ShoppingTriad | client/src/components/BottomNavbar.tsx:53-71 | in mode "shopping" the middle entries are Products, Stores and Map(`/store-maps`) with the package, store and map-pin icons; the first two match by prefix, the map by equality |
| BottomNavbar.FoodTriad | client/src/components/BottomNavbar.tsx:72-91 | in any other mode the middle entries are Menu, Restaurants and Map(`/restaurant-maps`) with the utensils, chef-hat and map-pin icons; Menu matches `/food-categories` or `/categories` as a prefix, Restaurants matches by prefix, the map by equality |
| BottomNavbar.MapMatchesExactly | client/src/components/BottomNavbar.tsx:85-90 | the restaurant map is active on `/restaurant-maps` and not on `/restaurant-maps/extra` |
| BottomNavbar.CustomerAccount | client/src/components/BottomNavbar.tsx:92-97 | the last customer entry is captioned "Account" with the user icon; its href is `/account` with a user and `/login` without one; it is active exactly when the path starts with `/account` or `/customer-dashboard` |
| BottomNavbar.SellerExclusiveActive | client/src/components/BottomNavbar.tsx:13-44 | no path makes two seller entries active |
| BottomNavbar.ShoppingExclusiveActive | client/src/components/BottomNavbar.tsx:46-98 | no path makes two entries of the shopping customer set active |
| BottomNavbar.FoodExclusiveActive | client/src/components/BottomNavbar.tsx:46-98 | no path makes two entries of the food customer set active |
| BottomNavbar.AtMostOneActive | client/src/components/BottomNavbar.tsx:13-100 | for every path, role and mode, at most one shown entry is active |
| BottomNavbar.ProductsAloneActive | client/src/components/BottomNavbar.tsx:53-59 | on `/products` in shopping mode, Products is the only active entry |

## Left out

- JSX markup, CSS class choice, icon components and the `aria-disabled` wiring (lines 119-146) are presentation. The model keeps the list of entries, an icon tag per entry and each entry's key.
- The `useLocation`, `useAuth` and `useAppMode` hooks (lines 8-10) supply external state. Their results are parameters.
- Real entries in the source have no `disabled` property. The render reads it as `undefined`, which is falsy. The model writes `false`.
- JavaScript strings are UTF-16 code-unit sequences. The model compares sequences of Dafny `char`, which agrees for the literal paths used here.
- `server/vite.ts`, `server/index.ts`, `server/db.ts` and `vite.config.ts` are not part of this model. They consist of dev-server, static-file, HTTP, database-pool and build configuration code over libraries and I/O, with no stateable algorithm. `server/db.ts` has no connection retry or pool-size setting to model.
