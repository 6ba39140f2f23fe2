/** Normalising the chosen set to exactly five slots, and the list key each
    rendered entry gets (client/src/components/BottomNavbar.tsx, lines
    103-126). */
module NavLayout {
  import opened NavTypes
  import opened Decimal

  /** The bar always lays out this many slots. */
  const NavSlots: nat := 5

  function Placeholders(n: nat): (ps: seq<NavItem>)
    ensures |ps| == n
    ensures forall i :: 0 <= i < n ==> ps[i] == Placeholder
  {
    seq(n, _ => Placeholder)
  }

  /** Pad with placeholders up to five entries, then keep the first five:
      the result is the longest prefix of `items` that fits, followed by
      placeholders. */
  function Normalize(items: seq<NavItem>): (r: seq<NavItem>)
    ensures |r| == NavSlots
    ensures forall i :: 0 <= i < |items| && i < NavSlots ==> r[i] == items[i]
    ensures forall i :: |items| <= i < NavSlots ==> r[i] == Placeholder
  {
    if |items| < NavSlots then items + Placeholders(NavSlots - |items|) else items[..NavSlots]
  }

  /** `getNavItems`: copy the list, push placeholders while it is shorter
      than five, then slice off the first five. */
  method GetNavItems(navItems: seq<NavItem>) returns (result: seq<NavItem>)
    ensures result == Normalize(navItems)
  {
    var items := navItems;
    while |items| < NavSlots
      invariant |navItems| <= |items|
      invariant items[..|navItems|] == navItems
      invariant forall i :: |navItems| <= i < |items| ==> items[i] == Placeholder
      invariant |navItems| < NavSlots ==> |items| <= NavSlots
      decreases NavSlots - |items|
    {
      items := items + [Placeholder];
    }
    result := items[..NavSlots];
  }

  /** The list key of the entry at `index`: its href, or a positional key for
      a placeholder, whose href `#` is not a route. */
  function Key(item: NavItem, index: nat): string {
    if item.href != "#" then item.href else "placeholder-" + NatToString(index)
  }

  /** One rendered link: the key it is listed under and the entry it shows. */
  datatype NavLink = NavLink(key: string, item: NavItem)

  /** The rendered list: each entry paired with the key of its position. */
  function Links(items: seq<NavItem>): (links: seq<NavLink>)
    ensures |links| == |items|
    ensures forall i :: 0 <= i < |items| ==> links[i].item == items[i]
    ensures forall i :: 0 <= i < |items| && items[i].href != "#" ==> links[i].key == items[i].href
    ensures forall i :: 0 <= i < |items| && items[i].href == "#" ==>
      links[i].key == "placeholder-" + NatToString(i)
  {
    seq(|items|, i requires 0 <= i < |items| => NavLink(Key(items[i], i), items[i]))
  }

  predicate DistinctKeys(links: seq<NavLink>) {
    forall i, j :: 0 <= i < j < |links| ==> links[i].key != links[j].key
  }

  /** When every entry of the chosen list links to a route and no two share
      an href, the five rendered keys are pairwise different: a real entry is
      keyed by its href, a placeholder by its position, and the two kinds
      never collide. */
  lemma NormalizedKeysDistinct(items: seq<NavItem>)
    requires Routable(items) && DistinctHrefs(items)
    ensures DistinctKeys(Links(Normalize(items)))
  {
    var r := Normalize(items);
    var links := Links(r);
    forall i, j | 0 <= i < j < |links|
      ensures links[i].key != links[j].key
    {
      if j < |items| {
        assert links[i].key == items[i].href && links[j].key == items[j].href;
      } else if i < |items| {
        assert links[i].key[0] == '/';
        assert links[j].key == "placeholder-" + NatToString(j);
      } else {
        var pre := "placeholder-";
        assert links[i].key == pre + NatToString(i) && links[j].key == pre + NatToString(j);
        assert links[i].key[|pre|..] == NatToString(i) && links[j].key[|pre|..] == NatToString(j);
        NatToStringInjective(i, j);
      }
    }
  }
}
