/** The values the bottom navigation bar works with: the signed-in user, the
    icon tags, one navigation entry, and the string test that decides whether
    an entry is active. */
module NavTypes {

  datatype Option<+T> = None | Some(value: T)

  /** The part of the session user that the navigation bar reads. */
  datatype User = User(role: string)

  /** One tag per icon component an entry can show; `NoIcon` stands for the
      placeholder's icon, a component that renders nothing. */
  datatype Icon =
    | HomeIcon | StoreIcon | ShoppingCartIcon | PackageIcon | UserIcon
    | MapPinIcon | UtensilsCrossedIcon | ChefHatIcon | NoIcon

  /** One bottom-navigation entry; `caption` is the text shown under the icon
      (the entry's `label` in the navigation bar). */
  datatype NavItem = NavItem(href: string, icon: Icon, caption: string, active: bool, disabled: bool)

  /** JavaScript's `s.startsWith(prefix)`. */
  predicate StartsWith(s: string, prefix: string) {
    |prefix| <= |s| && s[..|prefix|] == prefix
  }

  /** A routable entry. The item literals of the navigation bar carry no
      `disabled` property, which reads as false. */
  function Entry(href: string, icon: Icon, caption: string, active: bool): NavItem {
    NavItem(href, icon, caption, active, false)
  }

  /** The filler entry used to pad a short list: it links nowhere, shows
      nothing, is never active and is always disabled. */
  const Placeholder: NavItem := NavItem("#", NoIcon, "", false, true)

  /** Every entry links to an application route (its href starts with `/`). */
  predicate Routable(items: seq<NavItem>) {
    forall i :: 0 <= i < |items| ==> |items[i].href| > 0 && items[i].href[0] == '/' && !items[i].disabled
  }

  /** No two entries share an href. */
  predicate DistinctHrefs(items: seq<NavItem>) {
    forall i, j :: 0 <= i < j < |items| ==> items[i].href != items[j].href
  }

  function Labels(items: seq<NavItem>): (labels: seq<string>)
    ensures |labels| == |items|
    ensures forall i :: 0 <= i < |items| ==> labels[i] == items[i].caption
  {
    if items == [] then [] else [items[0].caption] + Labels(items[1..])
  }

  function Hrefs(items: seq<NavItem>): (hrefs: seq<string>)
    ensures |hrefs| == |items|
    ensures forall i :: 0 <= i < |items| ==> hrefs[i] == items[i].href
  {
    if items == [] then [] else [items[0].href] + Hrefs(items[1..])
  }

  function Icons(items: seq<NavItem>): (icons: seq<Icon>)
    ensures |icons| == |items|
    ensures forall i :: 0 <= i < |items| ==> icons[i] == items[i].icon
  {
    if items == [] then [] else [items[0].icon] + Icons(items[1..])
  }

  /** Two prefixes that differ at some position cannot both start the same
      path. */
  lemma PrefixesExclusive(s: string, p: string, q: string, k: nat)
    requires k < |p| && k < |q| && p[k] != q[k]
    ensures !(StartsWith(s, p) && StartsWith(s, q))
  {
  }
}
