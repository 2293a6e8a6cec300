/** The layout's sync of the active navigation section with the current
    pathname (src/App.tsx). */
module App {
  import opened Strings

  const Home := "home"
  const Create := "create"
  const Analyze := "analyze"
  const Pricing := "pricing"

  /** One of the four navigation item ids. */
  predicate IsSection(s: string)
  {
    s == Home || s == Create || s == Analyze || s == Pricing
  }

  /** `location.pathname.substring(1) || 'home'`. */
  function PathKey(pathname: string): (r: string)
    ensures Drop(pathname, 1) == "" ==> r == Home
    ensures Drop(pathname, 1) != "" ==> r == Drop(pathname, 1)
  {
    var rest := Drop(pathname, 1);
    if rest != "" then rest else Home
  }

  /** The section made active for a pathname: the key after the leading
      character when it is `create`, `analyze` or `pricing`, and `home`
      for every other pathname. */
  function SectionForPath(pathname: string): (r: string)
    ensures IsSection(r)
    ensures var key := Drop(pathname, 1);
            (key == Create || key == Analyze || key == Pricing) ==> r == key
    ensures var key := Drop(pathname, 1);
            !(key == Create || key == Analyze || key == Pricing) ==> r == Home
  {
    var path := PathKey(pathname);
    if path == Create || path == Analyze || path == Pricing then path else Home
  }

  /** The root, the empty pathname and both payment landing pages all
      activate `home`; the three page routes activate their own section. */
  lemma KnownPaths()
    ensures SectionForPath("/") == Home && SectionForPath("") == Home
    ensures SectionForPath("/create") == Create
    ensures SectionForPath("/analyze") == Analyze
    ensures SectionForPath("/pricing") == Pricing
    ensures SectionForPath("/payment/success") == Home
    ensures SectionForPath("/payment/cancel") == Home
  {
    assert Drop("/create", 1) == Create;
    assert Drop("/analyze", 1) == Analyze;
    assert Drop("/pricing", 1) == Pricing;
    assert Drop("/payment/success", 1) == "payment/success";
    assert Drop("/payment/cancel", 1) == "payment/cancel";
  }
}
