/** The navigation bar (src/components/Navigation.tsx): the route each item
    navigates to and which item is highlighted. */
module Navigation {
  import opened Strings
  import opened App

  /** The ids of `navItems`, in display order. */
  const NavIds := [Home, Create, Analyze, Pricing]

  /** `navigate('/')` for home, `navigate('/' + id)` for the others. */
  function TargetFor(id: string): (r: string)
    ensures id == Home ==> r == "/"
    ensures id != Home ==> StartsWith(r, "/") && Drop(r, 1) == id
  {
    if id == Home then "/" else "/" + id
  }

  /** `activeSection === item.id`. */
  predicate IsActive(activeSection: string, id: string)
  {
    activeSection == id
  }

  /** A click on an item: the new `activeSection` and the route pushed. */
  datatype ClickEffect = ClickEffect(activeSection: string, target: string)

  function Click(id: string): (r: ClickEffect)
    ensures r.activeSection == id && r.target == TargetFor(id)
  {
    ClickEffect(id, TargetFor(id))
  }

  /** The four ids are distinct, so at most one item is highlighted, and
      exactly one when the active section is a navigation id. */
  lemma OneActive(activeSection: string)
    ensures forall i, j :: 0 <= i < j < |NavIds| ==> !(IsActive(activeSection, NavIds[i]) && IsActive(activeSection, NavIds[j]))
    ensures IsSection(activeSection) <==> exists i :: 0 <= i < |NavIds| && IsActive(activeSection, NavIds[i])
  {
    if IsSection(activeSection) {
      var i := if activeSection == Home then 0 else if activeSection == Create then 1
               else if activeSection == Analyze then 2 else 3;
      assert IsActive(activeSection, NavIds[i]);
    }
  }

  /** Round trip: the route an item navigates to makes the layout activate
      that same item, so the click's `activeSection` survives the
      pathname sync. */
  lemma RoundTrip(id: string)
    requires IsSection(id)
    ensures SectionForPath(TargetFor(id)) == id
    ensures SectionForPath(Click(id).target) == Click(id).activeSection
  {
    if id != Home {
      assert Drop(TargetFor(id), 1) == id;
    } else {
      assert Drop("/", 1) == "";
    }
  }
}
