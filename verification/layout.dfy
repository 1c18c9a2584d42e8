/** The frame around every view after onboarding: the side menu, which is
    the navigation alphabet of the application, and the header title. */
module Layout {
  import opened Types

  datatype MenuItem = MenuItem(id: AppView, caption: string)

  /** The side menu, top to bottom. */
  const Menu: seq<MenuItem> := [
    MenuItem(DASHBOARD, "Dashboard"),
    MenuItem(AUDIT, "SEO Audit"),
    MenuItem(KEYWORDS, "Keyword Research"),
    MenuItem(CONTENT, "Content AI"),
    MenuItem(LOCAL_SEO, "Local SEO"),
    MenuItem(BACKLINKS, "Backlinks")
  ]

  /** The ids of the menu, in order. */
  function MenuIds(items: seq<MenuItem>): (ids: seq<AppView>)
    ensures |ids| == |items|
    ensures forall i | 0 <= i < |items| :: ids[i] == items[i].id
  {
    if |items| == 0 then [] else [items[0].id] + MenuIds(items[1..])
  }

  /** A menu entry is highlighted when its id is the current view. */
  predicate IsActive(currentView: AppView, item: MenuItem) {
    currentView == item.id
  }

  /** Clicking the entry at `index` asks for a change to that entry's view. */
  function Dispatch(index: nat): (r: Option<AppView>)
    ensures r.Some? <==> index < |Menu|
    ensures r.Some? ==> r.value == Menu[index].id && r.value != ONBOARDING
  {
    if index < |Menu| then Some(Menu[index].id) else None
  }

  /** Entry `i` is the first entry of `items` whose id is `v`. */
  predicate IsFirstMatch(items: seq<MenuItem>, v: AppView, i: int) {
    0 <= i < |items| && items[i].id == v && forall j | 0 <= j < i :: items[j].id != v
  }

  /** `Array.prototype.find` on the id, keeping the label: the first entry
      whose id is `v`, if any. */
  function FindLabel(items: seq<MenuItem>, v: AppView): (r: Option<string>)
    ensures r.None? <==> forall i | 0 <= i < |items| :: items[i].id != v
    ensures r.Some? ==> exists i :: IsFirstMatch(items, v, i) && items[i].caption == r.value
  {
    if |items| == 0 then None
    else if items[0].id == v then
      assert IsFirstMatch(items, v, 0);
      Some(items[0].caption)
    else
      FirstMatchInTail(items, v);
      FindLabel(items[1..], v)
  }

  /** When the head does not match, the first match of `items` is the first
      match of its tail, one position further on. */
  lemma FirstMatchInTail(items: seq<MenuItem>, v: AppView)
    requires |items| > 0 && items[0].id != v
    ensures (forall i | 0 <= i < |items| :: items[i].id != v) <==>
            (forall i | 0 <= i < |items[1..]| :: items[1..][i].id != v)
    ensures forall k | IsFirstMatch(items[1..], v, k) ::
      IsFirstMatch(items, v, k + 1) && items[k + 1] == items[1..][k]
  {
    assert forall i | 1 <= i < |items| :: items[i] == items[1..][i - 1];
  }

  /** The header title: the label of the menu entry for the current view. */
  function HeaderTitle(currentView: AppView): (title: Option<string>)
    ensures title.None? <==> currentView == ONBOARDING
    ensures title.Some? ==> exists i | 0 <= i < |Menu| :: Menu[i].id == currentView && Menu[i].caption == title.value
  {
    MenuIsNavigationAlphabet();
    assert forall i | 0 <= i < |Menu| :: MenuIds(Menu)[i] == Menu[i].id;
    FindLabel(Menu, currentView)
  }

  /** The menu lists six views in a fixed order, each once, and never onboarding. */
  lemma MenuIsNavigationAlphabet()
    ensures MenuIds(Menu) == [DASHBOARD, AUDIT, KEYWORDS, CONTENT, LOCAL_SEO, BACKLINKS]
    ensures ONBOARDING !in MenuIds(Menu)
    ensures forall v: AppView :: v != ONBOARDING <==> v in MenuIds(Menu)
  {
    var ids := MenuIds(Menu);
    assert ids == [DASHBOARD, AUDIT, KEYWORDS, CONTENT, LOCAL_SEO, BACKLINKS] by {
      assert ids[0] == DASHBOARD && ids[1] == AUDIT && ids[2] == KEYWORDS;
      assert ids[3] == CONTENT && ids[4] == LOCAL_SEO && ids[5] == BACKLINKS;
    }
  }

  /** At most one entry is active; for every view but onboarding exactly one is. */
  lemma AtMostOneActive(currentView: AppView, i: nat, j: nat)
    requires i < |Menu| && j < |Menu|
    ensures IsActive(currentView, Menu[i]) && IsActive(currentView, Menu[j]) ==> i == j
    ensures currentView != ONBOARDING ==> exists k | 0 <= k < |Menu| :: IsActive(currentView, Menu[k])
  {
    if currentView != ONBOARDING {
      MenuIsNavigationAlphabet();
      assert currentView in MenuIds(Menu);
    }
  }

  /** The header shows the label of the one active entry. */
  lemma HeaderShowsActiveLabel(currentView: AppView, i: nat)
    requires i < |Menu| && IsActive(currentView, Menu[i])
    ensures HeaderTitle(currentView) == Some(Menu[i].caption)
  {
    var r := HeaderTitle(currentView);
    assert r.Some?;
    var k :| 0 <= k < |Menu| && Menu[k].id == currentView && Menu[k].caption == r.value;
    AtMostOneActive(currentView, i, k);
  }
}
