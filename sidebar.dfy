/** The owner's navigation (components/admin/admin-sidebar.tsx): the menu with the plan each item
    needs, the lock test against the current plan, which item is highlighted for a path, and the
    avatar initials. The current plan and the path are inputs. */
module Sidebar {
  import opened Text
  import opened Plans

  datatype MenuItem = MenuItem(title: string, href: string, requiredPlan: Option<string>)

  /** `menuItems`, in display order. */
  const MenuItems: seq<MenuItem> := [
    MenuItem("Dashboard", "/admin", None),
    MenuItem("Conversations", "/admin/conversations", None),
    MenuItem("AI Assistant", "/admin/ai", Some("pro")),
    MenuItem("Canned Responses", "/admin/responses", Some("pro")),
    MenuItem("Appearance", "/admin/appearance", None),
    MenuItem("Analytics", "/admin/analytics", Some("pro")),
    MenuItem("Integration", "/admin/integration", None),
    MenuItem("Settings", "/admin/settings", None)]

  /** `PLAN_ORDER[name] ?? 0`: the three plan names rank 0, 1, 2 and any other string ranks 0. */
  function PlanOrder(name: string): (r: nat)
    ensures ParsePlan(name).Some? ==> r == Rank(ParsePlan(name).value)
    ensures ParsePlan(name).None? ==> r == 0
  {
    if name == "starter" then 0 else if name == "pro" then 1 else if name == "business" then 2 else 0
  }

  /** `d.planId || 'starter'`: the plan the sidebar holds after the plan read answered. */
  function CurrentPlan(planId: Option<string>): string {
    StrOr(planId, "starter")
  }

  /** `isFeatureLocked`. */
  function IsFeatureLocked(currentPlan: string, requiredPlan: Option<string>): (r: bool)
    ensures !Present(requiredPlan) ==> !r
    ensures Present(requiredPlan) ==> (r <==> PlanOrder(currentPlan) < PlanOrder(requiredPlan.value))
  {
    if !Present(requiredPlan) then false else PlanOrder(currentPlan) < PlanOrder(requiredPlan.value)
  }

  /** An unknown plan name locks like the starter plan, and a requirement that names no plan
      locks nothing. */
  lemma UnknownPlanIsStarter(currentPlan: string, required: Option<string>)
    requires ParsePlan(currentPlan).None?
    ensures IsFeatureLocked(currentPlan, required) == IsFeatureLocked("starter", required)
    ensures Present(required) && ParsePlan(required.value).None? ==> !IsFeatureLocked(currentPlan, required)
  {
  }

  /** Locking is monotone in the plan: a higher-ranked plan unlocks at least what a lower one
      does. */
  lemma LockMonotone(lower: PlanId, higher: PlanId, required: Option<string>)
    requires Rank(lower) <= Rank(higher)
    ensures IsFeatureLocked(PlanName(higher), required) ==> IsFeatureLocked(PlanName(lower), required)
  {
    assert ParsePlan(PlanName(lower)) == Some(lower) && ParsePlan(PlanName(higher)) == Some(higher);
  }

  /** The titles of the items locked on a plan. */
  function LockedTitles(items: seq<MenuItem>, currentPlan: string): (r: seq<string>)
    ensures |r| <= |items|
  {
    if items == [] then []
    else (if IsFeatureLocked(currentPlan, items[0].requiredPlan) then [items[0].title] else [])
         + LockedTitles(items[1..], currentPlan)
  }

  /** A title is listed as locked exactly when some locked item carries it. */
  lemma {:induction false} LockedTitlesIff(items: seq<MenuItem>, currentPlan: string, t: string)
    ensures t in LockedTitles(items, currentPlan) <==>
            exists k :: 0 <= k < |items| && IsFeatureLocked(currentPlan, items[k].requiredPlan) && items[k].title == t
  {
    if items != [] {
      LockedTitlesIff(items[1..], currentPlan, t);
      if t in LockedTitles(items[1..], currentPlan) {
        var k :| 0 <= k < |items[1..]| && IsFeatureLocked(currentPlan, items[1..][k].requiredPlan) && items[1..][k].title == t;
        assert items[k + 1] == items[1..][k];
      }
      if exists k :: 0 <= k < |items| && IsFeatureLocked(currentPlan, items[k].requiredPlan) && items[k].title == t {
        var k :| 0 <= k < |items| && IsFeatureLocked(currentPlan, items[k].requiredPlan) && items[k].title == t;
        if k > 0 {
          assert items[1..][k - 1] == items[k];
        }
      }
    }
  }

  /** On the starter plan exactly the assistant, the canned responses and the analytics are
      locked; on pro and business nothing is. */
  lemma MenuLocks()
    ensures LockedTitles(MenuItems, "starter") == ["AI Assistant", "Canned Responses", "Analytics"]
    ensures LockedTitles(MenuItems, "pro") == []
    ensures LockedTitles(MenuItems, "business") == []
  {
    MenuLockedTitles("starter");
    MenuLockedTitles("pro");
    MenuLockedTitles("business");
  }

  /** The menu's locked titles on any plan: the three items that need "pro", or none. */
  lemma MenuLockedTitles(plan: string)
    ensures LockedTitles(MenuItems, plan) ==
      if IsFeatureLocked(plan, Some("pro")) then ["AI Assistant", "Canned Responses", "Analytics"] else []
  {
    MenuHeadUnlocked(plan);
    MenuMiddleLocks(plan);
    MenuTailLocks(plan);
  }

  /** Dashboard and Conversations need no plan. */
  lemma MenuHeadUnlocked(plan: string)
    ensures LockedTitles(MenuItems, plan) == LockedTitles(MenuItems[2..], plan)
  {
    assert MenuItems[1..][1..] == MenuItems[2..];
  }

  /** AI Assistant and Canned Responses need "pro"; Appearance needs nothing. */
  lemma MenuMiddleLocks(plan: string)
    ensures LockedTitles(MenuItems[2..], plan) ==
      (if IsFeatureLocked(plan, Some("pro")) then ["AI Assistant", "Canned Responses"] else []) + LockedTitles(MenuItems[5..], plan)
  {
    var m := MenuItems;
    assert m[4..][1..] == m[5..];
    assert LockedTitles(m[4..], plan) == LockedTitles(m[5..], plan);
    assert m[3..][1..] == m[4..];
    assert LockedTitles(m[3..], plan) ==
      (if IsFeatureLocked(plan, Some("pro")) then ["Canned Responses"] else []) + LockedTitles(m[5..], plan);
    assert m[2..][1..] == m[3..];
  }

  /** Analytics needs "pro"; Integration and Settings need nothing. */
  lemma MenuTailLocks(plan: string)
    ensures LockedTitles(MenuItems[5..], plan) == if IsFeatureLocked(plan, Some("pro")) then ["Analytics"] else []
  {
    var m := MenuItems;
    assert m[7..][1..] == [];
    assert LockedTitles(m[7..], plan) == [];
    assert m[6..][1..] == m[7..];
    assert LockedTitles(m[6..], plan) == [];
    assert m[5..][1..] == m[6..];
  }

  /** The highlight rule: the dashboard only on its exact path, every other item on any path that
      starts with its own. */
  function IsActive(href: string, pathname: string): (r: bool)
    ensures href == "/admin" ==> (r <==> pathname == "/admin")
    ensures href != "/admin" ==> (r <==> StartsWith(pathname, href))
  {
    if href == "/admin" then pathname == "/admin" else StartsWith(pathname, href)
  }

  /** On every item's own page that item is highlighted; the dashboard is not highlighted on any
      other item's page, although "/admin" is a prefix of all of them. */
  lemma OwnPageActive(i: nat)
    requires i < |MenuItems|
    ensures IsActive(MenuItems[i].href, MenuItems[i].href)
    ensures i > 0 ==> !IsActive(MenuItems[0].href, MenuItems[i].href) && StartsWith(MenuItems[i].href, "/admin")
  {
    var h := MenuItems[i].href;
    if i > 0 {
      assert |h| > 6;
      assert h[..6] == "/admin";
    }
  }

  /** `getInitials`: the first two characters of the company name in upper case, else those of
      the email, else "VS". */
  function Initials(companyName: Option<string>, email: Option<string>): (r: string)
    ensures Present(companyName) ==> r == Upper(companyName.value[..if |companyName.value| < 2 then |companyName.value| else 2])
    ensures !Present(companyName) && Present(email) ==> r == Upper(email.value[..if |email.value| < 2 then |email.value| else 2])
    ensures !Present(companyName) && !Present(email) ==> r == "VS"
  {
    if Present(companyName) then Upper(companyName.value[..if |companyName.value| < 2 then |companyName.value| else 2])
    else if Present(email) then Upper(email.value[..if |email.value| < 2 then |email.value| else 2])
    else "VS"
  }

  /** The initials are one or two characters, never lower-case ASCII letters. */
  lemma InitialsShape(companyName: Option<string>, email: Option<string>)
    ensures var r := Initials(companyName, email);
      && 1 <= |r| <= 2
      && forall i :: 0 <= i < |r| ==> !('a' <= r[i] <= 'z')
  {
  }
}
