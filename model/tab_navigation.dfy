/** The dashboard's tab navigation (`useTabNavigation`, TypeScript and
    JavaScript versions): which tabs are shown, which one is active, and the
    half-second fade that follows a click. The browser's location hash and
    history are parameters and results; labels and icons are left out. */
module TabNavigation {
  import opened Wrappers
  import opened JsText
  import opened Seqs

  const Overview: string := "overview"

  /** The tab ids of the TypeScript hook, in display order. */
  const TsTabIds: seq<string> :=
    ["overview", "calendar", "trends", "patterns", "efficiency", "records", "history", "charges"]

  /** The tab ids of the JavaScript hook, which has no calendar. */
  const JsTabIds: seq<string> :=
    ["overview", "trends", "patterns", "efficiency", "records", "history", "charges"]

  /** `hash.replace('#', '')`: the first `#` removed. */
  function StripHash(hash: string): (r: string)
    ensures |r| == |hash| || |r| == |hash| - 1
  {
    var i := IndexOf(hash, '#');
    if i == |hash| then hash else hash[..i] + hash[i + 1..]
  }

  /** A location hash `#id` gives `id`, and an empty one stays empty. */
  lemma StripHashOfTab(id: string)
    ensures StripHash("#" + id) == id
    ensures StripHash("") == ""
  {
    assert ("#" + id)[1..] == id;
  }

  /** `getInitialTab`: the hash when it names one of the eight tabs, else
      'overview'. */
  function InitialTab(hash: string): (r: string)
    ensures r in TsTabIds
    ensures r == StripHash(hash) <==> StripHash(hash) in TsTabIds
    ensures StripHash(hash) !in TsTabIds ==> r == Overview
  {
    var h := StripHash(hash);
    if h in TsTabIds then h else Overview
  }

  /** The `tabs` memo: 'overview' always, every other tab unless it is
      listed in `settings.hiddenTabs` (`[]` when missing). */
  function ShownTest(hidden: seq<string>): string -> bool {
    (id: string) => id == Overview || id !in hidden
  }

  function VisibleTabs(all: seq<string>, hidden: seq<string>): seq<string> {
    Filter(all, ShownTest(hidden))
  }

  /** The tabs shown are exactly the known tabs that are 'overview' or not
      hidden, in their order; 'overview' is shown whatever is hidden, and
      with nothing hidden every tab is. */
  lemma VisibleTabsSpec(all: seq<string>, hidden: seq<string>)
    ensures var r := VisibleTabs(all, hidden);
      (forall id :: id in r <==> id in all && (id == Overview || id !in hidden))
      && (Overview in all ==> Overview in r)
      && (hidden == [] ==> r == all)
      && |r| <= |all|
  {
    FilterMembers(all, ShownTest(hidden));
    if hidden == [] {
      FilterAll(all, ShownTest(hidden));
    }
  }

  /** The tab the `popstate` handler turns to: the hash when it names a
      shown tab, else 'overview'. */
  function PopStateTarget(hash: string, shown: seq<string>): (r: string)
    ensures r in shown || r == Overview
    ensures StripHash(hash) in shown ==> r == StripHash(hash)
    ensures StripHash(hash) !in shown ==> r == Overview
  {
    var h := StripHash(hash);
    if h in shown then h else Overview
  }

  /** What the URL-sync effect does with the browser history. */
  datatype HistoryAction = NoChange | ReplaceWith(url: string) | PushUrl(url: string)

  /** Nothing when the hash already names the active tab; the history entry
      is replaced for 'overview' on an empty hash, and a new entry pushed
      otherwise; the address is `/#` and the tab. */
  function HashSync(hash: string, activeTab: string): (r: HistoryAction)
    ensures r.NoChange? <==> StripHash(hash) == activeTab
    ensures r.ReplaceWith? <==> activeTab == Overview && StripHash(hash) == ""
    ensures !r.NoChange? ==> r.url == "/#" + activeTab
  {
    var current := StripHash(hash);
    if current == activeTab then NoChange
    else if activeTab == Overview && current == "" then ReplaceWith("/#" + activeTab)
    else PushUrl("/#" + activeTab)
  }

  /** The state of the hook. */
  class Navigator {
    var activeTab: string
    var fadingTab: Option<string>
    var isTransitioning: bool

    /** A tab fades in only during a transition. */
    predicate Valid()
      reads this
    {
      fadingTab.Some? ==> isTransitioning
    }

    /** The TypeScript hook: the tab named by the location hash. */
    constructor FromHash(hash: string)
      ensures Valid()
      ensures activeTab == InitialTab(hash) && fadingTab.None? && !isTransitioning
    {
      activeTab := InitialTab(hash);
      fadingTab := None;
      isTransitioning := false;
    }

    /** The JavaScript hook: always 'overview'. */
    constructor Plain()
      ensures Valid()
      ensures activeTab == Overview && fadingTab.None? && !isTransitioning
    {
      activeTab := Overview;
      fadingTab := None;
      isTransitioning := false;
    }

    /** `handleTabClick`: ignored for the active tab and during a transition;
        otherwise the tab becomes active and starts fading in. */
    method HandleTabClick(tabId: string)
      requires Valid()
      modifies this
      ensures Valid()
      ensures (tabId == old(activeTab) || old(isTransitioning)) ==>
        activeTab == old(activeTab) && fadingTab == old(fadingTab) && isTransitioning == old(isTransitioning)
      ensures !(tabId == old(activeTab) || old(isTransitioning)) ==>
        activeTab == tabId && fadingTab == Some(tabId) && isTransitioning
    {
      if tabId == activeTab {
        return;
      }
      if isTransitioning {
        return;
      }
      isTransitioning := true;
      activeTab := tabId;
      fadingTab := Some(tabId);
    }

    /** The callback of the 500 ms timer a click starts: the transition and
        the fade end; the active tab stays. */
    method TransitionEnd()
      modifies this
      ensures Valid()
      ensures activeTab == old(activeTab) && fadingTab.None? && !isTransitioning
    {
      isTransitioning := false;
      fadingTab := None;
    }

    /** The `popstate` handler of the TypeScript hook. */
    method PopState(hash: string, shown: seq<string>)
      requires Valid()
      modifies this
      ensures Valid()
      ensures activeTab == PopStateTarget(hash, shown)
      ensures fadingTab == old(fadingTab) && isTransitioning == old(isTransitioning)
    {
      var newTab := PopStateTarget(hash, shown);
      if newTab != activeTab {
        activeTab := newTab;
      }
    }
  }

  /** A click on another tab, a second click during its transition, and the
      end of the transition, in that order. */
  method ClickDuringTransition()
  {
    var nav := new Navigator.Plain();
    nav.HandleTabClick("trends");
    assert nav.activeTab == "trends" && nav.isTransitioning && nav.fadingTab == Some("trends");
    nav.HandleTabClick("patterns");
    assert nav.activeTab == "trends";
    nav.TransitionEnd();
    assert !nav.isTransitioning && nav.fadingTab.None?;
    nav.HandleTabClick("trends");
    assert !nav.isTransitioning;
  }
}
