/** What the closures of `ContentView` guarantee, one callback at a time and over sequences
    of callbacks. */
module NavigationProperties {
  import opened Wrappers
  import opened Sections
  import opened Navigation

  /** Running `a` then `b` is running `a + b`. */
  lemma {:induction false} RunAppend(st: NavState, a: seq<Callback>, b: seq<Callback>)
    ensures Run(st, a + b) == Run(Run(st, a), b)
    decreases |a|
  {
    if a == [] {
      assert a + b == b;
    } else {
      assert (a + b)[0] == a[0];
      assert (a + b)[1..] == a[1..] + b;
      RunAppend(Step(st, a[0]), a[1..], b);
    }
  }

  /** Running `[c] + rest` is running `c` and then `rest`. */
  lemma RunCons(st: NavState, c: Callback, rest: seq<Callback>)
    ensures Run(st, [c] + rest) == Run(Step(st, c), rest)
  {
  }

  // ---- Path pushes ----

  /** A root header tap appends its section at the tail; nothing else changes. */
  lemma HeaderTapPushesSection(st: NavState, s: AppSection)
    ensures var r := Step(st, Callback(Home, HeaderTap(s)));
            |r.path| == |st.path| + 1 && r.path[..|st.path|] == st.path &&
            r.path[|st.path|] == SectionStep(s) && SameExceptPath(st, r)
  {
  }

  /** A grid tap on the page of section `s` appends `SectionIngredient(s, name)`; nothing else changes. */
  lemma ItemTapPushesIngredient(st: NavState, s: AppSection, name: string)
    ensures var r := Step(st, Callback(SectionPage(s), ItemTap(name)));
            |r.path| == |st.path| + 1 && r.path[..|st.path|] == st.path &&
            r.path[|st.path|] == IngredientStep(SectionIngredient(s, name)) && SameExceptPath(st, r)
  {
  }

  /** The header taps for the sections `ss`, in order. */
  function HeaderTaps(ss: seq<AppSection>): seq<Callback>
    decreases |ss|
  {
    if ss == [] then [] else [Callback(Home, HeaderTap(ss[0]))] + HeaderTaps(ss[1..])
  }

  /** The path segments for the sections `ss`, in order. */
  function SectionSteps(ss: seq<AppSection>): seq<Segment>
    decreases |ss|
  {
    if ss == [] then [] else [SectionStep(ss[0])] + SectionSteps(ss[1..])
  }

  /** Header taps push their sections in tap order, duplicates included, and change nothing else. */
  lemma {:induction false} HeaderTapsAppendInOrder(st: NavState, ss: seq<AppSection>)
    ensures Run(st, HeaderTaps(ss)) == st.(path := st.path + SectionSteps(ss))
    decreases |ss|
  {
    if ss == [] {
      assert st.path + [] == st.path;
    } else {
      var tap := Callback(Home, HeaderTap(ss[0]));
      var st1 := Step(st, tap);
      HeaderTapPushesSection(st, ss[0]);
      assert st1 == st.(path := st.path + [SectionStep(ss[0])]);
      RunCons(st, tap, HeaderTaps(ss[1..]));
      HeaderTapsAppendInOrder(st1, ss[1..]);
      assert st.path + SectionSteps(ss) == st1.path + SectionSteps(ss[1..]);
    }
  }

  /** Tapping the fridge header and then the freezer header from the root gives `[fridge, freezer]`. */
  lemma FridgeThenFreezer()
    ensures Run(Initial, [Callback(Home, HeaderTap(Fridge)), Callback(Home, HeaderTap(Freezer))]).path
            == [SectionStep(Fridge), SectionStep(Freezer)]
  {
  }

  /** Tapping the same grid item twice pushes two equal entries: the path does not deduplicate. */
  lemma {:induction false} DuplicatePushesKept(st: NavState, s: AppSection, name: string)
    ensures var tap := Callback(SectionPage(s), ItemTap(name));
            var seg := IngredientStep(SectionIngredient(s, name));
            Run(st, [tap, tap]) == st.(path := st.path + [seg, seg])
  {
    var tap := Callback(SectionPage(s), ItemTap(name));
    var seg := IngredientStep(SectionIngredient(s, name));
    var st1 := Step(st, tap);
    assert [tap, tap][1..] == [tap];
    assert Run(st, [tap, tap]) == Run(st1, [tap]);
    assert Run(st1, [tap]) == Step(st1, tap);
    assert st.path + [seg] + [seg] == st.path + [seg, seg];
  }

  // ---- Going to main ----

  /** The screens whose home button is `path = NavigationPath()`. */
  predicate ResetsPathOnGoToMain(screen: Screen)
  {
    screen == Home || screen.SectionPage? || screen == PathIngredient
  }

  /** From the root bar, a section page or a pushed ingredient page, going home empties the path
      from any depth, leaves every flag, the selection and the last search alone, and is idempotent. */
  lemma GoToMainEmptiesPath(st: NavState, screen: Screen)
    requires ResetsPathOnGoToMain(screen)
    ensures var cb := Callback(screen, GoToMain);
            Step(st, cb) == st.(path := []) && Step(Step(st, cb), cb) == Step(st, cb)
  {
    var cb := Callback(screen, GoToMain);
    assert Wiring(screen, GoToMain) == Some(ResetPath) by {
      match screen
      case Home =>
      case SectionPage(_) =>
      case PathIngredient =>
    }
    assert Step(st, cb) == st.(path := []);
    assert Step(st.(path := []), cb) == st.(path := []);
  }

  /** An overlay's home button clears that overlay's own flag and empties the path, and nothing else.
      The influencer page has no `goToMain` closure; its header chevron and its home and explore
      icons all call `goBack` (see `InfluencerHomeIcon`). */
  lemma OverlayGoToMainClosesItself(st: NavState, o: Overlay)
    requires o != InfluencerExplore
    ensures var r := Step(st, Callback(OverlayPage(o), GoToMain));
            r == WithShown(st, o, false).(path := []) &&
            !Shown(r, o) && r.path == [] && r.selectedMainIngredient == st.selectedMainIngredient
  {
  }

  /** The ingredient page opened from a root list dismisses by clearing the selection; the path stays. */
  lemma MainIngredientGoToMainDeselects(st: NavState)
    ensures Step(st, Callback(MainIngredient, GoToMain)) == st.(selectedMainIngredient := None)
  {
  }

  /** The influencer page's home icon calls `goBack`: it hides that page and leaves the path. */
  lemma InfluencerHomeIcon(st: NavState)
    ensures Step(st, Callback(OverlayPage(InfluencerExplore), GoBack)) == st.(showInfluencerExplore := false)
  {
  }

  // ---- Root lists and bottom bars ----

  /** A tap on a root list selects exactly the tapped name; nothing else moves. */
  lemma RootListTapSelects(st: NavState, name: string)
    ensures Step(st, Callback(Home, ItemTap(name))) == st.(selectedMainIngredient := Some(name))
  {
  }

  /** On the root, section and ingredient pages the explore button only raises Explore. */
  lemma ExploreButtonRaisesExplore(st: NavState, screen: Screen)
    requires !screen.OverlayPage?
    ensures Step(st, Callback(screen, GoToExplore)) == WithShown(st, Explore, true)
  {
    match screen
    case Home =>
    case SectionPage(_) =>
    case PathIngredient =>
    case MainIngredient =>
  }

  /** Explore's influencer icon only raises the influencer page. */
  lemma ExploreInfluencerRaisesInfluencer(st: NavState)
    ensures Step(st, Callback(OverlayPage(Explore), GoToInfluencer)) == WithShown(st, InfluencerExplore, true)
  {
  }

  /** The upload button of the root, section and ingredient pages, of Explore, of the influencer
      page and of Search only raises Upload: Search stays shown underneath. */
  lemma UploadButtonRaisesUpload(st: NavState, screen: Screen)
    requires screen.OverlayPage? ==> screen.overlay in {Explore, InfluencerExplore, Search}
    ensures Step(st, Callback(screen, GoToUpload)) == WithShown(st, Upload, true)
  {
    match screen
    case Home =>
    case SectionPage(_) =>
    case PathIngredient =>
    case MainIngredient =>
    case OverlayPage(Explore) =>
    case OverlayPage(InfluencerExplore) =>
    case OverlayPage(Search) =>
  }

  /** The upload button of Loading, Recipe and Shopping hides that overlay and then raises Upload. */
  lemma OverlayUploadClosesItself(st: NavState, o: Overlay)
    requires o in {Loading, Recipe, Shopping}
    ensures Step(st, Callback(OverlayPage(o), GoToUpload)) == WithShown(WithShown(st, o, false), Upload, true)
  {
  }

  /** On every screen but Loading the cart button only raises Shopping: Recipe and Search stay shown
      underneath. */
  lemma CartButtonRaisesShopping(st: NavState, screen: Screen)
    requires screen != OverlayPage(Loading)
    ensures Step(st, Callback(screen, GoToCart)) == WithShown(st, Shopping, true)
  {
    match screen
    case Home =>
    case SectionPage(_) =>
    case PathIngredient =>
    case MainIngredient =>
    case OverlayPage(o) =>
      match o
      case Explore =>
      case InfluencerExplore =>
      case Upload =>
      case Search =>
      case Recipe =>
      case Shopping =>
  }

  /** Loading's cart button hides Loading before raising Shopping. */
  lemma LoadingCartClosesLoading(st: NavState)
    ensures Step(st, Callback(OverlayPage(Loading), GoToCart)) == WithShown(WithShown(st, Loading, false), Shopping, true)
  {
    assert LoadingWiring(GoToCart) == Some(Switch(Loading, Shopping));
  }

  /** The explore button of Upload, Search, Loading, Recipe and Shopping hides that overlay and then
      raises Explore. */
  lemma BackToExplore(st: NavState, o: Overlay)
    requires o in {Upload, Search, Loading, Recipe, Shopping}
    ensures Step(st, Callback(OverlayPage(o), GoToExplore)) == WithShown(WithShown(st, o, false), Explore, true)
  {
  }

  /** Search's back button is the same switch as its explore button. */
  lemma SearchBackToExplore(st: NavState)
    ensures Step(st, Callback(OverlayPage(Search), GoBack)) == WithShown(WithShown(st, Search, false), Explore, true)
  {
  }

  /** The bottom bars disagree from page to page: Recipe's cart button and Search's upload button
      leave their own overlay shown, while Loading's cart and upload buttons hide Loading. */
  lemma BottomBarsInconsistent(st: NavState)
    requires st.showRecipe && st.showSearch && st.showLoading
    ensures Step(st, Callback(OverlayPage(Recipe), GoToCart)).showRecipe
    ensures Step(st, Callback(OverlayPage(Search), GoToUpload)).showSearch
    ensures !Step(st, Callback(OverlayPage(Loading), GoToCart)).showLoading
    ensures !Step(st, Callback(OverlayPage(Loading), GoToUpload)).showLoading
  {
    CartButtonRaisesShopping(st, OverlayPage(Recipe));
    UploadButtonRaisesUpload(st, OverlayPage(Search));
    LoadingCartClosesLoading(st);
    OverlayUploadClosesItself(st, Loading);
  }

  // ---- Search ----

  /** Committing an empty search field never reaches `onSubmit`: nothing changes. */
  lemma EmptyCommitIgnored(st: NavState)
    ensures Step(st, Callback(OverlayPage(Search), Commit(""))) == st
  {
  }

  /** Committing a non-empty query records it, hides the search page and shows the loading page;
      the path, the selection and the other flags stay as they were. */
  lemma CommitSubmits(st: NavState, q: string)
    requires q != ""
    ensures Step(st, Callback(OverlayPage(Search), Commit(q)))
            == st.(lastSearch := q, showSearch := false, showLoading := true)
  {
  }

  /** Explore's search bar only raises the search flag: Explore stays shown. */
  lemma ExploreSearchBarKeepsExplore(st: NavState)
    ensures Step(st, Callback(OverlayPage(Explore), GoToSearch)) == st.(showSearch := true)
  {
  }

  /** Explore's own explore button does nothing. */
  lemma ExploreGoToExploreIsNoOp(st: NavState)
    ensures Step(st, Callback(OverlayPage(Explore), GoToExplore)) == st
  {
  }

  /** Nothing keeps the overlays exclusive: from the root, opening Explore and tapping its search
      bar leaves both Explore and Search shown. */
  lemma OverlaysNotExclusive()
    ensures var r := Run(Initial, [Callback(Home, GoToExplore), Callback(OverlayPage(Explore), GoToSearch)]);
            r.showExplore && r.showSearch
  {
  }

  /** The loading screen's `onComplete` hides Loading and shows Recipe, and nothing else. */
  lemma LoadingCompleteRaisesRecipe(st: NavState)
    ensures Step(st, Callback(OverlayPage(Loading), Complete)) == st.(showLoading := false, showRecipe := true)
  {
  }

  /** The recipe page's back button hides Recipe and shows Search again, and nothing else. */
  lemma RecipeBackReturnsToSearch(st: NavState)
    ensures Step(st, Callback(OverlayPage(Recipe), GoBack)) == st.(showRecipe := false, showSearch := true)
  {
  }

  /** The callbacks of the search scenario: Explore from the root bar, Explore's search bar,
      a commit of `q`, the loading screen's completion, and the recipe's back button. */
  function SearchScenario(q: string): seq<Callback>
  {
    [Callback(Home, GoToExplore), Callback(OverlayPage(Explore), GoToSearch),
     Callback(OverlayPage(Search), Commit(q)), Callback(OverlayPage(Loading), Complete),
     Callback(OverlayPage(Recipe), GoBack)]
  }

  /** The last three callbacks of the search scenario, from the state where Search has just been
      shown: `q` is recorded, and Loading and then Recipe come and go, leaving Search shown. */
  lemma {:induction false} SearchScenarioTail(s2: NavState, q: string)
    requires q != ""
    ensures Run(s2, SearchScenario(q)[2..])
            == s2.(lastSearch := q, showLoading := false, showRecipe := false, showSearch := true)
  {
    var cbs := SearchScenario(q)[2..];
    var s3 := s2.(lastSearch := q, showSearch := false, showLoading := true);
    var s4 := s3.(showLoading := false, showRecipe := true);
    CommitSubmits(s2, q);
    LoadingCompleteRaisesRecipe(s3);
    RecipeBackReturnsToSearch(s4);
    assert [cbs[0]] + cbs[1..] == cbs;
    RunCons(s2, cbs[0], cbs[1..]);
    assert [cbs[1]] + cbs[2..] == cbs[1..];
    RunCons(s3, cbs[1], cbs[2..]);
    assert [cbs[2]] + [] == cbs[2..];
    RunCons(s4, cbs[2], []);
  }

  /** The search scenario from any state raises Explore, records `q`, and ends with Search shown and
      Loading and Recipe hidden; no other field moves. */
  lemma {:induction false} SearchScenarioRun(st: NavState, q: string)
    requires q != ""
    ensures Run(st, SearchScenario(q))
            == st.(showExplore := true, lastSearch := q, showLoading := false, showRecipe := false, showSearch := true)
  {
    var cbs := SearchScenario(q);
    var s1 := st.(showExplore := true);
    var s2 := s1.(showSearch := true);
    assert Step(st, cbs[0]) == s1;
    ExploreSearchBarKeepsExplore(s1);
    assert [cbs[0]] + cbs[1..] == cbs;
    RunCons(st, cbs[0], cbs[1..]);
    assert [cbs[1]] + cbs[2..] == cbs[1..];
    RunCons(s1, cbs[1], cbs[2..]);
    SearchScenarioTail(s2, q);
  }

  /** Open Explore, tap its search bar, submit `q`, let loading finish, press the recipe's back:
      the search page is shown again, loading and recipe are hidden, `lastSearch == q` (so the
      recipe was titled `q`), and Explore is still shown underneath. The path and the selection
      are untouched. */
  lemma SearchToRecipeAndBack(st: NavState, q: string)
    requires q != ""
    ensures var r := Run(st, SearchScenario(q));
            r.showSearch && !r.showRecipe && !r.showLoading && r.showExplore &&
            r.lastSearch == q && RecipeTitle(r) == q &&
            r.path == st.path && r.selectedMainIngredient == st.selectedMainIngredient
  {
    SearchScenarioRun(st, q);
  }

  /** Header tap, grid tap on that section, then the pushed ingredient page's home button: the path
      is empty again and nothing else moved; from the initial state this is the initial state. */
  lemma {:induction false} RoundTripToRoot(st: NavState, s: AppSection, name: string)
    ensures Run(st, [Callback(Home, HeaderTap(s)), Callback(SectionPage(s), ItemTap(name)),
                     Callback(PathIngredient, GoToMain)]) == st.(path := [])
  {
    var c1, c2, c3 := Callback(Home, HeaderTap(s)), Callback(SectionPage(s), ItemTap(name)), Callback(PathIngredient, GoToMain);
    RunAppend(st, [c1], [c2, c3]);
    RunAppend(Step(st, c1), [c2], [c3]);
    assert [c1] + [c2, c3] == [c1, c2, c3];
    assert [c2] + [c3] == [c2, c3];
  }

  /** From the initial state: fridge header, "Red Wine" in the fridge grid, home: the initial state. */
  lemma RedWineRoundTrip()
    ensures Run(Initial, [Callback(Home, HeaderTap(Fridge)), Callback(SectionPage(Fridge), ItemTap("Red Wine")),
                          Callback(PathIngredient, GoToMain)]) == Initial
  {
  }

  // ---- Invariants over arbitrary sequences of callbacks ----

  /** The only callbacks that write `selectedMainIngredient`: a root list tap, and the home
      button of the ingredient page it opens. */
  predicate WritesSelection(cb: Callback)
  {
    (cb.screen == Home && cb.button.ItemTap?) || (cb.screen == MainIngredient && cb.button == GoToMain)
  }

  lemma StepKeepsSelection(st: NavState, cb: Callback)
    requires !WritesSelection(cb)
    ensures Step(st, cb).selectedMainIngredient == st.selectedMainIngredient
  {
    match Wiring(cb.screen, cb.button)
    case Some(e) =>
      assert !e.Select? && !e.Deselect?;
    case None =>
  }

  /** The path channel and the selection channel are independent: no sequence of callbacks other
      than the two above changes the selection, however it moves the path or the overlays. */
  lemma {:induction false} SelectionOnlyThroughItsChannel(st: NavState, cbs: seq<Callback>)
    requires forall i :: 0 <= i < |cbs| ==> !WritesSelection(cbs[i])
    ensures Run(st, cbs).selectedMainIngredient == st.selectedMainIngredient
    decreases |cbs|
  {
    if cbs != [] {
      StepKeepsSelection(st, cbs[0]);
      assert forall i :: 0 <= i < |cbs[1..]| ==> cbs[1..][i] == cbs[i + 1];
      SelectionOnlyThroughItsChannel(Step(st, cbs[0]), cbs[1..]);
    }
  }

  lemma StepLastSearch(st: NavState, cb: Callback)
    ensures var r := Step(st, cb).lastSearch;
            r == st.lastSearch || (r != "" && cb == Callback(OverlayPage(Search), Commit(r)))
  {
  }

  /** `lastSearch` is either what it was or the text of a non-empty commit in the sequence; in
      particular it is never emptied once set. */
  lemma {:induction false} LastSearchIsACommittedQuery(st: NavState, cbs: seq<Callback>)
    ensures var r := Run(st, cbs).lastSearch;
            r == st.lastSearch || (r != "" && Callback(OverlayPage(Search), Commit(r)) in cbs)
    decreases |cbs|
  {
    if cbs != [] {
      var st1 := Step(st, cbs[0]);
      StepLastSearch(st, cbs[0]);
      LastSearchIsACommittedQuery(st1, cbs[1..]);
      var r := Run(st, cbs).lastSearch;
      assert r == Run(st1, cbs[1..]).lastSearch;
      if Callback(OverlayPage(Search), Commit(r)) in cbs[1..] {
        var k :| 0 <= k < |cbs[1..]| && cbs[1..][k] == Callback(OverlayPage(Search), Commit(r));
        assert cbs[k + 1] == Callback(OverlayPage(Search), Commit(r));
      }
    }
  }
}
