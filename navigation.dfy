/** The navigation state of `ContentView` and every transition closure wired in its body. */
module Navigation {
  import opened Wrappers
  import opened Sections

  /** One entry of the `NavigationPath`: a section page or a drill-down ingredient page. */
  datatype Segment = SectionStep(section: AppSection) | IngredientStep(item: SectionIngredient)

  /** The seven independent overlay flags, in declaration order. */
  datatype Overlay = Explore | InfluencerExplore | Upload | Search | Loading | Recipe | Shopping

  /** The `@State` fields of `ContentView`, as one value. */
  datatype NavState = NavState(
    path: seq<Segment>,
    selectedMainIngredient: Option<string>,
    showExplore: bool,
    showInfluencerExplore: bool,
    showUpload: bool,
    showSearch: bool,
    showLoading: bool,
    showRecipe: bool,
    showShopping: bool,
    lastSearch: string)

  /** The state at session start: empty path, nothing selected, every overlay hidden, no search. */
  const Initial := NavState([], None, false, false, false, false, false, false, false, "")

  /** The flag of overlay `o`. */
  function Shown(st: NavState, o: Overlay): bool
  {
    match o
    case Explore => st.showExplore
    case InfluencerExplore => st.showInfluencerExplore
    case Upload => st.showUpload
    case Search => st.showSearch
    case Loading => st.showLoading
    case Recipe => st.showRecipe
    case Shopping => st.showShopping
  }

  /** `st` with the flag of `o` set to `v` (one `showX = v` assignment). */
  function WithShown(st: NavState, o: Overlay, v: bool): (r: NavState)
    ensures Shown(r, o) == v
    ensures forall o' :: o' != o ==> Shown(r, o') == Shown(st, o')
    ensures r.path == st.path && r.selectedMainIngredient == st.selectedMainIngredient
    ensures r.lastSearch == st.lastSearch
  {
    match o
    case Explore => st.(showExplore := v)
    case InfluencerExplore => st.(showInfluencerExplore := v)
    case Upload => st.(showUpload := v)
    case Search => st.(showSearch := v)
    case Loading => st.(showLoading := v)
    case Recipe => st.(showRecipe := v)
    case Shopping => st.(showShopping := v)
  }

  /** `a` and `b` agree on every field except the path. */
  predicate SameExceptPath(a: NavState, b: NavState)
  {
    a.(path := b.path) == b
  }

  /** The distinct bodies of the transition closures. */
  datatype Effect =
    | Push(segment: Segment)          // path.append(segment)
    | ResetPath                       // path = NavigationPath()
    | Select(name: string)            // selectedMainIngredient = name
    | Deselect                        // selectedMainIngredient = nil
    | Show(overlay: Overlay)          // showX = true
    | Hide(overlay: Overlay)          // showX = false
    | HideAndReset(overlay: Overlay)  // showX = false; path = NavigationPath()
    | Switch(from: Overlay, to: Overlay)  // showFrom = false; showTo = true
    | Submit(query: string)           // the search screen's onSubmit
    | NoEffect                        // { }

  /** The overlay flags an effect may write. */
  function Touched(e: Effect): set<Overlay>
  {
    match e
    case Show(o) => {o}
    case Hide(o) => {o}
    case HideAndReset(o) => {o}
    case Switch(a, b) => {a, b}
    case Submit(_) => {Search, Loading}
    case _ => {}
  }

  /** Running the body of a closure. The path, the selection and the last search are each
      written only by the effects whose closures assign them. */
  function Apply(st: NavState, e: Effect): (r: NavState)
    ensures r.path != st.path ==> e.Push? || e.ResetPath? || e.HideAndReset?
    ensures e.Push? ==> r.path == st.path + [e.segment]
    ensures e.ResetPath? || e.HideAndReset? ==> r.path == []
    ensures r.selectedMainIngredient != st.selectedMainIngredient ==> e.Select? || e.Deselect?
    ensures e.Select? ==> r.selectedMainIngredient == Some(e.name)
    ensures e.Deselect? ==> r.selectedMainIngredient == None
    ensures r.lastSearch != st.lastSearch ==> e.Submit?
    ensures e.Submit? ==> r.lastSearch == e.query && !r.showSearch && r.showLoading
    ensures e.Show? ==> Shown(r, e.overlay)
    ensures e.Hide? || e.HideAndReset? ==> !Shown(r, e.overlay)
    ensures e.Switch? ==> Shown(r, e.to) && (e.from != e.to ==> !Shown(r, e.from))
  {
    match e
    case Push(seg) => st.(path := st.path + [seg])
    case ResetPath => st.(path := [])
    case Select(name) => st.(selectedMainIngredient := Some(name))
    case Deselect => st.(selectedMainIngredient := None)
    case Show(o) => WithShown(st, o, true)
    case Hide(o) => WithShown(st, o, false)
    case HideAndReset(o) => WithShown(st, o, false).(path := [])
    case Switch(a, b) => WithShown(WithShown(st, a, false), b, true)
    case Submit(q) => WithShown(WithShown(st.(lastSearch := q), Search, false), Loading, true)
    case NoEffect => st
  }

  /** An effect leaves every overlay flag outside `Touched(e)` as it was. */
  lemma ApplyKeepsUntouchedFlags(st: NavState, e: Effect, o: Overlay)
    requires o !in Touched(e)
    ensures Shown(Apply(st, e), o) == Shown(st, o)
  {
  }

  /** `SearchPage`'s `onCommit`: the text handed to `onSubmit`, or `None` when the field is empty. */
  function OnCommit(searchText: string): (submitted: Option<string>)
    ensures submitted.None? <==> searchText == ""
    ensures submitted.Some? ==> submitted.value == searchText
  {
    if searchText != "" then Some(searchText) else None
  }

  const DEFAULT_RECIPE_TITLE := "Creamy Tomato Gnocchi"

  /** The `recipeTitle` passed to `RecipePage`: the last search, or the sample title when there
      has been none. It is never empty. */
  function RecipeTitle(st: NavState): (title: string)
    ensures title != ""
    ensures st.lastSearch != "" ==> title == st.lastSearch
    ensures st.lastSearch == "" ==> title == DEFAULT_RECIPE_TITLE
  {
    if st.lastSearch == "" then DEFAULT_RECIPE_TITLE else st.lastSearch
  }

  /** The screens that receive closures from `ContentView`. `PathIngredient` is the
      `IngredientPage` pushed on the path; `MainIngredient` is the one presented through
      `selectedMainIngredient`. */
  datatype Screen =
    | Home
    | SectionPage(section: AppSection)
    | PathIngredient
    | MainIngredient
    | OverlayPage(overlay: Overlay)

  /** What the user (or the loading timer) does on a screen. `Commit` is the search field's
      return key; `Complete` is the loading page's `onComplete`. */
  datatype Button =
    | HeaderTap(section: AppSection)
    | ItemTap(name: string)
    | GoToMain
    | GoToExplore
    | GoToInfluencer
    | GoToUpload
    | GoToSearch
    | GoToCart
    | GoToProfile
    | GoBack
    | Commit(text: string)
    | Complete

  /** The closure `ContentView` hands to `screen` for `button`, or `None` when the screen has no
      such callback. */
  function Wiring(screen: Screen, button: Button): (r: Option<Effect>)
    ensures r.Some? && r.value.Push? ==> screen == Home || screen.SectionPage?
    ensures r.Some? && (r.value.ResetPath? || r.value.HideAndReset?) <==>
            button == GoToMain && screen != MainIngredient && screen != OverlayPage(InfluencerExplore)
    ensures r.Some? && (r.value.Select? || r.value.Deselect?) <==>
            (screen == Home && button.ItemTap?) || (screen == MainIngredient && button == GoToMain)
    ensures r.Some? && r.value.Submit? ==>
            screen == OverlayPage(Search) && button == Commit(r.value.query) && r.value.query != ""
  {
    match screen
    case Home => HomeWiring(button)
    case SectionPage(s) => SectionWiring(s, button)
    case PathIngredient => IngredientWiring(ResetPath, button)
    case MainIngredient => IngredientWiring(Deselect, button)
    case OverlayPage(Explore) => ExploreWiring(button)
    case OverlayPage(InfluencerExplore) => InfluencerWiring(button)
    case OverlayPage(Upload) => UploadWiring(button)
    case OverlayPage(Search) => SearchWiring(button)
    case OverlayPage(Loading) => LoadingWiring(button)
    case OverlayPage(Recipe) => RecipeWiring(button)
    case OverlayPage(Shopping) => ShoppingWiring(button)
  }

  /** The root screen: section headers, root lists and the bottom bar. */
  function HomeWiring(button: Button): (r: Option<Effect>)
    ensures r.Some? <==> button.HeaderTap? || button.ItemTap? || button in {GoToMain, GoToExplore, GoToUpload, GoToCart}
  {
    match button
    case HeaderTap(s) => Some(Push(SectionStep(s)))
    case ItemTap(name) => Some(Select(name))
    case GoToMain => Some(ResetPath)
    case GoToExplore => Some(Show(Explore))
    case GoToUpload => Some(Show(Upload))
    case GoToCart => Some(Show(Shopping))
    case _ => None
  }

  /** The fridge, freezer and pantry pages. */
  function SectionWiring(s: AppSection, button: Button): (r: Option<Effect>)
    ensures r.Some? <==> button.ItemTap? || button in {GoToMain, GoToUpload, GoToExplore, GoToCart}
  {
    match button
    case GoToMain => Some(ResetPath)
    case ItemTap(name) => Some(Push(IngredientStep(SectionIngredient(s, name))))
    case GoToUpload => Some(Show(Upload))
    case GoToExplore => Some(Show(Explore))
    case GoToCart => Some(Show(Shopping))
    case _ => None
  }

  /** Both ingredient pages; they differ only in what their home button does. */
  function IngredientWiring(home: Effect, button: Button): (r: Option<Effect>)
    ensures r.Some? <==> button in {GoToMain, GoToExplore, GoToUpload, GoToCart}
  {
    match button
    case GoToMain => Some(home)
    case GoToExplore => Some(Show(Explore))
    case GoToUpload => Some(Show(Upload))
    case GoToCart => Some(Show(Shopping))
    case _ => None
  }

  function ExploreWiring(button: Button): (r: Option<Effect>)
    ensures r.Some? <==> button in {GoToMain, GoToExplore, GoToInfluencer, GoToUpload, GoToSearch, GoToCart}
  {
    match button
    case GoToMain => Some(HideAndReset(Explore))
    case GoToExplore => Some(NoEffect)
    case GoToInfluencer => Some(Show(InfluencerExplore))
    case GoToUpload => Some(Show(Upload))
    case GoToSearch => Some(Show(Search))
    case GoToCart => Some(Show(Shopping))
    case _ => None
  }

  function InfluencerWiring(button: Button): (r: Option<Effect>)
    ensures r.Some? <==> button in {GoBack, GoToUpload, GoToCart}
  {
    match button
    case GoBack => Some(Hide(InfluencerExplore))
    case GoToUpload => Some(Show(Upload))
    case GoToCart => Some(Show(Shopping))
    case _ => None
  }

  function UploadWiring(button: Button): (r: Option<Effect>)
    ensures r.Some? <==> button in {GoToMain, GoToExplore, GoToCart}
  {
    match button
    case GoToMain => Some(HideAndReset(Upload))
    case GoToExplore => Some(Switch(Upload, Explore))
    case GoToCart => Some(Show(Shopping))
    case _ => None
  }

  /** The search page; a commit goes through the `onCommit` guard. */
  function SearchWiring(button: Button): (r: Option<Effect>)
    ensures r.Some? <==> button.Commit? || button in {GoToMain, GoToExplore, GoToUpload, GoBack, GoToCart}
  {
    match button
    case GoToMain => Some(HideAndReset(Search))
    case GoToExplore => Some(Switch(Search, Explore))
    case GoToUpload => Some(Show(Upload))
    case Commit(text) =>
      (match OnCommit(text)
       case Some(q) => Some(Submit(q))
       case None => Some(NoEffect))
    case GoBack => Some(Switch(Search, Explore))
    case GoToCart => Some(Show(Shopping))
    case _ => None
  }

  function LoadingWiring(button: Button): (r: Option<Effect>)
    ensures r.Some? <==> button in {Complete, GoToMain, GoToExplore, GoToUpload, GoToCart}
    ensures r.Some? ==> Loading in Touched(r.value)
  {
    match button
    case Complete => Some(Switch(Loading, Recipe))
    case GoToMain => Some(HideAndReset(Loading))
    case GoToExplore => Some(Switch(Loading, Explore))
    case GoToUpload => Some(Switch(Loading, Upload))
    case GoToCart => Some(Switch(Loading, Shopping))
    case _ => None
  }

  function RecipeWiring(button: Button): (r: Option<Effect>)
    ensures r.Some? <==> button in {GoToMain, GoToExplore, GoToUpload, GoToCart, GoToProfile, GoBack}
  {
    match button
    case GoToMain => Some(HideAndReset(Recipe))
    case GoToExplore => Some(Switch(Recipe, Explore))
    case GoToUpload => Some(Switch(Recipe, Upload))
    case GoToCart => Some(Show(Shopping))
    case GoToProfile => Some(NoEffect)
    case GoBack => Some(Switch(Recipe, Search))
    case _ => None
  }

  function ShoppingWiring(button: Button): (r: Option<Effect>)
    ensures r.Some? <==> button in {GoToMain, GoToExplore, GoToUpload, GoToCart, GoToProfile}
  {
    match button
    case GoToMain => Some(HideAndReset(Shopping))
    case GoToExplore => Some(Switch(Shopping, Explore))
    case GoToUpload => Some(Switch(Shopping, Upload))
    case GoToCart => Some(Show(Shopping))
    case GoToProfile => Some(NoEffect)
    case _ => None
  }

  /** One user action on one screen. */
  datatype Callback = Callback(screen: Screen, button: Button)

  /** The state after `cb`; a button the screen does not wire changes nothing. */
  function Step(st: NavState, cb: Callback): (r: NavState)
    ensures |r.path| <= |st.path| + 1
    ensures r.path == st.path || cb.button == GoToMain || cb.button.HeaderTap? || cb.button.ItemTap?
    ensures r.selectedMainIngredient == st.selectedMainIngredient || cb.button == GoToMain || cb.button.ItemTap?
  {
    match Wiring(cb.screen, cb.button)
    case Some(e) => Apply(st, e)
    case None => st
  }

  /** The state after the callbacks `cbs`, in order. */
  function Run(st: NavState, cbs: seq<Callback>): (r: NavState)
    ensures |r.path| <= |st.path| + |cbs|
    decreases |cbs|
  {
    if cbs == [] then st else Run(Step(st, cbs[0]), cbs[1..])
  }

  /** `ContentView`'s `@State` navigation fields, updated in place by its closures. */
  class Navigator {
    var path: seq<Segment>
    var selectedMainIngredient: Option<string>
    var showExplore: bool
    var showInfluencerExplore: bool
    var showUpload: bool
    var showSearch: bool
    var showLoading: bool
    var showRecipe: bool
    var showShopping: bool
    var lastSearch: string

    /** The fields as one value. */
    function State(): NavState
      reads this
    {
      NavState(path, selectedMainIngredient, showExplore, showInfluencerExplore, showUpload,
               showSearch, showLoading, showRecipe, showShopping, lastSearch)
    }

    constructor ()
      ensures State() == Initial
    {
      path := [];
      selectedMainIngredient := None;
      showExplore, showInfluencerExplore, showUpload, showSearch := false, false, false, false;
      showLoading, showRecipe, showShopping := false, false, false;
      lastSearch := "";
    }

    /** A root section header tap: `path.append(section)`. */
    method PushSection(section: AppSection)
      modifies this
      ensures State() == Apply(old(State()), Push(SectionStep(section)))
    {
      path := path + [SectionStep(section)];
    }

    /** A grid tap on a section page: `path.append(SectionIngredient(section, ingredient))`. */
    method PushIngredient(section: AppSection, ingredient: string)
      modifies this
      ensures State() == Apply(old(State()), Push(IngredientStep(SectionIngredient(section, ingredient))))
    {
      path := path + [IngredientStep(SectionIngredient(section, ingredient))];
    }

    /** `path = NavigationPath()`. */
    method ResetPath()
      modifies this
      ensures State() == Apply(old(State()), Effect.ResetPath)
    {
      path := [];
    }

    /** A root list tap: `selectedMainIngredient = name`. */
    method SelectMainIngredient(name: string)
      modifies this
      ensures State() == Apply(old(State()), Select(name))
    {
      selectedMainIngredient := Some(name);
    }

    /** The ingredient page shown through `selectedMainIngredient` goes home: `selectedMainIngredient = nil`. */
    method DeselectMainIngredient()
      modifies this
      ensures State() == Apply(old(State()), Deselect)
    {
      selectedMainIngredient := None;
    }

    /** `showX = v` for the flag of `o`. */
    method SetShown(o: Overlay, v: bool)
      modifies this
      ensures State() == WithShown(old(State()), o, v)
    {
      match o
      case Explore => showExplore := v;
      case InfluencerExplore => showInfluencerExplore := v;
      case Upload => showUpload := v;
      case Search => showSearch := v;
      case Loading => showLoading := v;
      case Recipe => showRecipe := v;
      case Shopping => showShopping := v;
    }

    /** `showX = false; path = NavigationPath()`: an overlay's home button. */
    method HideAndReset(o: Overlay)
      modifies this
      ensures State() == Apply(old(State()), Effect.HideAndReset(o))
    {
      SetShown(o, false);
      path := [];
    }

    /** `showFrom = false; showTo = true`. */
    method Switch(from: Overlay, to: Overlay)
      modifies this
      ensures State() == Apply(old(State()), Effect.Switch(from, to))
    {
      SetShown(from, false);
      SetShown(to, true);
    }

    /** The search screen's `onSubmit`. */
    method Submit(query: string)
      modifies this
      ensures State() == Apply(old(State()), Effect.Submit(query))
    {
      lastSearch := query;
      showSearch := false;
      showLoading := true;
    }

    /** Runs the body of one closure. */
    method Perform(e: Effect)
      modifies this
      ensures State() == Apply(old(State()), e)
    {
      match e
      case Push(SectionStep(s)) => PushSection(s);
      case Push(IngredientStep(si)) => PushIngredient(si.section, si.ingredient);
      case ResetPath => ResetPath();
      case Select(name) => SelectMainIngredient(name);
      case Deselect => DeselectMainIngredient();
      case Show(o) => SetShown(o, true);
      case Hide(o) => SetShown(o, false);
      case HideAndReset(o) => HideAndReset(o);
      case Switch(a, b) => Switch(a, b);
      case Submit(q) => Submit(q);
      case NoEffect =>
    }

    /** The user presses `button` on `screen`; `wired` tells whether that screen has such a callback. */
    method Handle(screen: Screen, button: Button) returns (wired: bool)
      modifies this
      ensures wired == Wiring(screen, button).Some?
      ensures State() == Step(old(State()), Callback(screen, button))
    {
      match Wiring(screen, button)
      case Some(e) =>
        Perform(e);
        wired := true;
      case None =>
        wired := false;
    }
  }
}
