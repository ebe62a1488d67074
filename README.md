# CRAIIVE navigation model

CRAIIVE is a SwiftUI prototype of a food-inventory and recipe app. Almost all of
`CRAIIVE/ContentView.swift` is layout; the behaviour lives in `ContentView`'s `@State`
fields and the closures it hands to each screen. This project models exactly that:

- `Sections` — `AppSection` (`fridge`, `freezer`, `pantry`), its raw values,
  `AppSection.from(rawValue:)` as a `first` search over `allCases`, and the
  `SectionIngredient.id` key, with the proof that ids are collision-free.
- `Navigation` — the navigation state as a value (`NavState`: path stack, optional
  `selectedMainIngredient`, seven independent `show*` flags, `lastSearch`), the distinct
  closure bodies (`Effect`) and what they do (`Apply`), the table of which closure each
  screen receives for each button (`Wiring`, lines 90-218), the search field's commit guard
  (`OnCommit`), the recipe-title fallback (`RecipeTitle`), and the class `Navigator`: the
  `@State` fields updated in place, one method per closure body, each proved to leave the
  fields equal to `Apply` of the old state.
- `NavigationProperties` — what the closures guarantee: pushes, going home, the overlay home
  buttons, the search guard, the search → loading → recipe → back scenario, the round trip to
  the root, and invariants over arbitrary callback sequences.
- `LoadingTimer` — `LoadingPage`'s `isActive` flag and its deferred completion, as a value
  machine (`LoadingStep`) and as the class `LoadingPage`; a scheduled callback running is the
  event `Fire`.
- `IngredientDetail` — `IngredientPage`'s `showNutrition` toggle.

The model follows what the closures do, not an idealised exclusivity: Explore's search bar
sets only `showSearch` and leaves `showExplore` true (line 176), Explore's own explore button
does nothing (line 173), the recipe page's cart button raises `showShopping` without hiding
the recipe (line 212), and nothing keeps at most one overlay shown (`OverlaysNotExclusive`).

## Model

| member | source | states |
|---|---|---|
| `Sections.RawValue` | CRAIIVE/ContentView.swift:11-13 | every raw value is non-empty and contains no ':' |
| `Sections.AllCasesListsEverySection` | CRAIIVE/ContentView.swift:11-12 | `allCases` lists every section |
| `Sections.RawValueInjective` | CRAIIVE/ContentView.swift:11-12 | distinct sections have distinct raw values |
| `Sections.FirstWithRawValue` | CRAIIVE/ContentView.swift:15 | `first` returns nothing iff no case has the raw value, otherwise the earliest case that has it |
| `Sections.FromRawValue` | CRAIIVE/ContentView.swift:14-16 | `from(rawValue:)` is nil exactly for strings other than "fridge", "freezer", "pantry", and otherwise returns a case with that raw value |
| `Sections.FromRawValueRoundTrip` | CRAIIVE/ContentView.swift:14-16 | `from(s.rawValue) == s` for every case |
| `Sections.Id` | CRAIIVE/ContentView.swift:23 | the id is the section's raw value, then ':', then the ingredient name |
| `Sections.IdInjective` | CRAIIVE/ContentView.swift:20-24 | equal ids mean equal (section, ingredient) pairs |
| `Navigation.WithShown` | CRAIIVE/ContentView.swift:134-143 | assigning one overlay flag gives it the new value and leaves every other flag, the path, the selection and `lastSearch` as they were |
| `Navigation.Apply` | CRAIIVE/ContentView.swift:90-218 | the path changes only through a push (appending at the tail) or a reset (to empty); the selection only through select/deselect; `lastSearch` only through submit, which also hides Search and shows Loading; show, hide and switch set the named flags |
| `Navigation.ApplyKeepsUntouchedFlags` | CRAIIVE/ContentView.swift:130-218 | a closure leaves every overlay flag it does not assign unchanged |
| `Navigation.OnCommit` | CRAIIVE/ContentView.swift:1576-1580 | `onSubmit` fires iff the text is non-empty, and then with that text |
| `Navigation.RecipeTitle` | CRAIIVE/ContentView.swift:208 | the recipe title is `lastSearch` when non-empty, otherwise "Creamy Tomato Gnocchi"; it is never empty |
| `Navigation.HomeWiring` | CRAIIVE/ContentView.swift:90-146 | the root screen wires exactly its section headers, its list items and the "ai", explore, upload and cart buttons of its bottom bar (the profile icon has no action) |
| `Navigation.SectionWiring` | CRAIIVE/ContentView.swift:154-163 | a section page wires exactly its grid items and its home, upload, explore and cart buttons |
| `Navigation.IngredientWiring` | CRAIIVE/ContentView.swift:164-169 | an ingredient page wires exactly its home, explore, upload and cart buttons |
| `Navigation.ExploreWiring` | CRAIIVE/ContentView.swift:170-179 | the explore page wires exactly home, explore, influencer, upload, search and cart |
| `Navigation.InfluencerWiring` | CRAIIVE/ContentView.swift:180-182 | the influencer page wires exactly back, upload and cart; it has no `goToMain` closure, and its header chevron and its home and explore icons (lines 1067, 1155, 1159) all call `goBack` |
| `Navigation.UploadWiring` | CRAIIVE/ContentView.swift:183-185 | the upload page wires exactly home, explore and cart |
| `Navigation.SearchWiring` | CRAIIVE/ContentView.swift:186-199 | the search page wires exactly home, explore, upload, back, cart and a commit of any text |
| `Navigation.LoadingWiring` | CRAIIVE/ContentView.swift:200-205 | the loading page wires exactly completion, home, explore, upload and cart, and every one of them assigns `showLoading` |
| `Navigation.RecipeWiring` | CRAIIVE/ContentView.swift:206-216 | the recipe page wires exactly home, explore, upload, cart, profile and back |
| `Navigation.ShoppingWiring` | CRAIIVE/ContentView.swift:217-219 | the shopping page wires exactly home, explore, upload, cart and profile |
| `Navigation.Wiring` | CRAIIVE/ContentView.swift:90-219 | only the root and section pages push onto the path; a screen's home button empties the path exactly on the screens other than the selected-ingredient page (which deselects) and the influencer page (which has no `goToMain` closure: its home icon calls `goBack`); the selection is written exactly by root list taps and the selected page's home button; a submit comes only from a non-empty commit on the search page |
| `Navigation.Step` | CRAIIVE/ContentView.swift:90-219 | one callback grows the path by at most one entry; only home buttons, header taps and item taps move the path, and only home buttons and item taps move the selection |
| `Navigation.Run` | CRAIIVE/ContentView.swift:90-219 | a sequence of callbacks grows the path by at most one entry per callback |
| `Navigation.Navigator.constructor` | CRAIIVE/ContentView.swift:27-36 | the session starts with an empty path, no selection, every flag false and an empty search |
| `Navigation.Navigator.PushSection` | CRAIIVE/ContentView.swift:90-92 | `path.append(section)`: the new state is the push effect applied to the old one |
| `Navigation.Navigator.PushIngredient` | CRAIIVE/ContentView.swift:157 | `path.append(SectionIngredient(section, ingredient))` |
| `Navigation.Navigator.ResetPath` | CRAIIVE/ContentView.swift:130 | `path = NavigationPath()` |
| `Navigation.Navigator.SelectMainIngredient` | CRAIIVE/ContentView.swift:98 | `selectedMainIngredient = name` |
| `Navigation.Navigator.DeselectMainIngredient` | CRAIIVE/ContentView.swift:168 | `selectedMainIngredient = nil` |
| `Navigation.Navigator.SetShown` | CRAIIVE/ContentView.swift:134-143 | assigns one flag and nothing else |
| `Navigation.Navigator.HideAndReset` | CRAIIVE/ContentView.swift:172 | an overlay's home button: its flag false and the path empty |
| `Navigation.Navigator.Switch` | CRAIIVE/ContentView.swift:184 | one flag false, then another true |
| `Navigation.Navigator.Submit` | CRAIIVE/ContentView.swift:191-195 | `lastSearch = query`, `showSearch = false`, `showLoading = true` |
| `Navigation.Navigator.Perform` | CRAIIVE/ContentView.swift:90-218 | runs any closure body; the fields become `Apply` of the old state |
| `Navigation.Navigator.Handle` | CRAIIVE/ContentView.swift:90-218 | a button press on a screen runs the closure wired there, and reports whether one is wired |
| `NavigationProperties.RunAppend` | CRAIIVE/ContentView.swift:90-218 | running two callback sequences one after the other is running their concatenation |
| `NavigationProperties.RunCons` | CRAIIVE/ContentView.swift:90-218 | running `[c] + rest` is running `c` and then `rest` |
| `NavigationProperties.HeaderTapPushesSection` | CRAIIVE/ContentView.swift:90-92 | a header tap grows the path by one, keeps the earlier entries, puts the section at the tail and changes nothing else |
| `NavigationProperties.ItemTapPushesIngredient` | CRAIIVE/ContentView.swift:156-162 | a grid tap on section s pushes `SectionIngredient(s, name)` the same way |
| `NavigationProperties.HeaderTapsAppendInOrder` | CRAIIVE/ContentView.swift:90-114 | any sequence of header taps appends its sections in tap order, duplicates kept, and changes nothing else |
| `NavigationProperties.FridgeThenFreezer` | CRAIIVE/ContentView.swift:90-103 | fridge then freezer from the root gives the path [fridge, freezer] |
| `NavigationProperties.DuplicatePushesKept` | CRAIIVE/ContentView.swift:157 | tapping the same grid item twice pushes two equal entries |
| `NavigationProperties.GoToMainEmptiesPath` | CRAIIVE/ContentView.swift:130-165 | the root "ai" button and the home buttons of section pages and pushed ingredient pages empty the path from any depth, change nothing else, and are idempotent |
| `NavigationProperties.OverlayGoToMainClosesItself` | CRAIIVE/ContentView.swift:170-218 | each overlay's home button clears only its own flag and empties the path |
| `NavigationProperties.MainIngredientGoToMainDeselects` | CRAIIVE/ContentView.swift:168 | the ingredient page opened from a root list dismisses by clearing the selection and leaves the path alone |
| `NavigationProperties.InfluencerHomeIcon` | CRAIIVE/ContentView.swift:1155-1157 | the influencer page's home icon calls `goBack` (line 181): it hides that page and leaves the path and everything else |
| `NavigationProperties.RootListTapSelects` | CRAIIVE/ContentView.swift:98-120 | a root list tap selects exactly the tapped name and changes nothing else |
| `NavigationProperties.ExploreButtonRaisesExplore` | CRAIIVE/ContentView.swift:134-168 | on the root, section and ingredient pages the explore button sets only `showExplore` |
| `NavigationProperties.ExploreInfluencerRaisesInfluencer` | CRAIIVE/ContentView.swift:174 | Explore's influencer icon sets only `showInfluencerExplore` |
| `NavigationProperties.UploadButtonRaisesUpload` | CRAIIVE/ContentView.swift:139-190 | the upload button of the root, section, ingredient, Explore, influencer and Search pages sets only `showUpload`, leaving Search shown |
| `NavigationProperties.OverlayUploadClosesItself` | CRAIIVE/ContentView.swift:204-218 | the upload button of Loading, Recipe and Shopping hides that overlay, then sets `showUpload` |
| `NavigationProperties.CartButtonRaisesShopping` | CRAIIVE/ContentView.swift:143-218 | on every screen but Loading the cart button sets only `showShopping`, leaving Recipe and Search shown |
| `NavigationProperties.LoadingCartClosesLoading` | CRAIIVE/ContentView.swift:204 | Loading's cart button hides Loading, then sets `showShopping` |
| `NavigationProperties.BackToExplore` | CRAIIVE/ContentView.swift:184-218 | the explore button of Upload, Search, Loading, Recipe and Shopping hides that overlay, then sets `showExplore` |
| `NavigationProperties.SearchBackToExplore` | CRAIIVE/ContentView.swift:196 | Search's back button hides Search, then sets `showExplore` |
| `NavigationProperties.BottomBarsInconsistent` | CRAIIVE/ContentView.swift:190-212 | Recipe's cart button and Search's upload button keep their own overlay shown, while Loading's cart and upload buttons hide Loading |
| `NavigationProperties.EmptyCommitIgnored` | CRAIIVE/ContentView.swift:1576-1580 | committing an empty search field changes nothing |
| `NavigationProperties.CommitSubmits` | CRAIIVE/ContentView.swift:191-195 | a non-empty commit sets `lastSearch`, hides Search, shows Loading, and changes nothing else |
| `NavigationProperties.ExploreSearchBarKeepsExplore` | CRAIIVE/ContentView.swift:176 | Explore's search bar raises Search and leaves Explore shown |
| `NavigationProperties.ExploreGoToExploreIsNoOp` | CRAIIVE/ContentView.swift:173 | Explore's explore button changes nothing |
| `NavigationProperties.OverlaysNotExclusive` | CRAIIVE/ContentView.swift:134 | from the root, Explore then its search bar leaves two overlays shown at once |
| `NavigationProperties.LoadingCompleteRaisesRecipe` | CRAIIVE/ContentView.swift:200-203 | the loading screen's `onComplete` hides Loading, shows Recipe, and changes nothing else |
| `NavigationProperties.RecipeBackReturnsToSearch` | CRAIIVE/ContentView.swift:214 | the recipe's back button hides Recipe, shows Search, and changes nothing else |
| `NavigationProperties.SearchScenarioRun` | CRAIIVE/ContentView.swift:134-214 | from any state the search scenario sets Explore and Search shown, Loading and Recipe hidden, `lastSearch` to q, and moves no other field |
| `NavigationProperties.SearchToRecipeAndBack` | CRAIIVE/ContentView.swift:134-214 | Explore, search bar, submit q, loading completes, recipe back: Search shown, Loading and Recipe hidden, `lastSearch == q` and the recipe title q, Explore still shown, path and selection untouched |
| `NavigationProperties.RoundTripToRoot` | CRAIIVE/ContentView.swift:90-165 | header tap, grid tap, then the pushed page's home button returns to the starting state with an empty path |
| `NavigationProperties.RedWineRoundTrip` | CRAIIVE/ContentView.swift:90-165 | from the initial state, fridge → "Red Wine" → home is the initial state again |
| `NavigationProperties.StepKeepsSelection` | CRAIIVE/ContentView.swift:90-218 | only a root list tap and the selected ingredient page's home button write the selection |
| `NavigationProperties.SelectionOnlyThroughItsChannel` | CRAIIVE/ContentView.swift:90-218 | no sequence of other callbacks changes the selection, however it moves the path |
| `NavigationProperties.StepLastSearch` | CRAIIVE/ContentView.swift:186-199 | a callback keeps `lastSearch` or sets it to the text of a non-empty commit |
| `NavigationProperties.LastSearchIsACommittedQuery` | CRAIIVE/ContentView.swift:186-199 | after any callbacks, `lastSearch` is its old value or the non-empty text of a commit among them |
| `LoadingTimer.LoadingStep` | CRAIIVE/ContentView.swift:1337-1350 | `onComplete` runs iff a scheduled callback fires while `isActive`; nothing sets `isActive` back to true; disappearing clears it |
| `LoadingTimer.LoadingRun` | CRAIIVE/ContentView.swift:1337-1350 | over any event sequence the page can only lose `isActive`, and it has lost it if the sequence contains a disappearance |
| `LoadingTimer.Completions` | CRAIIVE/ContentView.swift:1337-1350 | `onComplete` runs at most once per event |
| `LoadingTimer.DisappearedNeverCompletes` | CRAIIVE/ContentView.swift:1342-1350 | once the page has disappeared, no later events run `onComplete` |
| `LoadingTimer.CompletionsBoundedBySchedules` | CRAIIVE/ContentView.swift:1337-1346 | `onComplete` runs at most once per scheduled callback |
| `LoadingTimer.DisappearThenFire` | CRAIIVE/ContentView.swift:1342-1350 | disappear followed by fire performs no transition |
| `LoadingTimer.AppearThenFireCompletes` | CRAIIVE/ContentView.swift:1281-1346 | a fresh page that appears and stays completes exactly once |
| `LoadingTimer.LoadingPage.constructor` | CRAIIVE/ContentView.swift:1281 | a new page is active with nothing scheduled |
| `LoadingTimer.LoadingPage.Appear` | CRAIIVE/ContentView.swift:1337-1347 | `onAppear` schedules one callback and leaves `isActive` as it is |
| `LoadingTimer.LoadingPage.Disappear` | CRAIIVE/ContentView.swift:1348-1350 | `onDisappear` sets `isActive` false |
| `LoadingTimer.LoadingPage.Fire` | CRAIIVE/ContentView.swift:1342-1346 | a callback runs: if active, the loading screen's `onComplete` (Loading false, Recipe true); otherwise the navigation state is unchanged |
| `LoadingTimer.GoHomeWhileLoading` | CRAIIVE/ContentView.swift:204 | leaving loading through its home button before the timer means the timer never raises the recipe; the page ends inactive with one callback fewer pending, and the navigator ends in the home button's state |
| `IngredientDetail.IngredientPage.constructor` | CRAIIVE/ContentView.swift:404 | the nutrition sheet starts closed |
| `IngredientDetail.IngredientPage.TapImage` | CRAIIVE/ContentView.swift:419 | tapping the image opens the nutrition sheet |
| `IngredientDetail.IngredientPage.TapOutsideSheet` | CRAIIVE/ContentView.swift:467-473 | tapping the catch-all layer closes it |

## Left out

- Layout, fonts, images and every hardcoded sample list (drinks, freezer and pantry items, recipes, shopping sections, nutrition rows, store cards): presentation only.
- Which destination SwiftUI's `NavigationStack` renders on top, and the framework's own writes through `$path`, `$showX`, `$selectedMainIngredient` and `$showNutrition` (system back gesture, sheet drag-dismiss): behaviour of a library that is not part of this model. A screen is therefore not required to be visible for its callback to run.
- The two-second `DispatchQueue.main.asyncAfter` delay: a scheduled callback running is the event `Fire`; time is not modelled.
- The `progress` animation of the loading page: floating point and purely visual.
- Category and filter pill selection (`selectedCategory`, `selectedFilter`): display-only assignments.
- Buttons with empty actions (Favorites, Inventory, History, the upload box, Save) and the `#Preview` blocks; `goToProfile` is modelled as a closure with no effect.
- `AppSection.id` is its raw value; `RawValue` stands for both.
- `NutritionPage`'s bottom bar calls the closures its `IngredientPage` received, so its buttons are the `PathIngredient` and `MainIngredient` rows of `Wiring`; those closures do not touch `showNutrition`.
- `Codable`/`Hashable` conformances: only the equality they induce on path entries matters, and datatype equality models it. Ingredient names and search text are sequences of characters compared element by element; Swift's `String` equality up to Unicode canonical equivalence (a precomposed and a decomposed "Rosé", line 548, are equal in Swift but distinct here) is not modelled.
