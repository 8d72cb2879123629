# Sponsor list and dynamic-colour setting of the DroidKaigi 2022 conference app

This project models the state controllers of the app's sponsor screen and settings screen.

- **Sponsor screen** (`SponsorFeature`, in `sponsor_feature.dfy`). The store's state is
  `SponsorState`, the ordered list of sponsors. `Reduce` is the `sponsorReducer` written
  as a pure `(state, action) -> (state, effect)` function:
  - `Refresh` keeps the state and asks for the subscription to the sponsor stream.
  - A successful `RefreshResponse` replaces the list wholesale.
  - A failed one is ignored.

  `Replay` runs the reducer over a sequence of actions. The view keeps three grids:
  platinum, gold and supporter. Each grid shows the order-preserving filter of the list
  by its plan, and each has a fixed column count. `Height` is the tile height per plan,
  with the fall-through branch for plans the screen does not name.
- **Settings view-model** (`SettingFeature`, in `setting_feature.dfy`). The class
  `SharedSettingViewModel` holds the mutable flag `isDynamicColorEnabled` and the
  published `uiModel`:
  - The constructor seeds the flag from "SDK level at least 31" (API level S).
  - `OnDynamicColorToggle` negates the flag in place.

  The object invariant `Valid()` says two things. The UI model shows the flag. The flag
  is the initial value toggled `toggleCount` times. `ToggledParity` turns that count into
  "initial value exclusive-or (count is odd)".

The source does not show which cases `Plan` has; it only shows that the type is bridged
from the shared Kotlin model (`Sponsor.companion`). A switch over the bridged type needs a
`default` branch, whatever its cases are, and `height(of:)` has one. The model therefore
does not assume a closed three-tier enumeration: `Plan` has a fourth case, `OtherPlan`,
that stands for whatever that branch would catch. The sponsor record's fields (`name`, `logo`, `plan`, `link`) come from the
shared model. The shared model is not part of this model; no identifier field is used.

## Model

| member | source | states |
|---|---|---|
| `SponsorFeature.DefaultStateIsEmpty` | app-ios/Sources/SponsorFeature/SponsorView.swift:9-14 | a default-constructed state holds no sponsors |
| `SponsorFeature.Reduce` | app-ios/Sources/SponsorFeature/SponsorView.swift:28-49 | refresh keeps the state and starts the subscription; a success sets the list to exactly its payload with no further effect; a failure keeps the state with no effect; the state changes only on a success |
| `SponsorFeature.Replay` | app-ios/Sources/SponsorFeature/SponsorView.swift:28-49 | the store running the reducer on each action in turn ends either in the state it started from or with exactly the list of some successful response among the actions |
| `SponsorFeature.ReplayKeepsLastSnapshot` | app-ios/Sources/SponsorFeature/SponsorView.swift:44-48 | after any sequence of actions the list equals the payload of the last successful response; with no success the state is the initial one |
| `SponsorFeature.SponsorsOfPlan` | app-ios/Sources/SponsorFeature/SponsorView.swift:69-91 | a tier's list contains a sponsor exactly when the full list does and its plan is that tier, and is no longer than the full list |
| `SponsorFeature.SponsorsOfPlanKeepsOrder` | app-ios/Sources/SponsorFeature/SponsorView.swift:69-91 | a tier's list is the full list restricted to exactly the positions whose plan is that tier, in ascending order of position (relative order preserved) |
| `SponsorFeature.SectionSponsors` | app-ios/Sources/SponsorFeature/SponsorView.swift:71-89 | a grid shows a sponsor exactly when the list holds it and its plan is the grid's tier; no grid shows a sponsor of any other plan |
| `SponsorFeature.PlansPartitionSponsors` | app-ios/Sources/SponsorFeature/SponsorView.swift:69-91 | the tier lists of the four plans together hold each sponsor of the list exactly as often as the list does |
| `SponsorFeature.SectionsPartitionTiers` | app-ios/Sources/SponsorFeature/SponsorView.swift:69-91 | each grid shows exactly the sponsors of its tier; no two grids share a sponsor; a sponsor of any other plan is shown in none |
| `SponsorFeature.Columns` | app-ios/Sources/SponsorFeature/SponsorView.swift:72-90 | the platinum grid has one column, the gold and supporter grids two |
| `SponsorFeature.Height` | app-ios/Sources/SponsorFeature/SponsorView.swift:166-177 | tile height is 112 exactly for platinum and gold, 72 exactly for supporter and every other plan |
| `SponsorFeature.SectionTileHeights` | app-ios/Sources/SponsorFeature/SponsorView.swift:162-177 | every tile of a grid has that grid's height (112, 112, 72) and no rendered tile reaches the default branch |
| `SponsorFeature.GoldSectionScenario` | app-ios/Sources/SponsorFeature/SponsorView.swift:44-89 | after a success delivering one platinum and two gold sponsors, the gold grid shows the two gold sponsors in delivery order, the platinum grid the one, and the supporter grid nothing |
| `SettingFeature.IsSupportedDynamicColor` | feature/setting/src/main/java/io/github/droidkaigi/confsched2022/feature/setting/SettingViewModel.kt:40-43 | true exactly when the SDK level is at least 31 (VERSION_CODES.S) |
| `SettingFeature.SharedSettingViewModel.constructor` | feature/setting/src/main/java/io/github/droidkaigi/confsched2022/feature/setting/SettingViewModel.kt:27-43 | the initial flag is true exactly when the SDK level is at least 31 (VERSION_CODES.S), and the UI model shows it |
| `SettingFeature.SharedSettingViewModel.OnDynamicColorToggle` | feature/setting/src/main/java/io/github/droidkaigi/confsched2022/feature/setting/SettingViewModel.kt:35-38 | the flag becomes the negation of its previous value, the UI model follows, and the flag equals the initial value exclusive-or (number of toggles is odd) |
| `SettingFeature.SharedSettingViewModel.CurrentUiModel` | feature/setting/src/main/java/io/github/droidkaigi/confsched2022/feature/setting/SettingViewModel.kt:24-32 | the published UI model always shows the current flag |
| `SettingFeature.ToggleScenario` | feature/setting/src/main/java/io/github/droidkaigi/confsched2022/feature/setting/SettingViewModel.kt:27-38 | on a device below API level 31 the UI model starts with the flag off, one toggle turns it on, and a second toggle gives back the initial UI model |
| `SettingFeature.ToggledParity` | feature/setting/src/main/java/io/github/droidkaigi/confsched2022/feature/setting/SettingViewModel.kt:37 | after n toggles the flag is the initial value exclusive-or (n is odd) |
| `SettingFeature.TogglingTwiceRestores` | feature/setting/src/main/java/io/github/droidkaigi/confsched2022/feature/setting/SettingViewModel.kt:37 | two more toggles give back the same flag |
| `SettingFeature.ToggledCompose` | feature/setting/src/main/java/io/github/droidkaigi/confsched2022/feature/setting/SettingViewModel.kt:37 | m toggles followed by n toggles equal m + n toggles |

## Left out

- The effect machinery of `.refresh` (SponsorView.swift:31-43) is left out: consuming the async stream, sending each element back as a response, scheduling on the main queue. That is concurrency and framework code, so the model reduces it to the effect tag `SubscribeToSponsors`. Each stream element enters the model as a successful `RefreshResponse` action. A stream error is not sent as an action: it ends the subscription, and the list keeps its last value. Cancelling the subscription is not modelled.
- The error carried by a failed `TaskResult` is left out, because the reducer never reads it.
- SwiftUI rendering is left out: scroll view, grid spacing, dividers, padding, fonts, colours, the logo image loading, the rounded clip and the navigation title. It has no behaviour to state. The grid titles are display text and are left out too.
- Tapping a tile (SponsorView.swift:59-63, 74-93, 102-106) is left out. It sets a sheet item with a random `UUID`, then parses `link` with the platform URL parser and presents a Safari view. All three are foreign or random.
- The `#if DEBUG` preview with fake sponsors is left out, because it is a development aid.
- `Height`: CGFloat is modelled as `real`; every value involved is a whole number.
- Android plumbing is left out: Hilt injection, the coroutine scope, the UI dispatcher and molecule recomposition. It is framework code. The model assumes `uiModel` is recomposed right after each change, so the state the screen eventually sees is kept as the invariant on the published field.
- The read of `Build.VERSION.SDK_INT` is left out. The SDK level is a constructor parameter instead.
- Persistence of the dynamic-colour flag is left out, because the source marks it as not yet implemented.
