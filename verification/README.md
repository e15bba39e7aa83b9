# PlayCover settings: stack navigation and window resolution

A Dafny model of two small pieces of logic in PlayCover's per-app settings panel.

- **Stack navigation** (`PlayCover/Utils/NavigationStack.swift`, module `Navigation`, file `navigation.dfy`).
  The container shows its root view when the `showingSubview` binding is false. It shows the payload of the `currentSubview` binding when that flag is true.
  - `StackNavigationTransition` is `None | DefaultTransition | Custom(transition)`. The Swift case is spelled `defaultTranisition`.
  - It has a hand-written `==` (`Equals`) that compares only the case, and a mapping `AnyTransition` to an animation token.
  - The root is stacked at z-index −1 and slides from the leading edge under the default kind. The detail is stacked at +1 and carries the back control.
  - The back control clears the payload to the empty view and then resets the flag. The flag write is animated only for the default kind.
  - Animations are opaque tokens `Identity | Move(edge) | Supplied(id)`. Views are `Empty | Content(name)`.
  - The two SwiftUI `@Binding`s are objects of class `Bindings.Binding` (`bindings.dfy`). The view holds references to them, so the caller sees every write the back control makes.
- **Window resolution** (`GraphicsView` in `PlayCover/Views/AppSettingsView.swift`, module `Graphics`, file `graphics.dfy`).
  - The table from aspect-ratio index to ratio, and the width rule `(height / heightRatio) * widthRatio` with Swift's truncating division.
  - The table from resolution mode to window size. `SetResolution` writes that size into `windowWidth` and `windowHeight` of the bound settings.
  - Which size controls the tab shows for each mode.
  - The four stepper closures on the custom width and height.

The main screen's visible-frame width is an input, `screenWidth: Option<int>`. It is `None` when there is no main screen.

Mode 1 ("auto") uses that width for both the window width and the window height, as the code does. The model keeps this behaviour.

Only `showingSubview = false` is wrapped in `withAnimation`. `currentSubview` is cleared before the transaction and outside it (NavigationStack.swift:73-78). So `Back`'s `animated` result says nothing about the payload write.

## Model

| member | source | states |
|---|---|---|
| `Navigation.StackNavigationTransition.AnyTransition` | PlayCover/Utils/NavigationStack.swift:26-37 | Total mapping. Identity comes exactly from `None` or `Custom(Identity)`. A move from the trailing edge comes exactly from the default kind or `Custom(Move(Trailing))`. `Custom(t)` gives `t` unchanged. |
| `Navigation.StackNavigationTransition.Equals` | PlayCover/Utils/NavigationStack.swift:13-24 | The hand-written `==` holds for structurally equal kinds and for any two `Custom` kinds. Between payload-free kinds it holds only for identical ones. `EqualsIsNominal` gives the exact characterisation. |
| `Navigation.EqualsIsNominal` | PlayCover/Utils/NavigationStack.swift:13-24 | The hand-written `==` holds iff the kinds are structurally equal or both are `Custom`, whatever their payloads. |
| `Navigation.EqualsIsEquivalence` | PlayCover/Utils/NavigationStack.swift:13-24 | The coarse `==` is reflexive, symmetric and transitive. |
| `Navigation.EqualsDeterminesTransitionOnlyWithoutPayload` | PlayCover/Utils/NavigationStack.swift:13-37 | For `None` and the default kind, `==` implies the same transition. Two `Custom` kinds can be `==` yet animate differently. |
| `Navigation.RoleTransition` | PlayCover/Utils/NavigationStack.swift:63-68 | The detail always gets the kind's `anyTransition`, and so does the root for every kind but the default one. For the default kind the root moves from the leading edge and the detail from the trailing edge. `RoleTransitionAsymmetry` draws the consequences. |
| `Navigation.RoleTransitionAsymmetry` | PlayCover/Utils/NavigationStack.swift:63-68 | Root and detail transitions differ iff the kind is the default one; then the root moves from the leading edge and the detail from the trailing edge. `None` gives identity to both roles. `Custom(t)` gives `t` to both. |
| `Navigation.Render` | PlayCover/Utils/NavigationStack.swift:58-87 | Exactly one view is rendered. The flag false gives the root view in the root role; true gives the current payload in the detail role. The back control is present iff the flag is true. The z-index and transition are those of the role. |
| `Navigation.DetailAboveRoot` | PlayCover/Utils/NavigationStack.swift:60-71 | For every root view, kind and payload, the detail's z-index is strictly above the root's, and only the detail carries the back control. |
| `Navigation.StackNavigationView.constructor` | PlayCover/Utils/NavigationStack.swift:47-56 | The container keeps the two given bindings by reference, and the given transition and root view. |
| `Navigation.StackNavigationView.Body` | PlayCover/Utils/NavigationStack.swift:58-89 | Read from the live binding values: the flag false gives the root view at z-index −1 without a back control, and true gives the current payload at z-index 1 with one. `Render`, `DetailAboveRoot` and `RunEndingWithBackShowsRoot` state the rest. |
| `Navigation.StackNavigationView.Back` | PlayCover/Utils/NavigationStack.swift:72-81 | Afterwards the payload is the empty view and the flag is false, whatever they held before, so a second activation changes nothing. The flag write is animated iff the kind is the default one. The body then renders the root view, at z-index −1, without a back control. Only the two bindings change. |
| `Navigation.RunKeepsNoStalePayload` | PlayCover/Utils/NavigationStack.swift:72-81 | Start from bindings where the flag is false only with an empty payload. After any sequence of forward navigations and back presses this still holds, so no stale detail content stays behind the root view. |
| `Navigation.RepeatedBackIsOneBack` | PlayCover/Utils/NavigationStack.swift:72-81 | Any positive number of back presses in a row leaves the same bindings as one press. |
| `Navigation.RunEndingWithBackShowsRoot` | PlayCover/Utils/NavigationStack.swift:60-81 | After any sequence of events ending with a back press, the body renders the root view at z-index −1 with its root-role transition and no back control. |
| `Navigation.DefaultScenario` | PlayCover/Utils/NavigationStack.swift:58-81 | Default kind, navigating forward to "Settings Panel A" and pressing back twice. First the payload is shown at z-index 1 with a back control, moving from the trailing edge. After one back press the root is shown at z-index −1, moving from the leading edge, and the write is animated. A second back press leaves the same rendering. |
| `Graphics.AspectRatio` | PlayCover/Views/AppSettingsView.swift:264-281 | Every index gives a landscape ratio with positive parts. Any index other than 0, 1 or 2 falls back to 16:9. |
| `Graphics.WidthFromAspectRatio` | PlayCover/Views/AppSettingsView.swift:264-283 | The width is a whole number of width units of the selected ratio, non-negative for non-negative heights and non-positive for non-positive ones. `WidthKeepsAspectRatio` bounds it against the exact ratio and `WidthIsMonotone` orders it. |
| `Graphics.ScaledWidthBounds` | PlayCover/Views/AppSettingsView.swift:282 | For any positive ratio, `(height / heightRatio) * widthRatio` is a whole number of width units. For height ≥ 0 it is at most the exact-ratio width and less than one width unit short of it. For height ≥ 0 it equals the exact-ratio width iff the height is a multiple of `heightRatio`. For negative heights, truncation makes it at least the exact-ratio width, and less than one unit over it. |
| `Graphics.WidthKeepsAspectRatio` | PlayCover/Views/AppSettingsView.swift:264-283 | The width for the selected aspect ratio is a whole number of width units and keeps that ratio to within one width unit. It keeps the ratio exactly iff the height is a whole number of height units. |
| `Graphics.WidthIsMonotone` | PlayCover/Views/AppSettingsView.swift:282 | A larger height never gives a smaller width. |
| `Graphics.Resolution` | PlayCover/Views/AppSettingsView.swift:233-258 | Mode 1 gives the screen width as both width and height, or 1920 × 1080 without a screen. Modes 2, 3 and 4 give a height of 1080, 1440 and 2160 respectively, for every stored aspect index including the fallback ones. Their width is `WidthFromAspectRatio` of that height, exactly in the selected aspect ratio, wider than high and at most 3840. Mode 5 gives the custom width and height. Every other mode gives 1920 × 1080. |
| `Graphics.PresetSizes` | PlayCover/Views/AppSettingsView.swift:239-283 | The nine fixed sizes. At 4:3 they are 1440×1080, 1920×1440 and 2880×2160. At 16:9 they are 1920×1080, 2560×1440 and 3840×2160. At 16:10 they are 1728×1080, 2304×1440 and 3456×2160. |
| `Graphics.SizeControlsFor` | PlayCover/Views/AppSettingsView.swift:149-193 | The custom width/height fields are shown iff the mode is 5. The aspect-ratio picker is shown iff the mode is 2–4. The two are never shown together. |
| `Graphics.ControlsShownExactlyWhenTheyMatter` | PlayCover/Views/AppSettingsView.swift:149-258 | Outside the picker's modes, the aspect ratio never changes the window size. In those modes, 4:3 and 16:9 always give different sizes. Outside mode 5, the custom fields never change the size. In mode 5, two sizes are equal iff the custom fields are. |
| `Graphics.GraphicsView.constructor` | PlayCover/Views/AppSettingsView.swift:110-114 | The tab starts with a custom size of 1920 × 1080 and keeps the given settings binding. |
| `Graphics.GraphicsView.SetResolution` | PlayCover/Views/AppSettingsView.swift:229-262 | The bound settings become the old settings with `windowWidth` and `windowHeight` replaced by the size for the old mode, aspect ratio and custom fields. Every other setting and the view's own state are unchanged. |
| `Graphics.GraphicsView.IncrementCustomWidth` | PlayCover/Views/AppSettingsView.swift:162-163 | Adds exactly 1 to the custom width and nothing else changes. It requires the width to be below `Int.max`, where Swift's `+=` traps. |
| `Graphics.GraphicsView.DecrementCustomWidth` | PlayCover/Views/AppSettingsView.swift:164-166 | Subtracts exactly 1 from the custom width and nothing else changes. It requires the width to be above `Int.min`, where Swift's `-=` traps. |
| `Graphics.GraphicsView.IncrementCustomHeight` | PlayCover/Views/AppSettingsView.swift:178-179 | Adds exactly 1 to the custom height and nothing else changes. It requires the height to be below `Int.max`. |
| `Graphics.GraphicsView.DecrementCustomHeight` | PlayCover/Views/AppSettingsView.swift:180-182 | Subtracts exactly 1 from the custom height and nothing else changes. It requires the height to be above `Int.min`. |
| `Graphics.StepperRoundTrip` | PlayCover/Views/AppSettingsView.swift:162-182 | Stepping a custom field up and then down (or down and then up) restores it. In mode 5 the written window size is then exactly the typed size, and the custom fields are the controls shown. |

## Left out

- SwiftUI layout and rendering: stacks, tab view, toolbar placement, labels, frames, paddings, fonts. The back control is kept only as the boolean `hasBackButton`.
- Animation internals: `AnyTransition` values and the `.spring()` curve are opaque tokens. `Back` reports only whether its flag write was animated.
- `NSScreen.main?.visibleFrame` is a foreign AppKit call returning floating-point values. It is an integer input already converted by Swift's `Int(_:)`, so the model does not capture that conversion's truncation or its trap on values out of range.
- `Graphics.WidthFromAspectRatio`: Swift's `*` traps on 64-bit overflow, and the model uses unbounded integers. `setResolution` passes only the heights 1080, 1440 and 2160, where no overflow is possible.
- `GraphicsView.IncrementCustomWidth`, `GraphicsView.DecrementCustomWidth`, `GraphicsView.IncrementCustomHeight`, `GraphicsView.DecrementCustomHeight`: Swift's `+= 1` traps at `Int.max` and `-= 1` at `Int.min`. These traps are modelled as preconditions, so the model does not describe the crash itself.
- `NumberFormatter`, `DispatchQueue.main.async`, `makeFirstResponder` and `@Environment(\.dismiss)` are left out.
- The toast notifications and the two reset buttons are left out. The buttons call `AppSettings.reset()`, which is not part of this model, and toggle alert flags only to notify the user.
- The `onAppear`/`onChange` wiring is left out. That includes copying the window size into the custom fields on appear, and calling `setResolution` whenever the mode, aspect ratio or a custom field changes. `SetResolution` is modelled as an explicit call.
- `KeymappingView`, `JBBypassView` and `InfoView` are left out. They only bind and display values, and the slider range is enforced by SwiftUI.
- Persistence of the settings is left out. `AppSettings` is not part of this model. The settings record lists only the fields these views use.
- Forward navigation is the caller's code. It appears in `DefaultScenario` as two writes. In the event traces (`Run`) it is one `Open` step that sets the payload and the flag together. The caller's own animation transaction around it is not modelled.
