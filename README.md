# Onboarding screens and core form controls of the Recall Companion app

This project models the onboarding flow of an Expo / React Native memory-keeping app and its two shared form controls in Dafny.

The screens are the profile screen (step 1 of 4), the permissions screen (step 2) and the caregiver screen (step 3). Each defines a few `useState` values and handlers that:

- change those values;
- give haptic feedback;
- raise alerts;
- move the router.

The welcome and completion screens contribute unconditional edges. The model chains these into the path welcome → profile → permissions → caregiver → completion → tabs.

The two controls are `Button` and `TextField`, from `components/ui/core`.

## How the model is built

**Effects.** What a handler does to the outside world is recorded as a trace of `Effects.Effect` values, for example:

- `Haptic(Medium)`;
- `Push("/onboarding/permissions")`;
- `Alert(message)`;
- a call of a component's `onPress`, `onFocus` or `onBlur` prop.

The router, the haptics module and `alert` are therefore never called. The model states only which calls are made, and in which order.

**Each screen** (`ProfileSetupScreen`, `PermissionsScreen`, `CaregiverSetupScreen`) has three layers:

- **Pure handlers.** A datatype `State` holds the screen's `useState` values. Each handler is a pure function from a state to a `Step`, meaning the next state plus the effects. The contracts of these functions state what the handler does in every branch.
- **The mounted screen.** A `class Screen` has the same values as fields plus an `effects` trace. Its methods, one per handler, are proved to leave exactly the state and trace the pure handler gives.
- **The error-line invariant.** The profile and caregiver screens keep an invariant about their error line. `ErrorConsistent` says it is empty or holds the screen's message, and never stands beside input that would pass. The invariant is proved for every sequence of user actions (`Run`) and kept by the class methods as `Valid()`.

**Shared pieces.**

- `Whitespace` models JavaScript white space and `String.prototype.trim`. The profile screen's `name.trim()` gate uses it.
- `Email` models the caregiver screen's pattern `^[^\s@]+@[^\s@]+\.[^\s@]+$`. It is proved equivalent to a structural description:
  - no white space;
  - exactly one `@`;
  - a non-empty part before it;
  - after it, a `.` that is neither the first nor the last character.

**The flow.** `OnboardingFlow` connects the screens. A `Session` is the state of the three guarded screens when a forward button is pressed. `ContinueFollowsChain` proves that each forward button's effects navigate to the next stage exactly when that stage's `Guard` holds, and nowhere otherwise. `CompletionNeedsEveryGuard` proves that a walk from the welcome screen to the completion screen must pass all three guards:

- a non-blank name;
- microphone and notifications granted;
- no invite, or a well-formed caregiver email.

**Button and TextField.**

- `Button` models:
  - the prop defaults;
  - the press guard (`disabled || loading`);
  - the style keys `getButtonStyles` and `getTextStyles` choose, proved to exist in the style sheet;
  - the touchable's disabled and accessibility flags;
  - the spinner-or-label content.
- `TextField` models:
  - `getBorderColor` and its agreement with the merged style array;
  - the error-over-helper message line;
  - the icon touchables;
  - the focus state that `handleFocus` and `handleBlur` keep.

## Model

| member | source | states |
|---|---|---|
| Whitespace.IsSpace | app/onboarding/profile-setup.tsx:22 | The characters JavaScript's `trim()` and the `\s` class treat as white space: the ECMAScript WhiteSpace and LineTerminator characters. |
| Whitespace.TrimStart | app/onboarding/profile-setup.tsx:22 | The result is a suffix of the input, the removed prefix is all white space, and the result is empty or starts with a non-space. |
| Whitespace.TrimEnd | app/onboarding/profile-setup.tsx:22 | Mirror of TrimStart: a prefix of the input, the removed suffix is all white space, and the result is empty or ends with a non-space. |
| Whitespace.Trim | app/onboarding/profile-setup.tsx:22 | `trim()` never lengthens a string. It is empty exactly when the input is all white space, and what it keeps neither starts nor ends with white space. |
| Whitespace.BlankConcat | app/onboarding/profile-setup.tsx:22 | A concatenation is all white space exactly when both parts are. |
| Whitespace.TrimStartSkipsBlank | app/onboarding/profile-setup.tsx:22 | Leading white space is dropped entirely by the start trim. |
| Whitespace.TrimStartKeepsTail | app/onboarding/profile-setup.tsx:22 | Once a non-space is reached, everything after it is kept by the start trim. |
| Whitespace.TrimEndSkipsBlank | app/onboarding/profile-setup.tsx:22 | Trailing white space is dropped entirely by the end trim. |
| Whitespace.TrimIgnoresPadding | app/onboarding/profile-setup.tsx:22 | Padding a string with white space on either side does not change its trim. |
| Email.ValidateEmail | app/onboarding/caregiver-setup.tsx:38-41 | The pattern `^[^\s@]+@[^\s@]+\.[^\s@]+$` matches the whole string: some `@` and some later `.` split it into three non-empty runs, none with white space or `@`. |
| Email.AtOnlyAtSplit | app/onboarding/caregiver-setup.tsx:39 | In any match of the pattern, the literal `@` is the only `@` of the string. |
| Email.MatchFacts | app/onboarding/caregiver-setup.tsx:39 | A match has no white space, exactly one `@`, and that `@` is the first one. |
| Email.ValidIsWellFormed | app/onboarding/caregiver-setup.tsx:38-41 | Every string `validateEmail` accepts is structurally well formed. |
| Email.WellFormedIsValid | app/onboarding/caregiver-setup.tsx:38-41 | Every structurally well-formed string is accepted by `validateEmail`. |
| Email.ValidateEmailCharacterisation | app/onboarding/caregiver-setup.tsx:38-41 | `validateEmail(s)` holds exactly when `s` is well formed: no white space, one `@`, a non-empty local part, and an inner `.` after the `@`. |
| Email.TwoAtsRefused | app/onboarding/caregiver-setup.tsx:39 | Any string containing two `@` characters is refused, wherever they stand. |
| Email.AcceptsPlainAddress | app/onboarding/caregiver-setup.tsx:38-41 | `ann@example.com` is accepted. |
| Email.RefusesDoubleAt | app/onboarding/caregiver-setup.tsx:38-41 | `ann@@example.com` is refused. |
| ProfileSetupScreen.NextStep | app/onboarding/profile-setup.tsx:21-29 | Continue with a blank name sets "Please enter your name" and emits nothing, not even a haptic. With any other name the state is kept and it emits a Medium haptic, then the push to `/onboarding/permissions`. |
| ProfileSetupScreen.BackStep | app/onboarding/profile-setup.tsx:16-19 | Back keeps the state and emits a Light haptic, then `router.back()`. |
| ProfileSetupScreen.SelectImageStep | app/onboarding/profile-setup.tsx:31-35 | The image button keeps the state, emits a Light haptic and the "coming soon" alert, and never navigates. |
| ProfileSetupScreen.ChangeNameStep | app/onboarding/profile-setup.tsx:95-98 | Typing sets the name to the new text. The error is cleared exactly when the text is not blank, and never set. |
| ProfileSetupScreen.Apply | app/onboarding/profile-setup.tsx:13-35 | Every user action on the screen keeps the error line consistent with the name. |
| ProfileSetupScreen.RunKeepsErrorConsistent | app/onboarding/profile-setup.tsx:13-35 | From a consistent state, any sequence of actions leaves the error line consistent: empty, or the message beside a blank name. |
| ProfileSetupScreen.InitialContinueFails | app/onboarding/profile-setup.tsx:13-25 | The screen opens consistent, and Continue right away only sets the error. |
| ProfileSetupScreen.ContinueIgnoresPadding | app/onboarding/profile-setup.tsx:22 | White space around the name never changes what Continue does. |
| ProfileSetupScreen.Screen.constructor | app/onboarding/profile-setup.tsx:13-14 | The mounted screen starts with an empty name and error, no effects, and its invariant holding. |
| ProfileSetupScreen.Screen.HandleNext | app/onboarding/profile-setup.tsx:21-29 | handleNext updates the fields and appends effects exactly as NextStep says, keeping the invariant. |
| ProfileSetupScreen.Screen.HandleBack | app/onboarding/profile-setup.tsx:16-19 | handleBack changes no field and appends BackStep's effects. |
| ProfileSetupScreen.Screen.HandleSelectImage | app/onboarding/profile-setup.tsx:31-35 | handleSelectImage changes no field and appends the haptic and the alert. |
| ProfileSetupScreen.Screen.OnChangeName | app/onboarding/profile-setup.tsx:95-98 | onChangeText updates the fields as ChangeNameStep says, appends nothing, and keeps the invariant. |
| PermissionsScreen.Required | app/onboarding/permissions.tsx:59-61 | `filter(p => p.required)` keeps exactly the required entries and never lengthens the list. |
| PermissionsScreen.AllRequiredGranted | app/onboarding/permissions.tsx:59-61 | `filter(p => p.required).every(p => permissions[p.id])`: every required entry's switch is truthy. |
| PermissionsScreen.ContinueDisabled | app/onboarding/permissions.tsx:150-154 | The Continue button is disabled when not every required permission is granted. |
| PermissionsScreen.RequiredIds | app/onboarding/permissions.tsx:26-48 | The required entries are the microphone and notifications rows, in order. |
| PermissionsScreen.GateCharacterisation | app/onboarding/permissions.tsx:59-61 | All required permissions are granted exactly when microphone and notifications are both on. A missing key counts as off. |
| PermissionsScreen.GateIgnoresCamera | app/onboarding/permissions.tsx:79-81 | The optional camera switch never affects the gate. |
| PermissionsScreen.NextStep | app/onboarding/permissions.tsx:55-69 | Continue always emits a Medium haptic first. The push to `/onboarding/caregiver-setup` follows exactly when microphone and notifications are granted; otherwise the "grant all required permissions" alert follows. The switches never change. |
| PermissionsScreen.DisabledExactlyWhenNextAlerts | app/onboarding/permissions.tsx:150-154 | The Continue button is disabled exactly when handleNext would alert rather than navigate. |
| PermissionsScreen.InitiallyDisabled | app/onboarding/permissions.tsx:20-24 | All three switches start off, so Continue starts disabled. |
| PermissionsScreen.ToggleStep | app/onboarding/permissions.tsx:71-77 | A toggle emits a Light haptic and negates the value at the id, reading a key the map lacks as off and so adding it as on. No other key changes. The screen passes only the three list ids, which the map holds from the start (ScreenTogglesStayInMap). |
| PermissionsScreen.ToggleInvolution | app/onboarding/permissions.tsx:71-77 | Toggling a key of the map twice restores the map. |
| PermissionsScreen.ScreenTogglesStayInMap | app/onboarding/permissions.tsx:127-133 | The switches toggle only the list's ids. Each is a key of the map from the start, and toggling it never adds or removes a key. |
| PermissionsScreen.BackStep | app/onboarding/permissions.tsx:50-53 | Back keeps the switches and emits a Light haptic, then `router.back()`. |
| PermissionsScreen.Screen.constructor | app/onboarding/permissions.tsx:20-24 | The mounted screen starts with all switches off and no effects. |
| PermissionsScreen.Screen.HandleNext | app/onboarding/permissions.tsx:55-69 | handleNext keeps the switches and appends NextStep's effects. |
| PermissionsScreen.Screen.TogglePermission | app/onboarding/permissions.tsx:71-77 | togglePermission updates the map as ToggleStep says and appends a Light haptic. |
| PermissionsScreen.Screen.HandleBack | app/onboarding/permissions.tsx:50-53 | handleBack keeps the switches and appends BackStep's effects. |
| CaregiverSetupScreen.CaregiverPermissions.Toggle | app/onboarding/caregiver-setup.tsx:43-49 | `{...prev, [key]: !prev[key]}` negates exactly the one key. |
| CaregiverSetupScreen.ToggleInvolution | app/onboarding/caregiver-setup.tsx:43-49 | Toggling the same permission twice restores the record. |
| CaregiverSetupScreen.NextStep | app/onboarding/caregiver-setup.tsx:27-36 | A Medium haptic always comes first. With the invite on and an email that is not well formed, the error is set and nothing else happens. Otherwise the state is kept and `/onboarding/completion` is pushed; this includes every case with the invite off, whatever the email. |
| CaregiverSetupScreen.ToggleInviteStep | app/onboarding/caregiver-setup.tsx:85-89 | The invite switch emits a Light haptic and flips the invite. Turning it on clears the error and turning it off keeps it; the email and permissions are kept. |
| CaregiverSetupScreen.ChangeEmailStep | app/onboarding/caregiver-setup.tsx:103-106 | Typing sets the email. The error is cleared exactly when the text is well formed or empty, and never set. |
| CaregiverSetupScreen.TogglePermissionStep | app/onboarding/caregiver-setup.tsx:43-49 | A permission switch emits a Light haptic, flips that permission only, and changes nothing else. |
| CaregiverSetupScreen.BackStep | app/onboarding/caregiver-setup.tsx:22-25 | Back keeps the state and emits a Light haptic, then `router.back()`. |
| CaregiverSetupScreen.Apply | app/onboarding/caregiver-setup.tsx:22-106 | Every user action keeps the error line consistent with the email. |
| CaregiverSetupScreen.RunKeepsErrorConsistent | app/onboarding/caregiver-setup.tsx:22-106 | From a consistent state, any sequence of actions leaves the error empty, or the "valid email" message beside an email that is not well formed. |
| CaregiverSetupScreen.EmptyEmailBlocksInvite | app/onboarding/caregiver-setup.tsx:30-33 | With the invite on, Continue on an empty email sets the error and does not navigate. |
| CaregiverSetupScreen.Screen.constructor | app/onboarding/caregiver-setup.tsx:13-20 | The mounted screen starts with no invite, empty email and error, only "view memories" allowed, no effects, and its invariant holding. |
| CaregiverSetupScreen.Screen.HandleNext | app/onboarding/caregiver-setup.tsx:27-36 | handleNext updates the fields and appends effects exactly as NextStep says, keeping the invariant. |
| CaregiverSetupScreen.Screen.OnInviteChange | app/onboarding/caregiver-setup.tsx:85-89 | The invite switch handler updates the fields as ToggleInviteStep says, keeping the invariant. |
| CaregiverSetupScreen.Screen.OnChangeEmail | app/onboarding/caregiver-setup.tsx:103-106 | onChangeText updates the fields as ChangeEmailStep says, appends nothing, and keeps the invariant. |
| CaregiverSetupScreen.Screen.TogglePermission | app/onboarding/caregiver-setup.tsx:43-49 | togglePermission updates the record as TogglePermissionStep says and appends a Light haptic. |
| CaregiverSetupScreen.Screen.HandleBack | app/onboarding/caregiver-setup.tsx:22-25 | handleBack changes no field and appends BackStep's effects. |
| OnboardingFlow.GetStartedEffects | app/onboarding/index.tsx:17-20 | "Get Started": a Medium haptic, then the push to the profile screen. |
| OnboardingFlow.HowItWorksEffects | app/onboarding/index.tsx:22-25 | "How it works": a Light haptic, then the push to `/onboarding/features`. |
| OnboardingFlow.CompletionMountEffects | app/onboarding/completion.tsx:31-32 | On mount of the completion screen: a success notification. |
| OnboardingFlow.StartUsingAppEffects | app/onboarding/completion.tsx:35-38 | "Start using the app": a Medium haptic, then the tabs replace the stack. |
| OnboardingFlow.WelcomeEdges | app/onboarding/index.tsx:17-25 | "Get Started" gives haptic feedback and leads to the profile screen. "How it works" gives haptic feedback and leads to `/onboarding/features`, which is no stage of the chain. |
| OnboardingFlow.CompletionEdges | app/onboarding/completion.tsx:31-38 | On mount the completion screen only notifies success, with no impact haptic and no navigation. "Start using the app" replaces the stack with the tabs. |
| OnboardingFlow.ProfileContinueDestination | app/onboarding/profile-setup.tsx:21-29 | The profile screen's Continue leads to the permissions screen exactly when the name is not blank, and nowhere otherwise. |
| OnboardingFlow.PermissionsContinueDestination | app/onboarding/permissions.tsx:55-69 | The permissions screen's Continue leads to the caregiver screen exactly when microphone and notifications are granted, and nowhere otherwise. |
| OnboardingFlow.CaregiverContinueDestination | app/onboarding/caregiver-setup.tsx:27-36 | The caregiver screen's Continue leads to the completion screen exactly when there is no invite or the email is well formed. |
| OnboardingFlow.OuterEdgesFollowChain | app/onboarding/index.tsx:17-20 | The welcome and completion buttons always lead to the next stage. |
| OnboardingFlow.ProfileEdgeFollowsChain | app/onboarding/profile-setup.tsx:21-29 | The profile edge of the chain is taken exactly under its guard. |
| OnboardingFlow.PermissionsEdgeFollowsChain | app/onboarding/permissions.tsx:55-69 | The permissions edge of the chain is taken exactly under its guard. |
| OnboardingFlow.CaregiverEdgeFollowsChain | app/onboarding/caregiver-setup.tsx:27-36 | The caregiver edge of the chain is taken exactly under its guard. |
| OnboardingFlow.ContinueFollowsChain | app/onboarding/caregiver-setup.tsx:27-36 | Every forward button's effects navigate to the next stage exactly when that stage's guard holds, and nowhere otherwise. |
| OnboardingFlow.AdvanceFollowsEffects | app/onboarding/permissions.tsx:55-69 | The flow's step function moves to the stage the screen's effects navigate to, or stays when they do not navigate. |
| OnboardingFlow.WalkBounds | app/onboarding/profile-setup.tsx:21-29 | A walk never goes back, and each press advances it by at most one stage. |
| OnboardingFlow.PassingRequiresGuard | app/onboarding/permissions.tsx:55-69 | Getting past a stage takes a press made while that stage's guard held. |
| OnboardingFlow.CompletionNeedsEveryGuard | app/onboarding/caregiver-setup.tsx:27-36 | Reaching completion from the welcome or profile screen takes a press with a non-blank name, one with microphone and notifications granted, and one with no invite or a well-formed email. |
| Button.Resolve | components/ui/core/Button.tsx:32-45 | Destructuring keeps the title and label. Each optional prop left out gets its own default, independently of the others: primary, medium, not disabled, not loading, not full width, haptics on. Each prop given is used as given. |
| Button.Defaults | components/ui/core/Button.tsx:35-43 | With every optional prop left out, the button is primary, medium, enabled, not loading, not full width, with haptics on. |
| Button.ButtonStyleKeys | components/ui/core/Button.tsx:56-81 | The container styles start with `button` and the size's key, then `fullWidth` exactly when asked, then the variant key that wins, and nothing else: three keys, or four with `fullWidth`. |
| Button.ContainerVariantKey | components/ui/core/Button.tsx:63-80 | The key `getButtonStyles` spreads last: the variant's disabled key when disabled, else `textButton` for the text variant, else the variant's own key. |
| Button.TextStyleKeys | components/ui/core/Button.tsx:83-100 | The text styles are `text`, the size's text key, and the variant's text key, its disabled form when disabled. |
| Button.ContainerKeyDeterminesLook | components/ui/core/Button.tsx:63-80 | Two configurations with the same container key agree on variant and disabled flag. So disabling a button always changes its key, and no two variants share one. |
| Button.ContainerKeyLength | components/ui/core/Button.tsx:63-80 | The six container keys have six different lengths. |
| Button.SizeKeysDefined | components/ui/core/Button.tsx:129-230 | Every size's button and text keys exist in the style sheet. |
| Button.VariantKeysDefined | components/ui/core/Button.tsx:129-230 | Every variant's disabled, text and disabled-text keys exist in the style sheet. |
| Button.StyleKeysDefined | components/ui/core/Button.tsx:56-100 | Every key either style function picks is defined in the style sheet. |
| Button.StylesIgnoreLoading | components/ui/core/Button.tsx:56-100 | `loading` changes neither the container nor the text styles. |
| Button.TouchableDisabled | components/ui/core/Button.tsx:106 | The touchable's `disabled` is true exactly when the button is disabled or loading. |
| Button.AccessibilityDisabled | components/ui/core/Button.tsx:109 | The touchable's `accessibilityState.disabled` is likewise true exactly when the button is disabled or loading. |
| Button.AccessibilityLabel | components/ui/core/Button.tsx:110 | The announced label is `accessibilityLabel`, or the title when that is absent or empty: an absent label and an empty label both fall back to the title, and an announced empty string means an empty title. |
| Button.Press | components/ui/core/Button.tsx:46-54 | A press while disabled or loading calls nothing. Otherwise it makes one or two calls, two exactly when haptics are on, and `onPress` is called exactly once and last. A haptic occurs exactly when the press is enabled and haptics are on, and every haptic is Medium. |
| Button.DisabledFlagsAgree | components/ui/core/Button.tsx:106-109 | The touchable's `disabled` and `accessibilityState.disabled` agree, and hold exactly when a press does nothing. |
| Button.ContentOf | components/ui/core/Button.tsx:113-122 | A spinner shows exactly while loading; it is the background colour on a primary button and the primary colour otherwise. Otherwise the title shows, with the icon when one is given. |
| TextField.GetBorderColor | components/ui/core/TextField.tsx:58-62 | The border shows the error colour exactly when there is an error. Otherwise it shows the primary colour exactly when focused, and the plain border colour otherwise. |
| TextField.MergedBorderColor | components/ui/core/TextField.tsx:75-81 | The border colour left after merging `[inputContainer, {borderColor}, focused, error]`, each later colour overriding an earlier one. |
| TextField.MergedBorderAgrees | components/ui/core/TextField.tsx:75-81 | Merging the style array leaves the colour getBorderColor chose. |
| TextField.Message | components/ui/core/TextField.tsx:123-133 | A message line shows exactly when the error or the helper is non-empty. The error wins and gets the error style; otherwise the helper gets the helper style. |
| TextField.IconTouchable | components/ui/core/TextField.tsx:83-120 | An icon's touchable is disabled, and has no button role, exactly when it has no press handler. |
| TextField.FocusFollowsLatestEvent | components/ui/core/TextField.tsx:46-56 | After any series of focus and blur events, the field is focused exactly when the latest event was a focus. |
| TextField.Field.constructor | components/ui/core/TextField.tsx:46 | A mounted field starts unfocused, having called nothing. |
| TextField.Field.HandleFocus | components/ui/core/TextField.tsx:48-51 | handleFocus sets focus and calls the caller's `onFocus` exactly once when there is one. |
| TextField.Field.HandleBlur | components/ui/core/TextField.tsx:53-56 | handleBlur clears focus and calls the caller's `onBlur` exactly once when there is one. |

## Left out

- Rendering is not modelled: the JSX trees, layout, colours as values, numeric style entries, progress bars, icons and `StatusBar`. The style models stop at which keys and colour tokens are chosen.
- The router, `expo-haptics` and `alert` are external. They appear only as entries of the effect trace; navigation-stack semantics, such as what `router.back()` returns to, are not modelled.
- Back buttons are modelled per screen, but the flow (`OnboardingFlow.Walk`) only follows forward buttons.
- The features screen, `/onboarding/features`, is not part of this model. It is only the target of "How it works".
- The completion screen's entrance animation is left out. It has no effect on state or navigation.
- The recording screen and the other tab screens are not part of this model. The same holds for `Card` and the constants modules.
- `Button` icon and the `style`, `textStyle`, `containerStyle`, `inputStyle`, `labelStyle`, `helperStyle` and `errorStyle` overrides are left out. They only restyle what the model already chooses.
- `TextField` label text, its accessibility hint, and the props passed through to `TextInput` are left out. They are copied through unchanged.
- White space follows the ECMAScript WhiteSpace and LineTerminator productions on Dafny characters. JavaScript strings are UTF-16 code units, but every character in the table is a single unit, so the two readings agree.
- PermissionsScreen.NextStep: the alert branch is modelled as written. The Continue button is disabled in exactly that case (`DisabledExactlyWhenNextAlerts`), so no tap reaches it.
- PermissionsScreen.ToggleStep: a key the map lacks is read as off. In JavaScript, `prev[id]` for a name inherited from `Object.prototype` (`toString`, `constructor`, `__proto__`) reads that inherited value instead, which the model does not capture. The screen never passes such an id: it toggles only `permission.id` from its list (app/onboarding/permissions.tsx:131).
- PermissionsScreen.ToggleInvolution: stated only for ids already in the map. For a missing id, the first toggle adds it as on, so two toggles leave it present and off.
- TextField.Field.HandleFocus: whether the caller gave an `onFocus` is a parameter; the event object passed on to `onFocus` is not modelled. The same holds for `HandleBlur` with `onBlur`.
