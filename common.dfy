// Shared vocabulary of the onboarding model: optional values, the effects a
// handler emits (haptics, navigation, alerts, callbacks) and the route names.

module Wrappers {

  /** A value that may be absent: an optional prop, or `undefined`. */
  datatype Option<+T> = None | Some(value: T)
}

module Effects {

  /** The impact styles of `Haptics.impactAsync` that the screens use. */
  datatype ImpactStyle = Light | Medium

  /**
   * One call into code outside the model, recorded in the order a handler
   * makes it. Haptics, the router and `alert` are foreign calls: the model
   * keeps only the fact that they were called, and with what.
   */
  datatype Effect =
    | Haptic(style: ImpactStyle)      // Haptics.impactAsync(style)
    | SuccessNotification             // Haptics.notificationAsync(Success)
    | Push(route: string)             // router.push(route)
    | Replace(route: string)          // router.replace(route)
    | Back                            // router.back()
    | Alert(message: string)          // alert(message)
    | CallOnPress                     // a Button's onPress prop
    | CallOnFocus                     // a TextField's onFocus prop
    | CallOnBlur                      // a TextField's onBlur prop
  {
    /** Whether this effect moves the router somewhere. */
    predicate IsNavigation() {
      Push? || Replace? || Back?
    }
  }

  /** Whether some effect of the trace moves the router. */
  predicate Navigates(effects: seq<Effect>) {
    exists i :: 0 <= i < |effects| && effects[i].IsNavigation()
  }

  /** Whether some effect of the trace is a haptic of any style. */
  predicate HasHaptic(effects: seq<Effect>) {
    exists i :: 0 <= i < |effects| && effects[i].Haptic?
  }
}

module Routes {

  const WelcomeRoute := "/onboarding"
  const ProfileSetupRoute := "/onboarding/profile-setup"
  const FeaturesRoute := "/onboarding/features"
  const PermissionsRoute := "/onboarding/permissions"
  const CaregiverSetupRoute := "/onboarding/caregiver-setup"
  const CompletionRoute := "/onboarding/completion"
  const TabsRoute := "/(tabs)"
}
