// The onboarding flow as a whole: the welcome and completion screens' handlers,
// and the chain Welcome -> ProfileSetup -> Permissions -> CaregiverSetup ->
// Completion -> tabs that the screens' Continue buttons walk, each conditional
// edge guarded by its screen's check.

module OnboardingFlow {
  import opened Wrappers
  import opened Effects
  import opened Routes
  import opened Whitespace
  import opened Email
  import ProfileSetupScreen
  import PermissionsScreen
  import CaregiverSetupScreen

  datatype Stage = Welcome | ProfileSetup | Permissions | CaregiverSetup | Completion | Tabs

  /** The position of a stage along the flow. */
  function Rank(st: Stage): nat {
    match st
    case Welcome => 0
    case ProfileSetup => 1
    case Permissions => 2
    case CaregiverSetup => 3
    case Completion => 4
    case Tabs => 5
  }

  function RouteOf(st: Stage): string {
    match st
    case Welcome => WelcomeRoute
    case ProfileSetup => ProfileSetupRoute
    case Permissions => PermissionsRoute
    case CaregiverSetup => CaregiverSetupRoute
    case Completion => CompletionRoute
    case Tabs => TabsRoute
  }

  /** The stage a route names, if any; it inverts RouteOf. */
  function StageOf(route: string): (r: Option<Stage>)
    ensures r.Some? ==> RouteOf(r.value) == route
    ensures forall st :: RouteOf(st) == route ==> r == Some(st)
  {
    if route == WelcomeRoute then Some(Welcome)
    else if route == ProfileSetupRoute then Some(ProfileSetup)
    else if route == PermissionsRoute then Some(Permissions)
    else if route == CaregiverSetupRoute then Some(CaregiverSetup)
    else if route == CompletionRoute then Some(Completion)
    else if route == TabsRoute then Some(Tabs)
    else None
  }

  /** The next stage along the chain. */
  function Successor(st: Stage): (next: Stage)
    requires st != Tabs
    ensures Rank(next) == Rank(st) + 1
  {
    match st
    case Welcome => ProfileSetup
    case ProfileSetup => Permissions
    case Permissions => CaregiverSetup
    case CaregiverSetup => Completion
    case Completion => Tabs
  }

  /** The welcome screen's "Get Started": a Medium haptic, then the profile screen. */
  function GetStartedEffects(): seq<Effect> {
    [Haptic(Medium), Push(ProfileSetupRoute)]
  }

  /** The welcome screen's "How it works": a Light haptic, then the features route. */
  function HowItWorksEffects(): seq<Effect> {
    [Haptic(Light), Push(FeaturesRoute)]
  }

  /** The completion screen, on mount: a success notification. */
  function CompletionMountEffects(): seq<Effect> {
    [SuccessNotification]
  }

  /** The completion screen's "Start using the app": a Medium haptic, then the tabs replace the stack. */
  function StartUsingAppEffects(): seq<Effect> {
    [Haptic(Medium), Replace(TabsRoute)]
  }

  /**
   * The welcome screen leads into the chain at the profile screen, and its
   * "How it works" button leads off the chain, to a route that is no stage of it.
   */
  lemma WelcomeEdges()
    ensures Destination(GetStartedEffects()) == Some(RouteOf(Successor(Welcome)))
    ensures Destination(HowItWorksEffects()) == Some(FeaturesRoute) && StageOf(FeaturesRoute) == None
    ensures HasHaptic(GetStartedEffects()) && HasHaptic(HowItWorksEffects())
  {
    assert GetStartedEffects()[0].Haptic? && HowItWorksEffects()[0].Haptic?;
    assert Destination(GetStartedEffects()) == Destination(GetStartedEffects()[1..]);
    assert Destination(HowItWorksEffects()) == Destination(HowItWorksEffects()[1..]);
  }

  /**
   * The completion screen announces success on mount without navigating, and
   * its button replaces the stack with the tabs, the stage after it.
   */
  lemma CompletionEdges()
    ensures !Navigates(CompletionMountEffects()) && !HasHaptic(CompletionMountEffects())
    ensures Destination(StartUsingAppEffects()) == Some(RouteOf(Successor(Completion)))
    ensures StartUsingAppEffects()[|StartUsingAppEffects()| - 1].Replace?
  {
    assert Destination(StartUsingAppEffects()) == Destination(StartUsingAppEffects()[1..]);
  }

  /** The state of the three screens with a guarded Continue. */
  datatype Session = Session(
    profile: ProfileSetupScreen.State,
    grants: PermissionsScreen.Grants,
    caregiver: CaregiverSetupScreen.State)

  /**
   * The effects of the handler behind a stage's forward button. (On the
   * permissions screen the button is disabled whenever this handler would
   * alert, so there a tap that fails the gate reaches no handler at all.)
   */
  function ContinueEffects(st: Stage, sess: Session): seq<Effect>
    requires st != Tabs
  {
    match st
    case Welcome => GetStartedEffects()
    case ProfileSetup => ProfileSetupScreen.NextStep(sess.profile).effects
    case Permissions => PermissionsScreen.NextStep(sess.grants).effects
    case CaregiverSetup => CaregiverSetupScreen.NextStep(sess.caregiver).effects
    case Completion => StartUsingAppEffects()
  }

  /** What must hold for a stage's forward button to lead on, stated without the screens' code. */
  predicate Guard(st: Stage, sess: Session) {
    match st
    case Welcome => true
    case ProfileSetup => !IsBlank(sess.profile.name)
    case Permissions =>
      PermissionsScreen.Granted(sess.grants, PermissionsScreen.Microphone)
      && PermissionsScreen.Granted(sess.grants, PermissionsScreen.Notifications)
    case CaregiverSetup => CaregiverSetupScreen.CanContinue(sess.caregiver)
    case Completion => true
    case Tabs => false
  }

  /** The route of the first push or replace of a trace, if any. */
  function Destination(effects: seq<Effect>): (r: Option<string>)
    ensures r.None? ==> forall i :: 0 <= i < |effects| ==> !effects[i].Push? && !effects[i].Replace?
  {
    if effects == [] then None
    else if effects[0].Push? || effects[0].Replace? then Some(effects[0].route)
    else Destination(effects[1..])
  }

  /** The destination of a trace is its first effect's route if that navigates forward, else the rest's. */
  lemma DestinationCons(x: Effect, rest: seq<Effect>)
    ensures Destination([x] + rest) == if x.Push? || x.Replace? then Some(x.route) else Destination(rest)
  {
    assert ([x] + rest)[1..] == rest;
  }

  /** The profile screen's Continue leads to the permissions screen exactly when the name is not blank. */
  lemma ProfileContinueDestination(s: ProfileSetupScreen.State)
    ensures Destination(ProfileSetupScreen.NextStep(s).effects) ==
      if !IsBlank(s.name) then Some(PermissionsRoute) else None
  {
    if !IsBlank(s.name) {
      DestinationCons(Haptic(Medium), [Push(PermissionsRoute)]);
      DestinationCons(Push(PermissionsRoute), []);
    }
  }

  /** The permissions screen's Continue leads on exactly when microphone and notifications are granted. */
  lemma PermissionsContinueDestination(g: PermissionsScreen.Grants)
    ensures Destination(PermissionsScreen.NextStep(g).effects) ==
      if PermissionsScreen.Granted(g, PermissionsScreen.Microphone)
         && PermissionsScreen.Granted(g, PermissionsScreen.Notifications)
      then Some(CaregiverSetupRoute) else None
  {
    var e := PermissionsScreen.NextStep(g).effects;
    assert e == [e[0]] + [e[1]];
    DestinationCons(e[0], [e[1]]);
    DestinationCons(e[1], []);
  }

  /** The caregiver screen's Continue leads on exactly when there is no invite or its email is well formed. */
  lemma CaregiverContinueDestination(s: CaregiverSetupScreen.State)
    ensures Destination(CaregiverSetupScreen.NextStep(s).effects) ==
      if CaregiverSetupScreen.CanContinue(s) then Some(CompletionRoute) else None
  {
    var e := CaregiverSetupScreen.NextStep(s).effects;
    assert e == [e[0]] + e[1..];
    DestinationCons(e[0], e[1..]);
    if CaregiverSetupScreen.CanContinue(s) {
      DestinationCons(Push(CompletionRoute), []);
    }
  }

  lemma OuterEdgesFollowChain(st: Stage, sess: Session)
    requires st == Welcome || st == Completion
    ensures Destination(ContinueEffects(st, sess)) ==
      if Guard(st, sess) then Some(RouteOf(Successor(st))) else None
  {
    WelcomeEdges();
    CompletionEdges();
  }

  lemma ProfileEdgeFollowsChain(st: Stage, sess: Session)
    requires st == ProfileSetup
    ensures Destination(ContinueEffects(st, sess)) ==
      if Guard(st, sess) then Some(RouteOf(Successor(st))) else None
  {
    ProfileContinueDestination(sess.profile);
  }

  lemma PermissionsEdgeFollowsChain(st: Stage, sess: Session)
    requires st == Permissions
    ensures Destination(ContinueEffects(st, sess)) ==
      if Guard(st, sess) then Some(RouteOf(Successor(st))) else None
  {
    PermissionsContinueDestination(sess.grants);
  }

  lemma CaregiverEdgeFollowsChain(st: Stage, sess: Session)
    requires st == CaregiverSetup
    ensures Destination(ContinueEffects(st, sess)) ==
      if Guard(st, sess) then Some(RouteOf(Successor(st))) else None
  {
    CaregiverContinueDestination(sess.caregiver);
  }

  /** Each forward button leads to the next stage exactly when its guard holds, and nowhere otherwise. */
  lemma ContinueFollowsChain(st: Stage, sess: Session)
    requires st != Tabs
    ensures Destination(ContinueEffects(st, sess)) ==
      if Guard(st, sess) then Some(RouteOf(Successor(st))) else None
  {
    if st == Welcome || st == Completion {
      OuterEdgesFollowChain(st, sess);
    } else if st == ProfileSetup {
      ProfileEdgeFollowsChain(st, sess);
    } else if st == Permissions {
      PermissionsEdgeFollowsChain(st, sess);
    } else {
      CaregiverEdgeFollowsChain(st, sess);
    }
  }

  /**
   * Where a press of the forward button leaves the flow: one stage on when the
   * stage's guard holds, where it was otherwise. By ContinueFollowsChain this is
   * exactly where the screen's own effects send the router.
   */
  function Advance(st: Stage, sess: Session): Stage {
    if st != Tabs && Guard(st, sess) then Successor(st) else st
  }

  /** Advance agrees with the route the screen's effects navigate to. */
  lemma AdvanceFollowsEffects(st: Stage, sess: Session)
    requires st != Tabs
    ensures Advance(st, sess) == match Destination(ContinueEffects(st, sess))
      case Some(route) => (if StageOf(route).Some? then StageOf(route).value else st)
      case None => st
  {
    ContinueFollowsChain(st, sess);
  }

  /** A walk through the flow: one press of the forward button per session, in order. */
  function Walk(st: Stage, sessions: seq<Session>): Stage
    decreases |sessions|
  {
    if sessions == [] then st else Walk(Advance(st, sessions[0]), sessions[1..])
  }

  /** A walk never goes back, and ends at most one stage per press further on. */
  lemma {:induction false} WalkBounds(st: Stage, sessions: seq<Session>)
    ensures Rank(st) <= Rank(Walk(st, sessions)) <= Rank(st) + |sessions|
    decreases |sessions|
  {
    if sessions != [] {
      WalkBounds(Advance(st, sessions[0]), sessions[1..]);
    }
  }

  /** Passing a stage takes a press made while that stage's guard held. */
  lemma {:induction false} PassingRequiresGuard(st: Stage, sessions: seq<Session>, target: Stage)
    requires Rank(st) <= Rank(target) < Rank(Walk(st, sessions))
    ensures exists i :: 0 <= i < |sessions| && Guard(target, sessions[i])
    decreases |sessions|
  {
    if sessions == [] {
    } else {
      var next := Advance(st, sessions[0]);
      if st == target && Guard(target, sessions[0]) {
      } else {
        assert Rank(next) <= Rank(target);
        PassingRequiresGuard(next, sessions[1..], target);
        var i :| 0 <= i < |sessions[1..]| && Guard(target, sessions[1..][i]);
        assert sessions[i + 1] == sessions[1..][i];
      }
    }
  }

  /**
   * Reaching the completion screen from the welcome screen (or from any stage
   * before the profile screen's Continue) takes a press with a non-blank name,
   * one with microphone and notifications granted, and one with no invite or a
   * well-formed caregiver email.
   */
  lemma CompletionNeedsEveryGuard(start: Stage, sessions: seq<Session>)
    requires start == Welcome || start == ProfileSetup
    requires Walk(start, sessions) == Completion || Walk(start, sessions) == Tabs
    ensures exists i :: 0 <= i < |sessions| && !IsBlank(sessions[i].profile.name)
    ensures exists i :: 0 <= i < |sessions| && Guard(Permissions, sessions[i])
    ensures exists i :: 0 <= i < |sessions| && Guard(CaregiverSetup, sessions[i])
  {
    PassingRequiresGuard(start, sessions, ProfileSetup);
    PassingRequiresGuard(start, sessions, Permissions);
    PassingRequiresGuard(start, sessions, CaregiverSetup);
  }
}
