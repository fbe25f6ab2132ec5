// The caregiver screen (step 3 of 4): an optional caregiver invite whose email
// must pass `validateEmail`, and three caregiver permission switches.

module CaregiverSetupScreen {
  import opened Effects
  import opened Routes
  import opened Email

  const InvalidEmailMessage := "Please enter a valid email address"

  /** The keys of the `permissions` record. */
  datatype PermissionKey = ViewMemories | AddMemories | EditMemories

  /** The `permissions` record: what an invited caregiver may do. */
  datatype CaregiverPermissions = CaregiverPermissions(viewMemories: bool, addMemories: bool, editMemories: bool)
  {
    function Get(k: PermissionKey): bool {
      match k
      case ViewMemories => viewMemories
      case AddMemories => addMemories
      case EditMemories => editMemories
    }

    /** `{...prev, [key]: !prev[key]}`: key `k` negated, the other two kept. */
    function Toggle(k: PermissionKey): (p: CaregiverPermissions)
      ensures p.Get(k) == !Get(k)
      ensures forall j :: j != k ==> p.Get(j) == Get(j)
    {
      match k
      case ViewMemories => this.(viewMemories := !viewMemories)
      case AddMemories => this.(addMemories := !addMemories)
      case EditMemories => this.(editMemories := !editMemories)
    }
  }

  /** A record is determined by its three values. */
  lemma PermissionsExtensional(p: CaregiverPermissions, q: CaregiverPermissions)
    requires forall k :: p.Get(k) == q.Get(k)
    ensures p == q
  {
    assert p.Get(ViewMemories) == q.Get(ViewMemories);
    assert p.Get(AddMemories) == q.Get(AddMemories);
    assert p.Get(EditMemories) == q.Get(EditMemories);
  }

  /** Toggling the same key twice restores the record. */
  lemma ToggleInvolution(p: CaregiverPermissions, k: PermissionKey)
    ensures p.Toggle(k).Toggle(k) == p
  {
    PermissionsExtensional(p.Toggle(k).Toggle(k), p);
  }

  /** The screen's `useState` values. */
  datatype State = State(inviteCaregivers: bool, email: string, emailError: string, permissions: CaregiverPermissions)

  /** No invite, empty email and error, and only "view memories" allowed. */
  const Initial := State(false, "", "", CaregiverPermissions(true, false, false))

  /** What a handler leaves behind: the next state and the calls it made, in order. */
  datatype Step = Step(state: State, effects: seq<Effect>)

  /** When handleNext leads on: no invite, or an invite with a well-formed email. */
  predicate CanContinue(s: State) {
    !s.inviteCaregivers || WellFormedEmail(s.email)
  }

  /**
   * handleNext. A Medium haptic comes first in every case. With the invite on
   * and an email that is not well formed, the error is set and nothing else
   * happens; otherwise (in particular whenever the invite is off, whatever the
   * email) the state is kept and the completion screen is pushed.
   */
  function NextStep(s: State): (r: Step)
    ensures |r.effects| >= 1 && r.effects[0] == Haptic(Medium)
    ensures !s.inviteCaregivers ==> r == Step(s, [Haptic(Medium), Push(CompletionRoute)])
    ensures s.inviteCaregivers && !WellFormedEmail(s.email) ==>
      r == Step(s.(emailError := InvalidEmailMessage), [Haptic(Medium)])
    ensures s.inviteCaregivers && WellFormedEmail(s.email) ==>
      r == Step(s, [Haptic(Medium), Push(CompletionRoute)])
  {
    ValidateEmailCharacterisation(s.email);
    if s.inviteCaregivers && !ValidateEmail(s.email) then
      Step(s.(emailError := InvalidEmailMessage), [Haptic(Medium)])
    else
      Step(s, [Haptic(Medium), Push(CompletionRoute)])
  }

  /**
   * The invite switch's onValueChange: a Light haptic and the invite flipped.
   * Turning it on clears the error; turning it off leaves the error as it was.
   */
  function ToggleInviteStep(s: State): (r: Step)
    ensures r.effects == [Haptic(Light)]
    ensures r.state.inviteCaregivers == !s.inviteCaregivers
    ensures r.state.emailError == (if s.inviteCaregivers then s.emailError else "")
    ensures r.state.email == s.email && r.state.permissions == s.permissions
  {
    var wasInviting := s.inviteCaregivers;
    var flipped := s.(inviteCaregivers := !wasInviting);
    Step(if !wasInviting then flipped.(emailError := "") else flipped, [Haptic(Light)])
  }

  /**
   * The email field's onChangeText: the email becomes the new text; the error
   * is cleared exactly when the new text is well formed or empty, and is never set.
   */
  function ChangeEmailStep(s: State, text: string): (r: Step)
    ensures r.effects == []
    ensures r.state.email == text
    ensures r.state.emailError == (if WellFormedEmail(text) || text == "" then "" else s.emailError)
    ensures r.state.inviteCaregivers == s.inviteCaregivers && r.state.permissions == s.permissions
  {
    ValidateEmailCharacterisation(text);
    var edited := s.(email := text);
    Step(if ValidateEmail(text) || text == "" then edited.(emailError := "") else edited, [])
  }

  /** togglePermission(key): a Light haptic and the one permission flipped. */
  function TogglePermissionStep(s: State, k: PermissionKey): (r: Step)
    ensures r.effects == [Haptic(Light)]
    ensures r.state.permissions.Get(k) == !s.permissions.Get(k)
    ensures forall j :: j != k ==> r.state.permissions.Get(j) == s.permissions.Get(j)
    ensures r.state.(permissions := s.permissions) == s
  {
    Step(s.(permissions := s.permissions.Toggle(k)), [Haptic(Light)])
  }

  /** handleBack: a Light haptic, then back. */
  function BackStep(s: State): (r: Step)
    ensures r.state == s && r.effects == [Haptic(Light), Back]
  {
    Step(s, [Haptic(Light), Back])
  }

  /**
   * What the screen promises about its error line: it is either empty or the
   * "valid email" message, and the message never stands beside a valid email.
   */
  predicate ErrorConsistent(s: State) {
    s.emailError == "" || (s.emailError == InvalidEmailMessage && !WellFormedEmail(s.email))
  }

  /** The user's actions on this screen. */
  datatype Event = Continue | ToggleInvite | EditEmail(text: string) | TogglePermission(key: PermissionKey) | GoBack

  function Apply(s: State, e: Event): (r: Step)
    ensures ErrorConsistent(s) ==> ErrorConsistent(r.state)
  {
    match e
    case Continue => NextStep(s)
    case ToggleInvite => ToggleInviteStep(s)
    case EditEmail(text) => ChangeEmailStep(s, text)
    case TogglePermission(k) => TogglePermissionStep(s, k)
    case GoBack => BackStep(s)
  }

  /** A sequence of actions, with the effects of each appended in order. */
  function Run(s: State, events: seq<Event>): Step
    decreases |events|
  {
    if events == [] then Step(s, [])
    else
      var first := Apply(s, events[0]);
      var rest := Run(first.state, events[1..]);
      Step(rest.state, first.effects + rest.effects)
  }

  /** Whatever the user does from a consistent state, the error line stays consistent. */
  lemma {:induction false} RunKeepsErrorConsistent(s: State, events: seq<Event>)
    requires ErrorConsistent(s)
    ensures ErrorConsistent(Run(s, events).state)
    decreases |events|
  {
    if events != [] {
      RunKeepsErrorConsistent(Apply(s, events[0]).state, events[1..]);
    }
  }

  /** With the invite on, a Continue on an empty email always fails. */
  lemma EmptyEmailBlocksInvite(s: State)
    requires s.inviteCaregivers && s.email == ""
    ensures NextStep(s).state.emailError == InvalidEmailMessage
    ensures !Navigates(NextStep(s).effects)
  {
    assert !WellFormedEmail("") by { assert IndexOf('@', "") == 0; }
  }

  /** The mounted screen: its `useState` fields and the calls it has made so far. */
  class Screen {
    var inviteCaregivers: bool
    var email: string
    var emailError: string
    var permissions: CaregiverPermissions
    var effects: seq<Effect>

    function Current(): State
      reads this
    {
      State(inviteCaregivers, email, emailError, permissions)
    }

    ghost predicate Valid()
      reads this
    {
      ErrorConsistent(Current())
    }

    constructor ()
      ensures Current() == Initial && effects == [] && Valid()
    {
      inviteCaregivers := false;
      email, emailError := "", "";
      permissions := CaregiverPermissions(true, false, false);
      effects := [];
    }

    method HandleNext()
      requires Valid()
      modifies this
      ensures Valid()
      ensures Current() == NextStep(old(Current())).state
      ensures effects == old(effects) + NextStep(old(Current())).effects
    {
      effects := effects + [Haptic(Medium)];
      if inviteCaregivers && !ValidateEmail(email) {
        emailError := InvalidEmailMessage;
        ValidateEmailCharacterisation(email);
        return;
      }
      effects := effects + [Push(CompletionRoute)];
    }

    method OnInviteChange()
      requires Valid()
      modifies this
      ensures Valid()
      ensures Current() == ToggleInviteStep(old(Current())).state
      ensures effects == old(effects) + [Haptic(Light)]
    {
      effects := effects + [Haptic(Light)];
      var wasInviting := inviteCaregivers;
      inviteCaregivers := !wasInviting;
      if !wasInviting {
        emailError := "";
      }
    }

    method OnChangeEmail(text: string)
      requires Valid()
      modifies this
      ensures Valid()
      ensures Current() == ChangeEmailStep(old(Current()), text).state
      ensures effects == old(effects)
    {
      email := text;
      if ValidateEmail(text) || text == "" {
        emailError := "";
      }
      ValidateEmailCharacterisation(text);
    }

    method TogglePermission(k: PermissionKey)
      requires Valid()
      modifies this
      ensures Valid()
      ensures Current() == TogglePermissionStep(old(Current()), k).state
      ensures effects == old(effects) + [Haptic(Light)]
    {
      effects := effects + [Haptic(Light)];
      permissions := permissions.Toggle(k);
    }

    method HandleBack()
      requires Valid()
      modifies this
      ensures Valid()
      ensures Current() == old(Current())
      ensures effects == old(effects) + BackStep(old(Current())).effects
    {
      effects := effects + [Haptic(Light)];
      effects := effects + [Back];
    }
  }
}
