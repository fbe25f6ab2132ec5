// The profile screen (step 1 of 4): a name field gated on `name.trim()`.

module ProfileSetupScreen {
  import opened Effects
  import opened Routes
  import opened Whitespace

  const NameRequiredMessage := "Please enter your name"
  const ImagePickerMessage := "This feature will be implemented soon!"

  /** The screen's `useState` values. */
  datatype State = State(name: string, nameError: string)

  /** What a handler leaves behind: the next state and the calls it made, in order. */
  datatype Step = Step(state: State, effects: seq<Effect>)

  /** Both fields start empty. */
  const Initial := State("", "")

  /** The gate of handleNext: `name.trim()` is a non-empty, so truthy, string. */
  predicate CanContinue(s: State) {
    Trim(s.name) != ""
  }

  /**
   * handleNext. A name that is only white space sets the error and does
   * nothing else, not even a haptic; any other name keeps the state and emits
   * a Medium haptic followed by the push to the permissions screen.
   */
  function NextStep(s: State): (r: Step)
    ensures r.state.name == s.name
    ensures IsBlank(s.name) ==> r.state.nameError == NameRequiredMessage && r.effects == []
    ensures !IsBlank(s.name) ==> r.state == s && r.effects == [Haptic(Medium), Push(PermissionsRoute)]
  {
    if !CanContinue(s) then Step(s.(nameError := NameRequiredMessage), [])
    else Step(s, [Haptic(Medium), Push(PermissionsRoute)])
  }

  /** handleBack: a Light haptic, then back; the state is kept. */
  function BackStep(s: State): (r: Step)
    ensures r.state == s && r.effects == [Haptic(Light), Back]
  {
    Step(s, [Haptic(Light), Back])
  }

  /** handleSelectImage: a Light haptic and a "coming soon" alert; the state is kept. */
  function SelectImageStep(s: State): (r: Step)
    ensures r.state == s && !Navigates(r.effects)
    ensures r.effects == [Haptic(Light), Alert(ImagePickerMessage)]
  {
    Step(s, [Haptic(Light), Alert(ImagePickerMessage)])
  }

  /**
   * The name field's onChangeText: the name becomes the new text, and the
   * error is cleared exactly when the new text is not blank; it is never set.
   */
  function ChangeNameStep(s: State, text: string): (r: Step)
    ensures r.state.name == text && r.effects == []
    ensures r.state.nameError == (if IsBlank(text) then s.nameError else "")
  {
    Step(State(text, if Trim(text) != "" then "" else s.nameError), [])
  }

  /**
   * What the screen promises about its error line: it is either empty or the
   * "enter your name" message, and the message stands only beside a blank name.
   */
  predicate ErrorConsistent(s: State) {
    s.nameError == "" || (s.nameError == NameRequiredMessage && IsBlank(s.name))
  }

  /** The user's actions on this screen. */
  datatype Event = Continue | EditName(text: string) | SelectImage | GoBack

  function Apply(s: State, e: Event): (r: Step)
    ensures ErrorConsistent(s) ==> ErrorConsistent(r.state)
  {
    match e
    case Continue => NextStep(s)
    case EditName(text) => ChangeNameStep(s, text)
    case SelectImage => SelectImageStep(s)
    case GoBack => BackStep(s)
  }

  /** A sequence of actions, with the effects of each appended in order. */
  function Run(s: State, events: seq<Event>): Step
    decreases |events|
  {
    if events == [] then Step(s, [])
    else
      var first := Apply(s, events[0]);
      var rest := Run(first.state, events[1..]);
      Step(rest.state, first.effects + rest.effects)
  }

  /** Whatever the user does from a consistent state, the error line stays consistent. */
  lemma {:induction false} RunKeepsErrorConsistent(s: State, events: seq<Event>)
    requires ErrorConsistent(s)
    ensures ErrorConsistent(Run(s, events).state)
    decreases |events|
  {
    if events != [] {
      RunKeepsErrorConsistent(Apply(s, events[0]).state, events[1..]);
    }
  }

  /** The screen opens consistent, and a Continue right away fails on the empty name. */
  lemma InitialContinueFails()
    ensures ErrorConsistent(Initial)
    ensures NextStep(Initial) == Step(State("", NameRequiredMessage), [])
  {
  }

  /** White space around the name never changes what Continue does. */
  lemma ContinueIgnoresPadding(s: State, w1: string, w2: string)
    requires IsBlank(w1) && IsBlank(w2)
    ensures NextStep(s.(name := w1 + s.name + w2)).effects == NextStep(s).effects
    ensures NextStep(s.(name := w1 + s.name + w2)).state.nameError == NextStep(s).state.nameError
  {
    TrimIgnoresPadding(w1, s.name, w2);
  }

  /** The mounted screen: its `useState` fields and the calls it has made so far. */
  class Screen {
    var name: string
    var nameError: string
    var effects: seq<Effect>

    function Current(): State
      reads this
    {
      State(name, nameError)
    }

    ghost predicate Valid()
      reads this
    {
      ErrorConsistent(Current())
    }

    constructor ()
      ensures Current() == Initial && effects == [] && Valid()
    {
      name, nameError := "", "";
      effects := [];
    }

    method HandleNext()
      requires Valid()
      modifies this
      ensures Valid()
      ensures Current() == NextStep(old(Current())).state
      ensures effects == old(effects) + NextStep(old(Current())).effects
    {
      if Trim(name) == "" {
        nameError := NameRequiredMessage;
        return;
      }
      effects := effects + [Haptic(Medium)];
      effects := effects + [Push(PermissionsRoute)];
    }

    method HandleBack()
      requires Valid()
      modifies this
      ensures Valid()
      ensures Current() == old(Current())
      ensures effects == old(effects) + BackStep(old(Current())).effects
    {
      effects := effects + [Haptic(Light)];
      effects := effects + [Back];
    }

    method HandleSelectImage()
      requires Valid()
      modifies this
      ensures Valid()
      ensures Current() == old(Current())
      ensures effects == old(effects) + SelectImageStep(old(Current())).effects
    {
      effects := effects + [Haptic(Light)];
      effects := effects + [Alert(ImagePickerMessage)];
    }

    method OnChangeName(text: string)
      requires Valid()
      modifies this
      ensures Valid()
      ensures Current() == ChangeNameStep(old(Current()), text).state
      ensures effects == old(effects)
    {
      name := text;
      if Trim(text) != "" {
        nameError := "";
      }
    }
  }
}
