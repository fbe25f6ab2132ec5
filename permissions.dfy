// The permissions screen (step 2 of 4): three switches, two of them required
// before Continue leads on.

module PermissionsScreen {
  import opened Effects
  import opened Routes

  /** An entry of `permissionsList` (its icon is presentational and left out). */
  datatype Permission = Permission(id: string, title: string, description: string, required: bool)

  const Microphone := "microphone"
  const Notifications := "notifications"
  const Camera := "camera"

  const PermissionsList: seq<Permission> := [
    Permission(Microphone, "Microphone Access", "Required for voice recording your memories", true),
    Permission(Notifications, "Notifications", "For memory check-ins and important reminders", true),
    Permission(Camera, "Camera Access", "Optional for adding photos to your memories", false)
  ]

  const GrantRequiredMessage := "Please grant all required permissions to continue."

  /** The `permissions` record: a string-keyed map of switch values. */
  type Grants = map<string, bool>

  /** Every switch starts off. */
  const Initial: Grants := map[Microphone := false, Notifications := false, Camera := false]

  /** `permissions[id]` is truthy; a key the map lacks reads as `undefined`, which is not. */
  predicate Granted(g: Grants, id: string) {
    id in g && g[id]
  }

  /** `list.filter(p => p.required)`: the required entries, in their order. */
  function Required(list: seq<Permission>): (r: seq<Permission>)
    ensures |r| <= |list|
    ensures forall p :: p in r <==> p in list && p.required
  {
    if list == [] then []
    else if list[0].required then [list[0]] + Required(list[1..])
    else Required(list[1..])
  }

  /** `list.filter(p => p.required).every(p => permissions[p.id])`. */
  predicate AllRequiredGranted(list: seq<Permission>, g: Grants) {
    forall p :: p in Required(list) ==> Granted(g, p.id)
  }

  /** The required entries of the screen's list are the microphone and the notifications. */
  lemma RequiredIds()
    ensures Required(PermissionsList) == [PermissionsList[0], PermissionsList[1]]
    ensures (set p | p in Required(PermissionsList) :: p.id) == {Microphone, Notifications}
  {
    var list := PermissionsList;
    assert list[1..][1..][1..] == [];
    assert Required(list[1..][1..]) == [];
    assert Required(list[1..]) == [list[1]];
  }

  /** The gate holds exactly when microphone and notifications are both on. */
  lemma GateCharacterisation(g: Grants)
    ensures AllRequiredGranted(PermissionsList, g) <==> Granted(g, Microphone) && Granted(g, Notifications)
  {
    RequiredIds();
    assert PermissionsList[0] in Required(PermissionsList);
    assert PermissionsList[1] in Required(PermissionsList);
  }

  /** The camera switch never affects the gate. */
  lemma GateIgnoresCamera(g: Grants, on: bool)
    ensures AllRequiredGranted(PermissionsList, g[Camera := on]) == AllRequiredGranted(PermissionsList, g)
  {
    GateCharacterisation(g);
    GateCharacterisation(g[Camera := on]);
  }

  /** What a handler leaves behind: the next switch values and the calls it made, in order. */
  datatype Step = Step(grants: Grants, effects: seq<Effect>)

  /** The render-time rule `disabled={!allRequiredGranted}` on the Continue button. */
  predicate ContinueDisabled(g: Grants) {
    !AllRequiredGranted(PermissionsList, g)
  }

  /**
   * handleNext: a Medium haptic comes first whatever happens; then an alert
   * when a required permission is off, and otherwise the push to the caregiver
   * screen. The switches are not touched.
   */
  function NextStep(g: Grants): (r: Step)
    ensures r.grants == g
    ensures |r.effects| == 2 && r.effects[0] == Haptic(Medium)
    ensures r.effects[1] ==
      if Granted(g, Microphone) && Granted(g, Notifications) then Push(CaregiverSetupRoute)
      else Alert(GrantRequiredMessage)
  {
    GateCharacterisation(g);
    var requiredPermissionsGranted := AllRequiredGranted(PermissionsList, g);
    if !requiredPermissionsGranted then Step(g, [Haptic(Medium), Alert(GrantRequiredMessage)])
    else Step(g, [Haptic(Medium), Push(CaregiverSetupRoute)])
  }

  /** The button is disabled exactly when handleNext would alert instead of navigating. */
  lemma DisabledExactlyWhenNextAlerts(g: Grants)
    ensures ContinueDisabled(g) <==> !Navigates(NextStep(g).effects)
    ensures ContinueDisabled(g) <==> Alert(GrantRequiredMessage) in NextStep(g).effects
  {
    GateCharacterisation(g);
    var e := NextStep(g).effects;
    assert !e[0].IsNavigation();
    if !ContinueDisabled(g) { assert e[1].IsNavigation(); }
  }

  /** Every switch starts off, so Continue starts disabled. */
  lemma InitiallyDisabled()
    ensures Initial.Keys == {Microphone, Notifications, Camera}
    ensures ContinueDisabled(Initial)
  {
    GateCharacterisation(Initial);
  }

  /**
   * togglePermission(id): a Light haptic, and the value at `id` negated; a key
   * the map lacked is read as off and so added as on. No other key changes.
   */
  function ToggleStep(g: Grants, id: string): (r: Step)
    ensures r.effects == [Haptic(Light)]
    ensures r.grants.Keys == g.Keys + {id}
    ensures Granted(r.grants, id) == !Granted(g, id)
    ensures forall k :: k in g && k != id ==> r.grants[k] == g[k]
  {
    Step(g[id := !Granted(g, id)], [Haptic(Light)])
  }

  /** Toggling a key of the map twice restores the map. */
  lemma ToggleInvolution(g: Grants, id: string)
    requires id in g
    ensures ToggleStep(ToggleStep(g, id).grants, id).grants == g
  {
  }

  /**
   * The switches only ever toggle the ids of the list, and those are keys of
   * the map from the start: toggling them never adds or removes a key.
   */
  lemma ScreenTogglesStayInMap(g: Grants, i: int)
    requires g.Keys == Initial.Keys && 0 <= i < |PermissionsList|
    ensures PermissionsList[i].id in g
    ensures ToggleStep(g, PermissionsList[i].id).grants.Keys == Initial.Keys
  {
  }

  /** handleBack: a Light haptic, then back. */
  function BackStep(g: Grants): (r: Step)
    ensures r.grants == g && r.effects == [Haptic(Light), Back]
  {
    Step(g, [Haptic(Light), Back])
  }

  /** The mounted screen: its `permissions` state and the calls it has made so far. */
  class Screen {
    var permissions: Grants
    var effects: seq<Effect>

    constructor ()
      ensures permissions == Initial && effects == []
    {
      permissions := Initial;
      effects := [];
    }

    method HandleNext()
      modifies this
      ensures permissions == old(permissions)
      ensures effects == old(effects) + NextStep(old(permissions)).effects
    {
      effects := effects + [Haptic(Medium)];
      var requiredPermissionsGranted := AllRequiredGranted(PermissionsList, permissions);
      if !requiredPermissionsGranted {
        effects := effects + [Alert(GrantRequiredMessage)];
        return;
      }
      effects := effects + [Push(CaregiverSetupRoute)];
    }

    method TogglePermission(id: string)
      modifies this
      ensures permissions == ToggleStep(old(permissions), id).grants
      ensures effects == old(effects) + [Haptic(Light)]
    {
      effects := effects + [Haptic(Light)];
      permissions := permissions[id := !Granted(permissions, id)];
    }

    method HandleBack()
      modifies this
      ensures permissions == old(permissions)
      ensures effects == old(effects) + BackStep(old(permissions)).effects
    {
      effects := effects + [Haptic(Light)];
      effects := effects + [Back];
    }
  }
}
