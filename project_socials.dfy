/**
 * The "Project Socials" switches: the update lists each switch sends to the
 * requirements handler, the rule that a verification switch is shown only
 * while its platform is required, and the invariant this keeps on every
 * state the switches can reach: verification is only ever asked for an
 * account that is required.
 */
module ProjectSocials {
  import opened Wrappers
  import opened Requirements

  /**
   * A "required" switch set to `a`: sets `required` to `a` and clears
   * `verification` of the same platform.
   */
  function RequiredSwitch(p: Platform, a: bool): (us: seq<Update>)
    ensures |us| == 2
    ensures us[0].field == Required && us[1].field == Verification
    ensures forall k :: 0 <= k < |us| ==> us[k].platform == p
    ensures LastWrite(us, p, Required) == Some(a) && LastWrite(us, p, Verification) == Some(false)
  {
    [Update(p, Required, a), Update(p, Verification, false)]
  }

  /** A "verification" switch set to `a`: a single update of that platform's `verification`. */
  function VerificationSwitch(p: Platform, a: bool): (us: seq<Update>)
    ensures |us| == 1 && us[0].platform == p && us[0].field == Verification
    ensures LastWrite(us, p, Verification) == Some(a) && LastWrite(us, p, Required).None?
  {
    [Update(p, Verification, a)]
  }

  /**
   * The verification switch of `p` is rendered only while `p` is required;
   * in a consistent state a verification that is on can always be switched off.
   */
  predicate VerificationSwitchShown(r: ProjectRequirements, p: Platform): (shown: bool)
    ensures shown <==> Get(r, p, Required)
    ensures Consistent(r) && Get(r, p, Verification) ==> shown
  {
    Get(r, p, Required)
  }

  /** What the user can do on the rendered switches. */
  datatype SwitchEvent =
    | ToggleRequired(platform: Platform, on: bool)
    | ToggleVerification(platform: Platform, on: bool)

  /**
   * The updates a user action sends while the form shows `r`: a verification
   * switch that is not rendered cannot be used, so it sends nothing.
   */
  function Emitted(r: ProjectRequirements, e: SwitchEvent): (us: seq<Update>)
    ensures forall k :: 0 <= k < |us| ==> us[k].platform == e.platform
    ensures e.ToggleRequired? ==> us == RequiredSwitch(e.platform, e.on)
    ensures e.ToggleVerification? && VerificationSwitchShown(r, e.platform) ==> us == VerificationSwitch(e.platform, e.on)
    ensures e.ToggleVerification? && !VerificationSwitchShown(r, e.platform) ==> us == []
  {
    match e
    case ToggleRequired(p, a) => RequiredSwitch(p, a)
    case ToggleVerification(p, a) => if VerificationSwitchShown(r, p) then VerificationSwitch(p, a) else []
  }

  /** The requirements after a sequence of user actions, starting from `initialRequirements`. */
  function Run(events: seq<SwitchEvent>): ProjectRequirements
    decreases |events|
  {
    if events == [] then InitialRequirements()
    else
      var before := Run(events[..|events| - 1]);
      ApplyAll(before, Emitted(before, events[|events| - 1]))
  }

  /** For each platform, verification is asked for only when the account is required. */
  predicate Consistent(r: ProjectRequirements) {
    forall p :: Get(r, p, Verification) ==> Get(r, p, Required)
  }

  /** A switch of one platform leaves both fields of the other platform as they were. */
  lemma SwitchLeavesOtherPlatform(r: ProjectRequirements, e: SwitchEvent, f: Field)
    ensures Get(ApplyAll(r, Emitted(r, e)), Other(e.platform), f) == Get(r, Other(e.platform), f)
  {
    var us := Emitted(r, e);
    ApplyAllLastWriteWins(r, us, Other(e.platform), f);
  }

  /** The effect of a "required" switch on its own platform. */
  lemma RequiredSwitchEffect(r: ProjectRequirements, p: Platform, a: bool)
    ensures Get(ApplyAll(r, RequiredSwitch(p, a)), p, Required) == a
    ensures !Get(ApplyAll(r, RequiredSwitch(p, a)), p, Verification)
  {
    ApplyAllLastWriteWins(r, RequiredSwitch(p, a), p, Required);
    ApplyAllLastWriteWins(r, RequiredSwitch(p, a), p, Verification);
  }

  /** The effect of a "verification" switch on its own platform. */
  lemma VerificationSwitchEffect(r: ProjectRequirements, p: Platform, a: bool)
    ensures Get(ApplyAll(r, VerificationSwitch(p, a)), p, Verification) == a
    ensures Get(ApplyAll(r, VerificationSwitch(p, a)), p, Required) == Get(r, p, Required)
  {
    ApplyAllLastWriteWins(r, VerificationSwitch(p, a), p, Verification);
    ApplyAllLastWriteWins(r, VerificationSwitch(p, a), p, Required);
  }

  /** Every user action keeps the requirements consistent. */
  lemma EmittedKeepsConsistent(r: ProjectRequirements, e: SwitchEvent)
    requires Consistent(r)
    ensures Consistent(ApplyAll(r, Emitted(r, e)))
  {
    var r' := ApplyAll(r, Emitted(r, e));
    forall p | Get(r', p, Verification)
      ensures Get(r', p, Required)
    {
      if p == e.platform {
        match e
        case ToggleRequired(_, a) =>
          RequiredSwitchEffect(r, p, a);
        case ToggleVerification(_, a) =>
          if VerificationSwitchShown(r, p) {
            VerificationSwitchEffect(r, p, a);
          }
      } else {
        assert p == Other(e.platform);
        SwitchLeavesOtherPlatform(r, e, Verification);
        SwitchLeavesOtherPlatform(r, e, Required);
      }
    }
  }

  /** Every state the switches can reach from the initial requirements is consistent. */
  lemma {:induction false} ReachableIsConsistent(events: seq<SwitchEvent>)
    ensures Consistent(Run(events))
    decreases |events|
  {
    if events != [] {
      var before := Run(events[..|events| - 1]);
      ReachableIsConsistent(events[..|events| - 1]);
      EmittedKeepsConsistent(before, events[|events| - 1]);
    }
  }

  /**
   * The display rule is what keeps the invariant: the verification update
   * alone, sent while the account is not required, gives an inconsistent state.
   */
  lemma HiddenSwitchMatters(p: Platform)
    ensures !Consistent(ApplyAll(InitialRequirements(), VerificationSwitch(p, true)))
  {
    VerificationSwitchEffect(InitialRequirements(), p, true);
  }
}
