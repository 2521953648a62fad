/**
 * The `ProjectRequirements` record of the round-application step: for each
 * social platform, whether the project must supply that account and whether
 * ownership of it must be verified, together with the `[platform, field,
 * value]` updates that the switches send and the order-sensitive fold that
 * applies them.
 */
module Requirements {
  import opened Wrappers

  datatype Platform = Twitter | Github
  datatype Field = Required | Verification

  datatype SocialRequirement = SocialRequirement(required: bool, verification: bool)

  datatype ProjectRequirements = ProjectRequirements(twitter: SocialRequirement, github: SocialRequirement)

  /** One `[mainKey, subKey, value]` triple passed to the requirements handler. */
  datatype Update = Update(platform: Platform, field: Field, value: bool)

  function Other(p: Platform): Platform {
    if p == Twitter then Github else Twitter
  }

  /** `requirements[platform][field]` */
  function Get(r: ProjectRequirements, p: Platform, f: Field): bool {
    var s := if p == Twitter then r.twitter else r.github;
    if f == Required then s.required else s.verification
  }

  /** `initialRequirements`: nothing is required and nothing is verified. */
  function InitialRequirements(): (r: ProjectRequirements)
    ensures forall p, f :: !Get(r, p, f)
  {
    ProjectRequirements(SocialRequirement(false, false), SocialRequirement(false, false))
  }

  /**
   * One step of the handler's loop: the record spread
   * `{...tmp, [mainKey]: {...tmp[mainKey], [subKey]: value}}`.
   * It sets the named sub-field and leaves the other three as they were.
   */
  function Apply(r: ProjectRequirements, u: Update): (r': ProjectRequirements)
    ensures Get(r', u.platform, u.field) == u.value
    ensures forall p, f :: (p != u.platform || f != u.field) ==> Get(r', p, f) == Get(r, p, f)
  {
    var s := if u.platform == Twitter then r.twitter else r.github;
    var s' := if u.field == Required then s.(required := u.value) else s.(verification := u.value);
    if u.platform == Twitter then r.(twitter := s') else r.(github := s')
  }

  /** The updates applied one after another, in list order. */
  function ApplyAll(r: ProjectRequirements, us: seq<Update>): (r': ProjectRequirements)
    ensures us != [] ==> Get(r', us[|us| - 1].platform, us[|us| - 1].field) == us[|us| - 1].value
    ensures forall p, f :: (forall k :: 0 <= k < |us| ==> !(us[k].platform == p && us[k].field == f)) ==>
      Get(r', p, f) == Get(r, p, f)
    decreases |us|
  {
    if us == [] then r else Apply(ApplyAll(r, us[..|us| - 1]), us[|us| - 1])
  }

  /** The value of the last update in `us` that names `(p, f)`, if any. */
  function LastWrite(us: seq<Update>, p: Platform, f: Field): (w: Option<bool>)
    ensures w.Some? <==> exists k :: 0 <= k < |us| && us[k].platform == p && us[k].field == f
    ensures w.Some? ==>
      exists k :: 0 <= k < |us| && us[k].platform == p && us[k].field == f && w.value == us[k].value
        && forall j :: k < j < |us| ==> !(us[j].platform == p && us[j].field == f)
    decreases |us|
  {
    if us == [] then None
    else
      var n := |us| - 1;
      if us[n].platform == p && us[n].field == f then
        Some(us[n].value)
      else
        var init := us[..n];
        var w := LastWrite(init, p, f);
        assert forall k :: 0 <= k < n ==> init[k] == us[k];
        if w.Some? then
          var k :| 0 <= k < n && init[k].platform == p && init[k].field == f && w.value == init[k].value
            && forall j :: k < j < n ==> !(init[j].platform == p && init[j].field == f);
          assert forall j :: k < j < |us| ==> !(us[j].platform == p && us[j].field == f);
          w
        else
          w
  }

  /**
   * After folding `us`, every sub-field holds the value of the LAST update
   * that names it, and a sub-field that no update names keeps its old value.
   */
  lemma {:induction false} ApplyAllLastWriteWins(r: ProjectRequirements, us: seq<Update>, p: Platform, f: Field)
    ensures Get(ApplyAll(r, us), p, f) == LastWrite(us, p, f).GetOr(Get(r, p, f))
    decreases |us|
  {
    if us != [] {
      ApplyAllLastWriteWins(r, us[..|us| - 1], p, f);
    }
  }

  /** Folding two lists one after the other is folding their concatenation. */
  lemma {:induction false} ApplyAllConcat(r: ProjectRequirements, a: seq<Update>, b: seq<Update>)
    ensures ApplyAll(ApplyAll(r, a), b) == ApplyAll(r, a + b)
    decreases |b|
  {
    if b != [] {
      assert (a + b)[..|a + b| - 1] == a + b[..|b| - 1];
      ApplyAllConcat(r, a, b[..|b| - 1]);
    } else {
      assert a + b == a;
    }
  }
}
