/**
 * The last step of the round-creation wizard: the rules that turn the five
 * creation statuses (metadata storage, three contract deployments, subgraph
 * indexing) into the redirect, the error modal, the "Next" flag and the
 * progress list, the heads-up gate in front of `createRound`, and the
 * handler that folds switch updates into the project requirements.
 */
module RoundApplicationForm {
  import opened Wrappers
  import opened Requirements
  import ApplicationQuestions

  datatype ProgressStatus = NotStarted | InProgress | IsSuccess | IsError

  /** The five statuses reported while a round is created. */
  datatype CreationStatuses = CreationStatuses(
    ipfs: ProgressStatus,
    voting: ProgressStatus,
    payout: ProgressStatus,
    round: ProgressStatus,
    indexing: ProgressStatus)

  /** The statuses in the order the progress modal lists them. */
  function InOrder(s: CreationStatuses): seq<ProgressStatus> {
    [s.ipfs, s.voting, s.payout, s.round, s.indexing]
  }

  /** Delay, in milliseconds, before redirecting once everything succeeded. */
  const SuccessRedirectMs: nat := 2000
  /** Delay, in milliseconds, before redirecting after an indexing error. */
  const IndexingErrorRedirectMs: nat := 5000

  /** What the two effects schedule for a given set of statuses. */
  datatype Effects = Effects(redirectAfterMs: seq<nat>, errorModal: bool)

  /**
   * The two `useEffect` bodies: a redirect to the program page after 2000 ms
   * when every status succeeded; the (delayed) error modal when storage or a
   * deployment failed; a redirect after 5000 ms when indexing failed.
   */
  function ScheduledEffects(s: CreationStatuses): (e: Effects)
    ensures (SuccessRedirectMs in e.redirectAfterMs) <==> forall i :: 0 <= i < 5 ==> InOrder(s)[i] == IsSuccess
    ensures (IndexingErrorRedirectMs in e.redirectAfterMs) <==> s.indexing == IsError
    ensures e.errorModal <==> exists i :: 0 <= i < 4 && InOrder(s)[i] == IsError
    ensures |e.redirectAfterMs| <= 1
    ensures forall d :: d in e.redirectAfterMs ==> d == SuccessRedirectMs || d == IndexingErrorRedirectMs
  {
    var allSuccess := s.ipfs == IsSuccess && s.voting == IsSuccess && s.payout == IsSuccess
      && s.round == IsSuccess && s.indexing == IsSuccess;
    var deployFailed := s.ipfs == IsError || s.voting == IsError || s.payout == IsError || s.round == IsError;
    assert deployFailed ==> (InOrder(s)[0] == IsError || InOrder(s)[1] == IsError
      || InOrder(s)[2] == IsError || InOrder(s)[3] == IsError);
    assert allSuccess <==> InOrder(s) == [IsSuccess, IsSuccess, IsSuccess, IsSuccess, IsSuccess];
    Effects(
      (if allSuccess then [SuccessRedirectMs] else []) + (if s.indexing == IsError then [IndexingErrorRedirectMs] else []),
      deployFailed)
  }

  /** An indexing failure on its own redirects and does not open the error modal. */
  lemma IndexingErrorOnlyRedirects(s: CreationStatuses)
    requires s.indexing == IsError
    requires forall i :: 0 <= i < 4 ==> InOrder(s)[i] != IsError
    ensures ScheduledEffects(s) == Effects([IndexingErrorRedirectMs], false)
  {
    var e := ScheduledEffects(s);
    assert !(InOrder(s)[4] == IsSuccess);
    assert SuccessRedirectMs !in e.redirectAfterMs;
  }

  /** One row of the progress modal. */
  datatype ProgressStep = ProgressStep(name: string, description: string, status: ProgressStatus)

  /**
   * `progressSteps`: six rows in fixed order; the first five show the five
   * statuses, the sixth ("Redirecting") is in progress exactly while the
   * indexing has succeeded.
   */
  function ProgressSteps(s: CreationStatuses): (steps: seq<ProgressStep>)
    ensures |steps| == 6
    ensures forall i :: 0 <= i < 5 ==> steps[i].status == InOrder(s)[i]
    ensures steps[0].name == "Storing" && steps[4].name == "Indexing" && steps[5].name == "Redirecting"
    ensures forall i :: 1 <= i < 4 ==> steps[i].name == "Deploying"
    ensures steps[5].status == (if s.indexing == IsSuccess then InProgress else NotStarted)
  {
    [
      ProgressStep("Storing", "The metadata is being saved in a safe place.", s.ipfs),
      ProgressStep("Deploying", "The quadratic funding contract is being deployed.", s.voting),
      ProgressStep("Deploying", "The payout contract is being deployed.", s.payout),
      ProgressStep("Deploying", "The round contract is being deployed.", s.round),
      ProgressStep("Indexing", "The subgraph is indexing the data.", s.indexing),
      ProgressStep("Redirecting", "Just another moment while we finish things up.",
        if s.indexing == IsSuccess then InProgress else NotStarted)
    ]
  }

  /**
   * `disableNext`: some status is in progress, indexing has already
   * succeeded, or there is no program.
   */
  function DisableNext(s: CreationStatuses, hasProgram: bool): (disabled: bool)
    ensures disabled <==> (!hasProgram || s.indexing == IsSuccess
      || exists i :: 0 <= i < 5 && InOrder(s)[i] == InProgress)
  {
    var busy := s.ipfs == InProgress || s.voting == InProgress || s.payout == InProgress
      || s.round == InProgress || s.indexing == InProgress;
    assert busy ==> (InOrder(s)[0] == InProgress || InOrder(s)[1] == InProgress
      || InOrder(s)[2] == InProgress || InOrder(s)[3] == InProgress || InOrder(s)[4] == InProgress);
    busy || s.indexing == IsSuccess || !hasProgram
  }

  /**
   * "Next" is disabled exactly when there is no program or some row of the
   * progress modal (the "Redirecting" row included) shows "in progress".
   */
  lemma DisableNextIffProgressShowsWork(s: CreationStatuses, hasProgram: bool)
    ensures DisableNext(s, hasProgram) <==>
      !hasProgram || exists i :: 0 <= i < 6 && ProgressSteps(s)[i].status == InProgress
  {
    var steps := ProgressSteps(s);
    if exists i :: 0 <= i < 6 && steps[i].status == InProgress {
      var i :| 0 <= i < 6 && steps[i].status == InProgress;
      if i < 5 {
        assert InOrder(s)[i] == InProgress;
      }
    }
    if exists i :: 0 <= i < 5 && InOrder(s)[i] == InProgress {
      var i :| 0 <= i < 5 && InOrder(s)[i] == InProgress;
      assert steps[i].status == InProgress;
    }
    if s.indexing == IsSuccess {
      assert steps[5].status == InProgress;
    }
  }

  /**
   * Once the success redirect is scheduled the error modal is not, and
   * "Next" stays disabled, so the round cannot be submitted a second time.
   */
  lemma SuccessExcludesErrorAndResubmit(s: CreationStatuses, hasProgram: bool)
    requires SuccessRedirectMs in ScheduledEffects(s).redirectAfterMs
    ensures !ScheduledEffects(s).errorModal
    ensures ScheduledEffects(s).redirectAfterMs == [SuccessRedirectMs]
    ensures DisableNext(s, hasProgram)
  {
    var e := ScheduledEffects(s);
    assert forall i :: 0 <= i < 5 ==> InOrder(s)[i] == IsSuccess;
    assert InOrder(s)[4] == IsSuccess;
  }

  /**
   * `formData?.applicationMetadata?.questions ?? initialQuestions`: the saved
   * questions when there are any (an empty saved list included), the default
   * questions otherwise.
   */
  function DefaultQuestions(saved: Option<seq<ApplicationQuestions.SchemaQuestion>>): (qs: seq<ApplicationQuestions.SchemaQuestion>)
    ensures saved.Some? ==> qs == saved.value
    ensures saved.None? ==> qs == ApplicationQuestions.InitialQuestions()
  {
    saved.GetOr(ApplicationQuestions.InitialQuestions())
  }

  /** The component's own state. */
  class RoundApplicationFormState {
    var openHeadsUpModal: bool
    var openProgressModal: bool
    var openErrorModal: bool
    var projectRequirements: ProjectRequirements

    constructor ()
      ensures !openHeadsUpModal && !openProgressModal && !openErrorModal
      ensures projectRequirements == InitialRequirements()
    {
      openHeadsUpModal, openProgressModal, openErrorModal := false, false, false;
      projectRequirements := InitialRequirements();
    }

    /**
     * `projectRequirementsHandler`: folds the updates over a copy of the
     * current requirements, in list order, then stores the result.
     */
    method ProjectRequirementsHandler(data: seq<Update>)
      modifies this`projectRequirements
      ensures projectRequirements == ApplyAll(old(projectRequirements), data)
      ensures forall p, f :: Get(projectRequirements, p, f) == LastWrite(data, p, f).GetOr(Get(old(projectRequirements), p, f))
    {
      var tmpRequirements := projectRequirements;
      var i := 0;
      while i < |data|
        invariant 0 <= i <= |data|
        invariant tmpRequirements == ApplyAll(projectRequirements, data[..i])
      {
        assert data[..i + 1][..i] == data[..i];
        tmpRequirements := Apply(tmpRequirements, data[i]);
        i := i + 1;
      }
      assert data[..i] == data;
      forall p, f
        ensures Get(tmpRequirements, p, f) == LastWrite(data, p, f).GetOr(Get(projectRequirements, p, f))
      {
        ApplyAllLastWriteWins(projectRequirements, data, p, f);
      }
      projectRequirements := tmpRequirements;
    }

    /**
     * `next`: a submit while the heads-up modal is closed only opens it; a
     * submit while it is open shows the progress modal and calls
     * `createRound`, which is reported by `createRoundCalled`.
     */
    method Next() returns (createRoundCalled: bool)
      modifies this`openHeadsUpModal, this`openProgressModal
      ensures createRoundCalled <==> old(openHeadsUpModal)
      ensures openHeadsUpModal
      ensures openProgressModal == (old(openProgressModal) || old(openHeadsUpModal))
    {
      if !openHeadsUpModal {
        openHeadsUpModal := true;
        return false;
      }
      openProgressModal := true;
      createRoundCalled := true;
    }

    /**
     * The error effect: once storage or a deployment has failed, the error
     * modal is opened (after a delay this model does not keep); otherwise
     * the modal stays as it was.
     */
    method OpenErrorModalOnFailure(s: CreationStatuses)
      modifies this`openErrorModal
      ensures openErrorModal == (old(openErrorModal) || exists i :: 0 <= i < 4 && InOrder(s)[i] == IsError)
    {
      if ScheduledEffects(s).errorModal {
        openErrorModal := true;
      }
    }

    /** The error modal's "done" action closes all three modals. */
    method ErrorModalDone()
      modifies this`openHeadsUpModal, this`openProgressModal, this`openErrorModal
      ensures !openHeadsUpModal && !openProgressModal && !openErrorModal
    {
      openErrorModal := false;
      openProgressModal := false;
      openHeadsUpModal := false;
    }
  }
}
