/**
  The `Seed` link of the CI pipeline-creation chain.

  `Perform` takes a pipeline that earlier links have built and prepares it for
  persistence: it allocates the project-scoped iid, attaches the CI ref, copies
  the ref's protection, lets the caller's seeds block populate the pipeline, and
  then either records the seed graph's configuration errors on the pipeline or
  hands the seed graph to the command for the later links. `Break` tells the
  chain to stop once the pipeline carries an error.

  The collaborators that are not part of this model enter as inputs: the iid the
  allocator would hand out and the CI ref record are parameters of `Perform`,
  the feature flag is a boolean parameter, and the seed graph builder is the
  function `seedErrors` the link is created with.
 */
module CiPipelineChainSeed {
  import opened Wrappers
  import Strings

  /** The `Ci::Ref` record of the pipeline's ref. */
  datatype CiRef = CiRef(ref: string)

  /** One entry of the YAML processor's `stages_attributes`, passed through untouched. */
  datatype StageAttributes = StageAttributes(name: string, index: nat)

  /** The part of the YAML processor result that this link reads. */
  datatype YamlProcessorResult = YamlProcessorResult(stagesAttributes: seq<StageAttributes>)

  /** An entry of the pipeline's error list, with the `config_error:` flag it was recorded with. */
  datatype PipelineError = PipelineError(message: string, configError: bool)

  /** The pipeline's fields at one moment, as a value. */
  datatype PipelineView = PipelineView(
    iid: Option<nat>,
    ciRef: Option<CiRef>,
    protected: bool,
    errors: seq<PipelineError>)

  /** What `perform!` ends with: normal return, or the `ArgumentError` it raises. */
  datatype Outcome = Done | ArgumentError(message: string)

  const MissingYamlResult := "missing YAML processor result"

  /** The separator the seed graph's error strings are joined with. */
  const ErrorSeparator := "\n"

  /** The pipeline under construction. */
  class Pipeline {
    var iid: Option<nat>
    var ciRef: Option<CiRef>
    var protected: bool
    var errors: seq<PipelineError>

    constructor ()
      ensures iid == None && ciRef == None && !protected && errors == []
    {
      iid, ciRef, protected, errors := None, None, false, [];
    }

    function View(): PipelineView
      reads this
    {
      PipelineView(iid, ciRef, protected, errors)
    }

    /** `ensure_project_iid!`: takes the next iid only when the pipeline has none yet. */
    method EnsureProjectIid(nextIid: nat)
      modifies this`iid
      ensures iid.Some?
      ensures old(iid).Some? ==> iid == old(iid)
      ensures old(iid).None? ==> iid == Some(nextIid)
    {
      if iid.None? {
        iid := Some(nextIid);
      }
    }

    /** `ensure_ci_ref!`: attaches the ref record only when the pipeline has none yet. */
    method EnsureCiRef(r: CiRef)
      modifies this`ciRef
      ensures ciRef.Some?
      ensures old(ciRef).Some? ==> ciRef == old(ciRef)
      ensures old(ciRef).None? ==> ciRef == Some(r)
    {
      if ciRef.None? {
        ciRef := Some(r);
      }
    }
  }

  /**
    The block passed to `CreatePipelineService#execute`. What it does to the pipeline
    is the caller's business and is not modelled; each call records the pipeline object it
    was handed and that pipeline's state at the time.
   */
  class SeedsBlock {
    var calls: seq<(Pipeline, PipelineView)>

    constructor ()
      ensures calls == []
    {
      calls := [];
    }

    method Call(pipeline: Pipeline)
      modifies this
      ensures calls == old(calls) + [(pipeline, pipeline.View())]
    {
      calls := calls + [(pipeline, pipeline.View())];
    }
  }

  /**
    `Gitlab::Ci::Pipeline::Seed::Pipeline`: the stage/job seed graph, with the errors
    its construction reported (`None` is Ruby's nil: no errors).
   */
  class PipelineSeed {
    const builtFrom: PipelineView
    const stagesAttributes: seq<StageAttributes>
    const errors: Option<seq<string>>

    constructor (pipeline: PipelineView, stagesAttributes: seq<StageAttributes>, errors: Option<seq<string>>)
      ensures this.builtFrom == pipeline
      ensures this.stagesAttributes == stagesAttributes
      ensures this.errors == errors
    {
      this.builtFrom := pipeline;
      this.stagesAttributes := stagesAttributes;
      this.errors := errors;
    }
  }

  /** The chain's shared command; this link writes only `pipelineSeed`. */
  class Command {
    const yamlProcessorResult: Option<YamlProcessorResult>
    /** `protected_ref?` */
    const protectedRef: bool
    /** `seeds_block`, nil when the caller passed none */
    const seedsBlock: SeedsBlock?
    var pipelineSeed: PipelineSeed?

    constructor (yamlProcessorResult: Option<YamlProcessorResult>, protectedRef: bool, seedsBlock: SeedsBlock?)
      ensures this.yamlProcessorResult == yamlProcessorResult
      ensures this.protectedRef == protectedRef
      ensures this.seedsBlock == seedsBlock
      ensures pipelineSeed == null
    {
      this.yamlProcessorResult := yamlProcessorResult;
      this.protectedRef := protectedRef;
      this.seedsBlock := seedsBlock;
      pipelineSeed := null;
    }
  }

  /** The `Seed` chain link. */
  class Seed {
    const pipeline: Pipeline
    const command: Command
    /** The errors `Seed::Pipeline.new(pipeline, stages_attributes)` reports. */
    const seedErrors: (PipelineView, seq<StageAttributes>) -> Option<seq<string>>
    /** The `strong_memoize(:pipeline_seed)` slot. */
    var memo: PipelineSeed?
    /** How many seed graphs this link has constructed. */
    ghost var builds: nat

    /** The seed graph is built at most once, is cached from then on, and carries the
        errors its construction reported. */
    ghost predicate Valid()
      reads this
    {
      && builds <= 1
      && (memo == null <==> builds == 0)
      && (memo != null ==> memo.errors == seedErrors(memo.builtFrom, memo.stagesAttributes))
    }

    constructor (pipeline: Pipeline, command: Command, seedErrors: (PipelineView, seq<StageAttributes>) -> Option<seq<string>>)
      ensures Valid()
      ensures this.pipeline == pipeline && this.command == command && this.seedErrors == seedErrors
      ensures memo == null
    {
      this.pipeline := pipeline;
      this.command := command;
      this.seedErrors := seedErrors;
      memo := null;
      builds := 0;
    }

    /** `break?`: the chain stops once the pipeline has recorded an error. */
    function Break(): (stop: bool)
      reads this, pipeline
      ensures stop <==> |pipeline.errors| > 0
    {
      pipeline.errors != []
    }

    /** `Chain::Helpers#error`: appends the message to the pipeline's errors. */
    method Error(message: string, configError: bool)
      modifies pipeline`errors
      ensures pipeline.errors == old(pipeline.errors) + [PipelineError(message, configError)]
    {
      pipeline.errors := pipeline.errors + [PipelineError(message, configError)];
    }

    /** The memoised `pipeline_seed`: built from the current pipeline and the stages
        attributes on first use, the same object on every later use. */
    method GetPipelineSeed() returns (s: PipelineSeed)
      requires Valid()
      requires memo != null || command.yamlProcessorResult.Some?
      modifies this`memo, this`builds
      ensures Valid() && memo == s
      ensures old(memo) != null ==> s == old(memo) && builds == old(builds)
      ensures old(memo) == null ==>
        && fresh(s)
        && builds == old(builds) + 1
        && s.builtFrom == pipeline.View()
        && s.stagesAttributes == command.yamlProcessorResult.value.stagesAttributes
        && s.errors == seedErrors(pipeline.View(), s.stagesAttributes)
    {
      if memo == null {
        var stagesAttributes := command.yamlProcessorResult.value.stagesAttributes;
        memo := new PipelineSeed(pipeline.View(), stagesAttributes, seedErrors(pipeline.View(), stagesAttributes));
        builds := builds + 1;
      }
      s := memo;
    }

    /**
      `perform!`. `seedBlockRunBeforeWorkflowRules` is the project's feature flag of
      that name; `allocatedIid` is the iid the allocator would hand out and `ciRef`
      the ref record `ensure_ci_ref!` would attach.
     */
    method Perform(seedBlockRunBeforeWorkflowRules: bool, allocatedIid: nat, ciRef: CiRef) returns (outcome: Outcome)
      requires Valid()
      modifies pipeline, command`pipelineSeed, this`memo, this`builds, command.seedsBlock
      ensures Valid()
      // A missing YAML processor result raises before anything is touched.
      ensures command.yamlProcessorResult.None? ==>
        && outcome == ArgumentError(MissingYamlResult)
        && unchanged(pipeline) && unchanged(command) && unchanged(this)
        && (command.seedsBlock != null ==> unchanged(command.seedsBlock))
      ensures command.yamlProcessorResult.Some? ==> outcome == Done
      // iid and ref are set-if-absent; protection follows the command, on both paths below.
      ensures command.yamlProcessorResult.Some? ==>
        && pipeline.iid == (if old(pipeline.iid).Some? then old(pipeline.iid) else Some(allocatedIid))
        && pipeline.ciRef == (if old(pipeline.ciRef).Some? then old(pipeline.ciRef) else Some(ciRef))
        && pipeline.protected == command.protectedRef
      // The seeds block runs once, with the pipeline as prepared above, unless the flag
      // moves it before the workflow rules.
      ensures command.yamlProcessorResult.Some? && command.seedsBlock != null ==>
        command.seedsBlock.calls ==
          old(command.seedsBlock.calls) +
          (if seedBlockRunBeforeWorkflowRules then []
           else [(pipeline, PipelineView(pipeline.iid, pipeline.ciRef, pipeline.protected, old(pipeline.errors)))])
      // The seed graph is built once per link, from the prepared pipeline.
      ensures command.yamlProcessorResult.Some? ==>
        && memo != null
        && memo.errors == seedErrors(memo.builtFrom, memo.stagesAttributes)
        && (old(memo) != null ==> memo == old(memo))
        && (old(memo) == null ==>
              && fresh(memo)
              && memo.stagesAttributes == command.yamlProcessorResult.value.stagesAttributes
              && memo.builtFrom == PipelineView(pipeline.iid, pipeline.ciRef, pipeline.protected, old(pipeline.errors)))
      // Errors: one joined configuration error, the seed is not handed over, the chain breaks.
      ensures command.yamlProcessorResult.Some? && memo.errors.Some? ==>
        && pipeline.errors == old(pipeline.errors) + [PipelineError(Strings.Join(memo.errors.value, ErrorSeparator), true)]
        && command.pipelineSeed == old(command.pipelineSeed)
        && Break()
      // No errors: the seed is handed to the command and the error list is untouched.
      ensures command.yamlProcessorResult.Some? && memo.errors.None? ==>
        && pipeline.errors == old(pipeline.errors)
        && command.pipelineSeed == memo
    {
      if command.yamlProcessorResult.None? {
        return ArgumentError(MissingYamlResult);
      }
      outcome := Done;

      pipeline.EnsureProjectIid(allocatedIid);
      pipeline.EnsureCiRef(ciRef);

      pipeline.protected := command.protectedRef;
      ghost var prepared := pipeline.View();
      assert prepared == PipelineView(pipeline.iid, pipeline.ciRef, command.protectedRef, old(pipeline.errors));

      if !seedBlockRunBeforeWorkflowRules && command.seedsBlock != null {
        command.seedsBlock.Call(pipeline);
      }

      assert pipeline.View() == prepared;
      var seed := GetPipelineSeed();
      if seed.errors.Some? {
        Error(Strings.Join(seed.errors.value, ErrorSeparator), true);
        return;
      }

      command.pipelineSeed := seed;
    }
  }
}
