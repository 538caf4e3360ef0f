/** The `step` decorator. Decorating a step function creates one
    `PipelineStep` record; every call of the decorated function writes its
    inputs, outputs and transforms into that same record and returns it. The
    wrapper is split at the call of the wrapped function: `RecordInputs` runs
    before it, `RecordResult` after it. */
module Decorators {
  import opened Wrappers
  import opened Geometry
  import opened Dataclass

  /** A decorated step function: the record shared by all of its calls. */
  class Decorated {
    const step: PipelineStep

    /** `step(name, description)`: the record is made here, once, when the
        function is decorated. */
    constructor (name: string, description: string)
      ensures fresh(step)
      ensures step.name == name && step.description == Some(description)
      ensures step.input.None? && step.inputs.None? && step.output.None? && step.transform.None?
    {
      step := new PipelineStep(name, Some(description));
    }

    /** The wrapper before the wrapped call: `kwargs['source']` is looked up
        first, then `kwargs['target']`, and only when both are there does
        `inputs` change. Nothing else in the record changes. */
    method RecordInputs(kwargs: map<string, Geometry>) returns (r: Result<(), Error>)
      modifies step
      ensures "source" !in kwargs ==> r == Err(KeyError("source"))
      ensures "source" in kwargs && "target" !in kwargs ==> r == Err(KeyError("target"))
      ensures r.Ok? <==> "source" in kwargs && "target" in kwargs
      ensures r.Ok? ==> step.inputs == Some(Roles(kwargs["source"], kwargs["target"]))
      ensures r.Err? ==> step.inputs == old(step.inputs)
      ensures step.input == old(step.input) && step.logs == old(step.logs)
      ensures step.output == old(step.output) && step.transform == old(step.transform)
    {
      if "source" !in kwargs {
        return Err(KeyError("source"));
      }
      if "target" !in kwargs {
        return Err(KeyError("target"));
      }
      step.inputs := Some(Roles(kwargs["source"], kwargs["target"]));
      r := Ok(());
    }

    /** The wrapper after the wrapped call: the pair the function returned
        overwrites `output` and `transform`, and the shared record itself is
        what the call returns. */
    method RecordResult(outputs: Option<Outputs>, transforms: Transforms) returns (s: PipelineStep)
      modifies step
      ensures s == step
      ensures step.output == outputs && step.transform == Some(transforms)
      ensures step.input == old(step.input) && step.inputs == old(step.inputs) && step.logs == old(step.logs)
    {
      step.output := outputs;
      step.transform := Some(transforms);
      s := step;
    }
  }

  /** The keyword arguments every step is called with. */
  function StepKwargs(source: Geometry, target: Geometry): (kwargs: map<string, Geometry>)
    ensures "source" in kwargs && kwargs["source"] == source
    ensures "target" in kwargs && kwargs["target"] == target
  {
    map["source" := source, "target" := target]
  }
}
