/**
 * The learning-object hierarchy and the pipeline that drives it: `Base`
 * objects can be fit, `BaseTransform` objects also transform, `BaseModel`
 * objects also predict, and `PCA` derives from both. A pipeline keeps an
 * ordered list of steps and, for each of `fit`, `transform` and `predict`,
 * calls that method on exactly the steps that are instances of the matching
 * base class, in insertion order.
 *
 * A step is identified by its class; a run of `fit`, `transform` or
 * `predict` is the list of positions of the steps whose method it calls.
 */
module Pipelines {

  /**
   * The classes a step can be an instance of: `NestedPipeline` is a
   * `Pipeline` used as a step, `Other` any object outside the hierarchy.
   */
  datatype Kind =
    | Base
    | BaseTransform
    | Normalize
    | BaseModel
    | LinearModel
    | LogisticModel
    | PCA
    | NestedPipeline
    | Other

  /** The length of the longest chain of base classes above `k`. */
  function Depth(k: Kind): nat {
    match k
    case Base => 0
    case Other => 0
    case BaseTransform => 1
    case BaseModel => 1
    case NestedPipeline => 1
    case _ => 2
  }

  /** `isinstance(obj, cls)` for an object of class `k`, following the class statements' base lists. */
  predicate IsInstance(k: Kind, cls: Kind)
    decreases Depth(k)
  {
    k == cls ||
    match k
    case BaseTransform => IsInstance(Base, cls)
    case Normalize => IsInstance(BaseTransform, cls)
    case BaseModel => IsInstance(Base, cls)
    case LinearModel => IsInstance(BaseModel, cls)
    case LogisticModel => IsInstance(BaseModel, cls)
    case PCA => IsInstance(BaseModel, cls) || IsInstance(BaseTransform, cls)
    case NestedPipeline => IsInstance(Base, cls)
    case _ => false
  }

  /** Every class of the hierarchy is a `Base`; only an outside object is not. */
  lemma BaseKinds(k: Kind)
    ensures IsInstance(k, Base) <==> k != Other
  {
  }

  /** The transforms are `BaseTransform`, `Normalize` and `PCA`. */
  lemma TransformKinds(k: Kind)
    ensures IsInstance(k, BaseTransform) <==> k in {BaseTransform, Normalize, PCA}
  {
  }

  /** The models are `BaseModel`, `LinearModel`, `LogisticModel` and `PCA`. */
  lemma ModelKinds(k: Kind)
    ensures IsInstance(k, BaseModel) <==> k in {BaseModel, LinearModel, LogisticModel, PCA}
  {
  }

  /** `PCA` is both a model and a transform; a nested pipeline is neither. */
  lemma PcaAndNestedPipeline()
    ensures IsInstance(PCA, BaseModel) && IsInstance(PCA, BaseTransform)
    ensures IsInstance(NestedPipeline, Base)
    ensures !IsInstance(NestedPipeline, BaseTransform) && !IsInstance(NestedPipeline, BaseModel)
  {
  }

  /** The positions of the steps that are instances of `cls`, in increasing order. */
  function Selected(steps: seq<Kind>, cls: Kind): seq<nat>
    decreases |steps|
  {
    if steps == [] then []
    else
      var n := |steps| - 1;
      Selected(steps[..n], cls) + (if IsInstance(steps[n], cls) then [n] else [])
  }

  /**
   * The selection visits exactly the steps that are instances of `cls`, each
   * once, in insertion order.
   */
  lemma {:induction false} SelectedCharacterized(steps: seq<Kind>, cls: Kind)
    ensures var r := Selected(steps, cls);
            && (forall k :: 0 <= k < |r| ==> r[k] < |steps| && IsInstance(steps[r[k]], cls))
            && (forall k, l :: 0 <= k < l < |r| ==> r[k] < r[l])
            && (forall i :: 0 <= i < |steps| ==> (IsInstance(steps[i], cls) <==> i in r))
    decreases |steps|
  {
    if steps != [] {
      var n := |steps| - 1;
      var prefix := Selected(steps[..n], cls);
      var r := Selected(steps, cls);
      SelectedCharacterized(steps[..n], cls);
      assert forall i :: 0 <= i < n ==> steps[..n][i] == steps[i];
      assert forall k :: 0 <= k < |prefix| ==> r[k] == prefix[k];
      if IsInstance(steps[n], cls) {
        assert r == prefix + [n];
        assert r[|prefix|] == n;
      } else {
        assert r == prefix;
      }
    }
  }

  /** Appending a step extends each selection by that step's position, if it is selected. */
  lemma SelectedAppend(steps: seq<Kind>, step: Kind, cls: Kind)
    ensures Selected(steps + [step], cls)
            == Selected(steps, cls) + (if IsInstance(step, cls) then [|steps|] else [])
  {
    assert (steps + [step])[..|steps|] == steps;
  }

  /** A pipeline: the ordered list of its steps. */
  class Pipeline {
    var steps: seq<Kind>

    constructor ()
      ensures steps == []
    {
      steps := [];
    }

    /** `add`: appends the step. */
    method Add(step: Kind)
      modifies this
      ensures steps == old(steps) + [step]
    {
      steps := steps + [step];
    }

    /** The loop shared by `fit`, `transform` and `predict`: call every step that is an instance of `cls`. */
    method Visit(cls: Kind) returns (called: seq<nat>)
      ensures called == Selected(steps, cls)
    {
      called := [];
      for i := 0 to |steps|
        invariant called == Selected(steps[..i], cls)
      {
        assert steps[..i + 1][..i] == steps[..i];
        if IsInstance(steps[i], cls) {
          called := called + [i];
        }
      }
      assert steps[..|steps|] == steps;
    }

    /** `fit`: calls `fit` on every `Base` step. */
    method Fit() returns (called: seq<nat>)
      ensures called == Selected(steps, Base)
    {
      called := Visit(Base);
    }

    /** `transform`: calls `transform` on every `BaseTransform` step. */
    method Transform() returns (called: seq<nat>)
      ensures called == Selected(steps, BaseTransform)
    {
      called := Visit(BaseTransform);
    }

    /** `predict`: calls `predict` on every `BaseModel` step. */
    method Predict() returns (called: seq<nat>)
      ensures called == Selected(steps, BaseModel)
    {
      called := Visit(BaseModel);
    }
  }

  /** A nested pipeline step is fit but skipped by `transform` and `predict`. */
  lemma NestedPipelineOnlyFit(steps: seq<Kind>, i: nat)
    requires i < |steps| && steps[i] == NestedPipeline
    ensures i in Selected(steps, Base)
    ensures i !in Selected(steps, BaseTransform) && i !in Selected(steps, BaseModel)
  {
    SelectedCharacterized(steps, Base);
    SelectedCharacterized(steps, BaseTransform);
    SelectedCharacterized(steps, BaseModel);
  }

  /** The selections of the demonstration pipeline, worked out step by step. */
  lemma DemoSelections()
    ensures Selected([Normalize, PCA, LinearModel], Base) == [0, 1, 2]
    ensures Selected([Normalize, PCA, LinearModel], BaseModel) == [1, 2]
    ensures Selected([Normalize, PCA, LinearModel], BaseTransform) == [0, 1]
  {
    forall cls | cls in {Base, BaseModel, BaseTransform}
      ensures Selected([Normalize, PCA, LinearModel], cls)
              == (if cls == Base then [0, 1, 2] else if cls == BaseModel then [1, 2] else [0, 1])
    {
      SelectedAppend([], Normalize, cls);
      SelectedAppend([Normalize], PCA, cls);
      SelectedAppend([Normalize, PCA], LinearModel, cls);
    }
  }

  /**
   * The demonstration: a pipeline of `Normalize`, `PCA` and `LinearModel`
   * fits all three steps, predicts with the second and third (`PCA`,
   * `LinearModel`), and transforms with the first and second (`Normalize`,
   * `PCA`).
   */
  method PipelineDemo() returns (steps: seq<Kind>, fitted: seq<nat>, predicted: seq<nat>, transformed: seq<nat>)
    ensures steps == [Normalize, PCA, LinearModel]
    ensures fitted == [0, 1, 2]
    ensures predicted == [1, 2]
    ensures transformed == [0, 1]
  {
    var pipe := new Pipeline();
    pipe.Add(Normalize);
    pipe.Add(PCA);
    pipe.Add(LinearModel);
    steps := pipe.steps;
    DemoSelections();
    fitted := pipe.Fit();
    predicted := pipe.Predict();
    transformed := pipe.Transform();
  }
}
