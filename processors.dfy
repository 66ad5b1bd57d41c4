/** What the pre/post dump/load processors do to the data: each one in
    registration order receives the data and either returns a replacement
    or None (keep the data). A non-batch processor in many-mode is applied
    to every item. Dump runs the non-batch group before the batch group;
    load runs the batch group first. */
module Processors {
  import opened Types

  /** `utils.if_none(result, data)`. */
  function IfNone(result: Option<Data>, data: Data): Data {
    if result.Some? then result.value else data
  }

  function OriginalArg(p: Processor, original: Data): Option<Data> {
    if p.passOriginal then Some(original) else None
  }

  /** `processor(item)` or `processor(item, original_data)`, None keeping the item. */
  function ApplyToItem(p: Processor, item: Data, original: Data): Data {
    IfNone(p.fn(ProcessorCall(item, None, OriginalArg(p, original))), item)
  }

  /** One iteration of the loop in `_invoke_processors`. */
  function Step(p: Processor, passMany: bool, data: Data, many: bool, original: Data): Result<Data, SchemaError> {
    if passMany then
      Success(IfNone(p.fn(ProcessorCall(data, Some(many), OriginalArg(p, original))), data))
    else if many then
      match Items(data)
      case None => Failure(NotIterable)
      case Some(xs) => Success(List(seq(|xs|, i requires 0 <= i < |xs| => ApplyToItem(p, xs[i], original))))
    else Success(ApplyToItem(p, data, original))
  }

  /** `_invoke_processors`: the data threaded through every processor of
      one (phase, pass_many) group, in registration order. */
  function ApplyProcessors(ps: seq<Processor>, passMany: bool, data: Data, many: bool, original: Data): Result<Data, SchemaError>
    decreases |ps|
  {
    if ps == [] then Success(data)
    else match Step(ps[0], passMany, data, many, original)
      case Failure(e) => Failure(e)
      case Success(d) => ApplyProcessors(ps[1..], passMany, d, many, original)
  }

  /** The processors of a group chained on one item. */
  function ChainOnItem(ps: seq<Processor>, item: Data, original: Data): Data
    decreases |ps|
  {
    if ps == [] then item else ChainOnItem(ps[1..], ApplyToItem(ps[0], item, original), original)
  }

  /** In many-mode a non-empty non-batch group maps the collection to a
      list of the same length whose every item went through the whole
      chain on its own. */
  lemma {:induction false} ManyModeMapsItems(ps: seq<Processor>, data: Data, original: Data)
    requires Items(data).Some? && ps != []
    ensures var xs := Items(data).value;
            var r := ApplyProcessors(ps, false, data, true, original);
            r.Success? && r.value.List? && |r.value.items| == |xs| &&
            forall i :: 0 <= i < |xs| ==> r.value.items[i] == ChainOnItem(ps, xs[i], original)
    decreases |ps|
  {
    var xs := Items(data).value;
    var ys := seq(|xs|, i requires 0 <= i < |xs| => ApplyToItem(ps[0], xs[i], original));
    assert Step(ps[0], false, data, true, original) == Success(List(ys));
    if |ps| > 1 {
      ManyModeMapsItems(ps[1..], List(ys), original);
    }
  }

  /** Outside many-mode (or for a batch group) the chain never fails; a
      non-batch group is the plain item chain. */
  lemma {:induction false} SingleModeIsChain(ps: seq<Processor>, data: Data, original: Data)
    ensures ApplyProcessors(ps, false, data, false, original) == Success(ChainOnItem(ps, data, original))
    decreases |ps|
  {
    if ps != [] {
      SingleModeIsChain(ps[1..], ApplyToItem(ps[0], data, original), original);
    }
  }

  /** Processors that always return None leave single-mode and batch data
      exactly as it was; in many-mode a non-batch group leaves every item
      as it was, giving the items back as a list. */
  lemma {:induction false} DecliningProcessorsKeepData(ps: seq<Processor>, passMany: bool, data: Data, many: bool, original: Data)
    requires forall k, c :: 0 <= k < |ps| ==> ps[k].fn(c).None?
    ensures passMany || !many ==> ApplyProcessors(ps, passMany, data, many, original) == Success(data)
    ensures !passMany && many && Items(data).Some? && ps != [] ==>
      ApplyProcessors(ps, passMany, data, many, original) == Success(List(Items(data).value))
    decreases |ps|
  {
    if ps != [] {
      if passMany || !many {
        assert Step(ps[0], passMany, data, many, original) == Success(data);
        DecliningProcessorsKeepData(ps[1..], passMany, data, many, original);
      } else if Items(data).Some? {
        var xs := Items(data).value;
        var ys := seq(|xs|, i requires 0 <= i < |xs| => ApplyToItem(ps[0], xs[i], original));
        assert ys == xs;
        assert Step(ps[0], passMany, data, many, original) == Success(List(xs));
        DecliningProcessorsKeepData(ps[1..], passMany, List(xs), many, original);
      }
    }
  }

  function AndThen(r: Result<Data, SchemaError>, ps: seq<Processor>, passMany: bool, many: bool, original: Data): Result<Data, SchemaError> {
    match r
    case Failure(e) => Failure(e)
    case Success(d) => ApplyProcessors(ps, passMany, d, many, original)
  }

  /** `_invoke_dump_processors`: non-batch processors, then batch ones. */
  function DumpProcessing(hooks: Hooks, phase: Phase, data: Data, many: bool, original: Data): Result<Data, SchemaError> {
    AndThen(ApplyProcessors(hooks.processors(phase, false), false, data, many, original),
            hooks.processors(phase, true), true, many, original)
  }

  /** `_invoke_load_processors`: batch processors, then non-batch ones. */
  function LoadProcessing(hooks: Hooks, phase: Phase, data: Data, many: bool, original: Data): Result<Data, SchemaError> {
    AndThen(ApplyProcessors(hooks.processors(phase, true), true, data, many, original),
            hooks.processors(phase, false), false, many, original)
  }
}
