/**
 * The Ingest pipeline IR (prog/ingest/ingest.go): a pipeline is a list of
 * steps, each a single-key map from the operation name to its parameters.
 */
module Ingest {
  import opened Values

  /** `ingest.Processor`. */
  type Step = map<string, Params>

  /** `ingest.Pipeline`. */
  datatype Pipeline = Pipeline(description: string, processors: seq<Step>, onFailure: seq<Step>)

  /** `MakeProcessor`: the step that runs `name` with `params`. */
  function MakeProcessor(name: string, params: Params): (p: Step)
    ensures p.Keys == {name} && p[name] == params
  {
    map[name := params]
  }

  /** `Single`. */
  function Single(p: Step): (ps: seq<Step>)
    ensures |ps| == 1 && ps[0] == p
  {
    [p]
  }

  /** `MakeSingleProcessor`: a one-step list running `name` with `params`. */
  function MakeSingleProcessor(name: string, params: Params): (ps: seq<Step>)
    ensures |ps| == 1 && ps[0].Keys == {name} && ps[0][name] == params
  {
    Single(MakeProcessor(name, params))
  }

  /** `RemoveField`: the `remove` step whose only parameter is `field`. */
  function RemoveField(name: string): (p: Step)
    ensures p.Keys == {"remove"} && p["remove"].Keys == {"field"} && p["remove"]["field"] == Str(name)
  {
    MakeProcessor("remove", map["field" := Str(name)])
  }

  /** A processor's steps followed, when `drop` is set, by the removal of its source field. */
  function WithDrop(ps: seq<Step>, drop: bool, field: string): (r: seq<Step>)
    ensures |r| == |ps| + (if drop then 1 else 0) && r[..|ps|] == ps
    ensures drop ==> r[|ps|] == RemoveField(field)
  {
    if drop then ps + [RemoveField(field)] else ps
  }
}
