/**
 * The request parser of the plugin (`_populate_data`): reads the job count
 * and the resource descriptors out of a request tree, in document order.
 * The functions say what a well-formed request reads as; PopulateData is
 * the loop that builds the two lists and is proved against them.
 */
module RequestParser {
  import opened Wrappers
  import opened ScalerTypes
  import opened PropertyTree

  /** The parsed request: the one parameter record and the resources in document order. */
  datatype Request = Request(params: ParamsData, resources: seq<ResourceData>)

  const PARAMETERS_PATH: seq<string> := ["request", "parameters"]
  const RESOURCES_PATH: seq<string> := ["request", "parameters", "resources"]
  const INPUT_PATH: seq<string> := ["resolution", "input"]
  const OUTPUT_PATH: seq<string> := ["resolution", "output"]

  /** The parameter record: `job-count` if present (it must then be an `int32_t`), otherwise -1. */
  function ParamsOf(t: PTree): Option<ParamsData>
  {
    var parameters :- GetChild(t, PARAMETERS_PATH);
    var jobCount :- OptionalInt(parameters, "job-count", -1);
    Some(ParamsData(jobCount))
  }

  /** The elements of the resource list. */
  function ResourceItems(t: PTree): Option<seq<Child>>
  {
    var list :- GetChild(t, RESOURCES_PATH);
    Some(list.children)
  }

  /** A resolution read from `width`, `height`, `frame-rate.num` and `frame-rate.den` below `base`. */
  function ResolutionAt(t: PTree, base: seq<string>): Option<Resolution>
  {
    var width :- GetInt(t, base + ["width"]);
    var height :- GetInt(t, base + ["height"]);
    var numerator :- GetInt(t, base + ["frame-rate", "num"]);
    var denominator :- GetInt(t, base + ["frame-rate", "den"]);
    Some(Resolution(width, height, FrameRate(numerator, denominator)))
  }

  /** One element of a SCALER's output list. */
  function OutputOf(t: PTree): Option<Resolution>
  {
    ResolutionAt(t, [])
  }

  /**
   * One resource descriptor. `channel-load` defaults to 0; `lookahead-load`
   * is read (default 0) only for an ENCODER, and the output list only for a
   * SCALER; other resources get 0 and no outputs.
   */
  function ResourceOf(t: PTree): Option<ResourceData>
  {
    var kind :- GetString(t, ["function"]);
    var format :- GetString(t, ["format"]);
    var channelLoad :- OptionalInt(t, "channel-load", 0);
    var inRes :- ResolutionAt(t, INPUT_PATH);
    var lookaheadLoad :- if kind == "ENCODER" then OptionalInt(t, "lookahead-load", 0) else Some(0);
    var outRes :- if kind == "SCALER" then OutputsOf(t) else Some([]);
    Some(ResourceData(kind, format, channelLoad, lookaheadLoad, inRes, outRes))
  }

  /** The output list of a SCALER, in document order. */
  function OutputsOf(t: PTree): Option<seq<Resolution>>
  {
    var list :- GetChild(t, OUTPUT_PATH);
    ReadEach(list.children, OutputOf)
  }

  /** Reads every element of a list with `read`, in order; fails if any element fails. */
  function ReadEach<T>(cs: seq<Child>, read: PTree -> Option<T>): Option<seq<T>>
  {
    if cs == [] then Some([])
    else
      var front :- ReadEach(cs[..|cs| - 1], read);
      var last :- read(cs[|cs| - 1].tree);
      Some(front + [last])
  }

  /** The whole request; fails as a unit when any part fails. */
  function RequestOf(t: PTree): Option<Request>
  {
    var params :- ParamsOf(t);
    var items :- ResourceItems(t);
    var resources :- ReadEach(items, ResourceOf);
    Some(Request(params, resources))
  }

  /** Reading a list succeeds exactly when every element reads, and keeps their order. */
  lemma {:induction false} ReadEachPointwise<T>(cs: seq<Child>, read: PTree -> Option<T>)
    ensures ReadEach(cs, read).Some? <==> forall i :: 0 <= i < |cs| ==> read(cs[i].tree).Some?
    ensures ReadEach(cs, read).Some? ==>
      |ReadEach(cs, read).value| == |cs| &&
      forall i :: 0 <= i < |cs| ==> read(cs[i].tree) == Some(ReadEach(cs, read).value[i])
  {
    if cs != [] {
      var front := cs[..|cs| - 1];
      ReadEachPointwise(front, read);
      assert forall i :: 0 <= i < |front| ==> front[i] == cs[i];
    }
  }

  lemma ReadEachOne<T>(c: Child, read: PTree -> Option<T>)
    ensures ReadEach([c], read) == if read(c.tree).Some? then Some([read(c.tree).value]) else None
  {
    assert [c][..0] == [];
    assert ReadEach([c][..0], read) == Some([]);
    if read(c.tree).Some? {
      assert [] + [read(c.tree).value] == [read(c.tree).value];
    }
  }

  /** Reading a longer prefix of a list extends the result by the next element. */
  lemma ReadEachStep<T>(cs: seq<Child>, read: PTree -> Option<T>, i: nat, done: seq<T>)
    requires i < |cs| && ReadEach(cs[..i], read) == Some(done)
    ensures ReadEach(cs[..i + 1], read) ==
      if read(cs[i].tree).Some? then Some(done + [read(cs[i].tree).value]) else None
  {
    assert cs[..i + 1][..i] == cs[..i];
  }

  /** `job-count` defaults to -1. */
  lemma JobCountDefault(t: PTree, p: PTree)
    requires GetChild(t, PARAMETERS_PATH) == Some(p)
    requires Find(p.children, "job-count").None?
    ensures ParamsOf(t) == Some(ParamsData(-1))
  {
    assert OptionalInt(p, "job-count", -1) == Some(-1);
  }

  /** `channel-load` and `lookahead-load` default to 0. */
  lemma LoadDefaults(t: PTree, r: ResourceData)
    requires ResourceOf(t) == Some(r)
    ensures Find(t.children, "channel-load").None? ==> r.channelLoad == 0
    ensures Find(t.children, "lookahead-load").None? ==> r.lookaheadLoad == 0
  {
  }

  /** Fields read only for some kinds of resource, and read from where. */
  lemma ResourceFields(t: PTree, r: ResourceData)
    requires ResourceOf(t) == Some(r)
    ensures GetString(t, ["function"]) == Some(r.kind) && GetString(t, ["format"]) == Some(r.format)
    ensures ResolutionAt(t, INPUT_PATH) == Some(r.inRes)
    ensures r.kind != "ENCODER" ==> r.lookaheadLoad == 0
    ensures r.kind != "SCALER" ==> r.outRes == []
    ensures r.kind == "SCALER" ==> OutputsOf(t) == Some(r.outRes)
    ensures OptionalInt(t, "channel-load", 0) == Some(r.channelLoad)
    ensures r.kind == "ENCODER" ==> OptionalInt(t, "lookahead-load", 0) == Some(r.lookaheadLoad)
  {
    var kind := GetString(t, ["function"]);
    var format := GetString(t, ["format"]);
    var channelLoad := OptionalInt(t, "channel-load", 0);
    var inRes := ResolutionAt(t, INPUT_PATH);
    assert kind.Some? && format.Some? && channelLoad.Some? && inRes.Some?;
    var lookaheadLoad := if kind.value == "ENCODER" then OptionalInt(t, "lookahead-load", 0) else Some(0);
    var outRes := if kind.value == "SCALER" then OutputsOf(t) else Some([]);
    assert lookaheadLoad.Some? && outRes.Some?;
    assert r == ResourceData(kind.value, format.value, channelLoad.value, lookaheadLoad.value, inRes.value, outRes.value);
  }

  /**
   * A descriptor reads exactly when its required fields are present and
   * well-typed, and its optional fields are absent or well-typed.
   */
  lemma ResourceOfDefined(t: PTree)
    ensures ResourceOf(t).Some? <==>
      GetString(t, ["function"]).Some? && GetString(t, ["format"]).Some? &&
      OptionalInt(t, "channel-load", 0).Some? && ResolutionAt(t, INPUT_PATH).Some? &&
      (GetString(t, ["function"]) == Some("ENCODER") ==> OptionalInt(t, "lookahead-load", 0).Some?) &&
      (GetString(t, ["function"]) == Some("SCALER") ==> OutputsOf(t).Some?)
  {
  }

  /**
   * A request reads exactly when the parameters, the resource list and every
   * resource in it read; the resources keep the list's order.
   */
  lemma RequestOfAtomic(t: PTree)
    ensures RequestOf(t).Some? <==>
      ParamsOf(t).Some? && ResourceItems(t).Some? &&
      forall i :: 0 <= i < |ResourceItems(t).value| ==> ResourceOf(ResourceItems(t).value[i].tree).Some?
    ensures RequestOf(t).Some? ==>
      var items := ResourceItems(t).value;
      RequestOf(t).value.params == ParamsOf(t).value &&
      |RequestOf(t).value.resources| == |items| &&
      forall i :: 0 <= i < |items| ==> ResourceOf(items[i].tree) == Some(RequestOf(t).value.resources[i])
  {
    if ResourceItems(t).Some? {
      ReadEachPointwise(ResourceItems(t).value, ResourceOf);
    }
  }

  /** Reads one descriptor, walking its output list element by element. */
  method PopulateResource(t: PTree) returns (ok: bool, resource: ResourceData)
    ensures ok <==> ResourceOf(t).Some?
    ensures ok ==> resource == ResourceOf(t).value
  {
    ok := false;
    resource := ResourceData("", "", 0, 0, Resolution(0, 0, FrameRate(0, 0)), []);
    var kind := GetString(t, ["function"]);
    if kind.None? { return; }
    var format := GetString(t, ["format"]);
    if format.None? { return; }
    var channelLoad := OptionalInt(t, "channel-load", 0);
    if channelLoad.None? { return; }
    var inRes := ResolutionAt(t, INPUT_PATH);
    if inRes.None? { return; }
    var lookaheadLoad: Int32 := 0;
    if kind.value == "ENCODER" {
      var read := OptionalInt(t, "lookahead-load", 0);
      if read.None? { return; }
      lookaheadLoad := read.value;
    }
    var outRes: seq<Resolution> := [];
    if kind.value == "SCALER" {
      var list := GetChild(t, OUTPUT_PATH);
      if list.None? { return; }
      var cs := list.value.children;
      var i := 0;
      while i < |cs|
        invariant 0 <= i <= |cs|
        invariant ReadEach(cs[..i], OutputOf) == Some(outRes)
      {
        var out := OutputOf(cs[i].tree);
        ReadEachStep(cs, OutputOf, i, outRes);
        if out.None? {
          ReadEachPointwise(cs[..i + 1], OutputOf);
          ReadEachPointwise(cs, OutputOf);
          assert cs[..i + 1][i] == cs[i];
          return;
        }
        outRes := outRes + [out.value];
        i := i + 1;
      }
      assert cs[..i] == cs;
    }
    resource := ResourceData(kind.value, format.value, channelLoad.value, lookaheadLoad, inRes.value, outRes);
    ok := true;
  }

  /**
   * `_populate_data`: appends the parameter record, then each resource in
   * document order. On failure it stops at the first bad part, leaving what
   * was appended before it.
   */
  method PopulateData(input: PTree) returns (ok: bool, resources: seq<ResourceData>, params: seq<ParamsData>)
    ensures ok <==> RequestOf(input).Some?
    ensures ok ==> resources == RequestOf(input).value.resources
    ensures params == if ParamsOf(input).Some? then [ParamsOf(input).value] else []
    ensures !ok && ParamsOf(input).Some? && ResourceItems(input).Some? ==>
      var items := ResourceItems(input).value;
      |resources| < |items| &&
      ReadEach(items[..|resources|], ResourceOf) == Some(resources) &&
      ResourceOf(items[|resources|].tree).None?
    ensures !ok && (ParamsOf(input).None? || ResourceItems(input).None?) ==> resources == []
  {
    ok, resources, params := false, [], [];
    var parameters := GetChild(input, PARAMETERS_PATH);
    if parameters.None? { return; }
    var jobCount := OptionalInt(parameters.value, "job-count", -1);
    if jobCount.None? { return; }
    params := params + [ParamsData(jobCount.value)];

    var list := GetChild(input, RESOURCES_PATH);
    if list.None? { return; }
    var items := list.value.children;
    var i := 0;
    while i < |items|
      invariant 0 <= i <= |items| && |resources| == i
      invariant ReadEach(items[..i], ResourceOf) == Some(resources)
    {
      var read, resource := PopulateResource(items[i].tree);
      ReadEachStep(items, ResourceOf, i, resources);
      if !read {
        ReadEachPointwise(items, ResourceOf);
        return;
      }
      resources := resources + [resource];
      i := i + 1;
    }
    assert items[..i] == items;
    ok := true;
  }
}
