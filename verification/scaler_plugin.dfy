/**
 * The plugin entry point `xrmU30ScalPlugin_CalcPercent`: parses the request
 * tree, fails with no reply when parsing fails, and otherwise replies with
 * the reported load and the number of SCALER sessions, written as
 * "<load> <count>".
 */
module ScalerPlugin {
  import opened Wrappers
  import opened ScalerTypes
  import opened Decimal
  import opened PropertyTree
  import opened RequestParser
  import opened LoadCalculator

  /** None is the error status; Some(reply) is success with that reply. */
  method CalcPercent(input: PTree) returns (reply: Option<Reply>)
    requires RequestOf(input).Some? ==> CalcDomain(RequestOf(input).value.resources)
    ensures reply.None? <==> RequestOf(input).None?
    ensures reply.Some? ==>
      reply.value == Calculate([RequestOf(input).value.params], RequestOf(input).value.resources)
  {
    var ok, resources, params := PopulateData(input);
    if !ok {
      return None;
    }
    var computed := ComputeLoad(params, resources);
    return Some(computed);
  }

  /** The reply text: the load, one space, the count. */
  function Render(reply: Reply): string
  {
    ShowInt(reply.load) + " " + ShowInt(reply.count)
  }

  lemma ShowIntHasNoSpace(n: int)
    ensures forall i :: 0 <= i < |ShowInt(n)| ==> ShowInt(n)[i] != ' '
  {
  }

  /** The reply text is exactly two tokens, which read back as the load and the count. */
  lemma RenderReadsBack(reply: Reply)
    requires INT32_MIN <= reply.load <= INT32_MAX && INT32_MIN <= reply.count <= INT32_MAX
    ensures var s, k := Render(reply), |ShowInt(reply.load)|;
      k < |s| && s[k] == ' ' &&
      (forall i :: 0 <= i < |s| && i != k ==> s[i] != ' ') &&
      ReadInt32(s[..k]) == Some(reply.load) && ReadInt32(s[k + 1..]) == Some(reply.count)
  {
    var a, b := ShowInt(reply.load), ShowInt(reply.count);
    var s := Render(reply);
    assert s == a + " " + b;
    assert s[..|a|] == a;
    assert s[|a| + 1..] == b;
    ShowIntHasNoSpace(reply.load);
    ShowIntHasNoSpace(reply.count);
    ReadShowInt32(reply.load);
    ReadShowInt32(reply.count);
    forall i | 0 <= i < |s| && i != |a|
      ensures s[i] != ' '
    {
      if i < |a| {
        assert s[i] == a[i];
      } else {
        assert s[i] == b[i - |a| - 1];
      }
    }
  }

  function Text(value: string): PTree
  {
    PTree(value, [])
  }

  function Object(members: seq<Child>): PTree
  {
    PTree("", members)
  }

  /** The tree of one resolution object. */
  function ResolutionTree(width: string, height: string, num: string, den: string): PTree
  {
    Object([
      Child("width", Text(width)),
      Child("height", Text(height)),
      Child("frame-rate", Object([Child("num", Text(num)), Child("den", Text(den))]))])
  }

  /** The tree of a 3840x2160 at 60/1 resolution object. */
  function UhdTree(): PTree
  {
    ResolutionTree("3840", "2160", "60", "1")
  }

  /** A SCALER descriptor from UhdTree() to UhdTree(), without optional fields. */
  function UhdPassTree(): PTree
  {
    Object([
      Child("function", Text("SCALER")),
      Child("format", Text("yuv420p")),
      Child("resolution", Object([Child("input", UhdTree()), Child("output", Object([Child("", UhdTree())]))]))])
  }

  /** A request holding only UhdPassTree(), and no job count. */
  function UhdPassRequest(): PTree
  {
    Object([Child("request", Object([Child("parameters",
      Object([Child("resources", Object([Child("", UhdPassTree())]))]))]))])
  }

  lemma RateTreeLookups(num: string, den: string)
    ensures var rate := Object([Child("num", Text(num)), Child("den", Text(den))]);
      GetChild(rate, ["num"]) == Some(Text(num)) && GetChild(rate, ["den"]) == Some(Text(den))
  {
    var rate := Object([Child("num", Text(num)), Child("den", Text(den))]);
    assert Find(rate.children, "num") == Some(Text(num));
    assert Find(rate.children, "den") == Some(Text(den)) by {
      assert rate.children[1..][0] == Child("den", Text(den));
    }
  }

  lemma ResolutionTreeLookups(width: string, height: string, num: string, den: string)
    ensures var t := ResolutionTree(width, height, num, den);
      GetChild(t, ["width"]) == Some(Text(width)) &&
      GetChild(t, ["height"]) == Some(Text(height)) &&
      GetChild(t, ["frame-rate", "num"]) == Some(Text(num)) &&
      GetChild(t, ["frame-rate", "den"]) == Some(Text(den))
  {
    var t := ResolutionTree(width, height, num, den);
    var cs := t.children;
    var rate := Object([Child("num", Text(num)), Child("den", Text(den))]);
    assert Find(cs, "width") == Some(Text(width));
    assert Find(cs, "height") == Some(Text(height)) by {
      assert cs[1..][0] == Child("height", Text(height));
    }
    assert Find(cs, "frame-rate") == Some(rate) by {
      assert cs[1..][1..][0] == Child("frame-rate", rate);
    }
    RateTreeLookups(num, den);
  }

  /** A resolution object holding the decimal text of four integers reads back as them. */
  lemma ResolutionTreeReads(width: Int32, height: Int32, num: Int32, den: Int32)
    ensures ResolutionAt(ResolutionTree(ShowInt(width), ShowInt(height), ShowInt(num), ShowInt(den)), [])
      == Some(Resolution(width, height, FrameRate(num, den)))
  {
    var t := ResolutionTree(ShowInt(width), ShowInt(height), ShowInt(num), ShowInt(den));
    ResolutionTreeLookups(ShowInt(width), ShowInt(height), ShowInt(num), ShowInt(den));
    ReadShowInt32(width);
    ReadShowInt32(height);
    ReadShowInt32(num);
    ReadShowInt32(den);
    var empty: seq<string> := [];
    assert empty + ["width"] == ["width"] && empty + ["height"] == ["height"];
    assert empty + ["frame-rate", "num"] == ["frame-rate", "num"];
    assert empty + ["frame-rate", "den"] == ["frame-rate", "den"];
  }

  lemma UhdTreeReads()
    ensures OutputOf(UhdTree()) == Some(UHD60)
  {
    assert ShowInt(3840) == "3840" && ShowInt(2160) == "2160" && ShowInt(60) == "60" && ShowInt(1) == "1";
    ResolutionTreeReads(3840, 2160, 60, 1);
  }

  lemma UhdPassTreeReads()
    ensures ResourceOf(UhdPassTree()) == Some(UHD60_PASS)
  {
    var t := UhdPassTree();
    var cs := t.children;
    var resolution := cs[2].tree;
    var outputs := Object([Child("", UhdTree())]);
    assert Find(cs, "function") == Some(Text("SCALER"));
    assert Find(cs, "format") == Some(Text("yuv420p")) by {
      assert cs[1..][0].key == "format";
    }
    assert Find(cs, "resolution") == Some(resolution) by {
      assert cs[1..][1..][0].key == "resolution";
    }
    assert Find(cs, "channel-load").None?;
    assert Find(resolution.children, "input") == Some(UhdTree());
    assert Find(resolution.children, "output") == Some(outputs) by {
      assert resolution.children[1..][0].key == "output";
    }
    assert GetString(t, ["function"]) == Some("SCALER");
    assert GetString(t, ["format"]) == Some("yuv420p");
    assert GetChild(t, INPUT_PATH) == Some(UhdTree()) by {
      assert GetChild(resolution, ["input"]) == Some(UhdTree());
    }
    assert GetChild(t, OUTPUT_PATH) == Some(outputs) by {
      assert GetChild(resolution, ["output"]) == Some(outputs);
    }
    UhdTreeReads();
    ResolutionAtBase(t, INPUT_PATH);
    ReadEachOne(Child("", UhdTree()), OutputOf);
  }

  /** Reading a resolution below `base` is reading it in the subtree at `base`. */
  lemma ResolutionAtBase(t: PTree, base: seq<string>)
    requires GetChild(t, base).Some?
    ensures ResolutionAt(t, base) == ResolutionAt(GetChild(t, base).value, [])
  {
    var c := GetChild(t, base).value;
    var empty: seq<string> := [];
    var fields := [["width"], ["height"], ["frame-rate", "num"], ["frame-rate", "den"]];
    forall i | 0 <= i < 4
      ensures GetInt(t, base + fields[i]) == GetInt(c, empty + fields[i])
    {
      GetChildAppend(t, base, fields[i]);
      assert empty + fields[i] == fields[i];
    }
    assert fields[0] == ["width"] && fields[1] == ["height"];
    assert fields[2] == ["frame-rate", "num"] && fields[3] == ["frame-rate", "den"];
  }

  /** Walking `a + b` is walking `a`, then `b`. */
  lemma {:induction false} GetChildAppend(t: PTree, a: seq<string>, b: seq<string>)
    ensures GetChild(t, a + b) == if GetChild(t, a).Some? then GetChild(GetChild(t, a).value, b) else None
  {
    if a != [] {
      assert (a + b)[0] == a[0] && (a + b)[1..] == a[1..] + b;
      match Find(t.children, a[0])
      case None =>
      case Some(c) => GetChildAppend(c, a[1..], b);
    } else {
      assert a + b == b;
    }
  }

  /**
   * The request with one SCALER from 3840x2160 at 60/1 to the same, and no
   * job count, is answered "500000 1".
   */
  lemma UhdPassReply()
    ensures RequestOf(UhdPassRequest()) == Some(Request(ParamsData(-1), [UHD60_PASS]))
    ensures CalcDomain([UHD60_PASS])
    ensures Calculate([ParamsData(-1)], [UHD60_PASS]) == Reply(500000, 1)
    ensures Render(Reply(500000, 1)) == "500000 1"
  {
    UhdPassRequestReads();
    UhdPassLoad();
    ShowUhdReply();
  }

  lemma ShowUhdReply()
    ensures ShowInt(500000) == "500000" && ShowInt(1) == "1"
  {
    assert ShowNat(5) == "5";
    assert ShowNat(50) == "50";
    assert ShowNat(500) == "500";
    assert ShowNat(5000) == "5000";
    assert ShowNat(50000) == "50000";
    assert ShowNat(500000) == "500000";
  }

  lemma UhdPassRequestReads()
    ensures RequestOf(UhdPassRequest()) == Some(Request(ParamsData(-1), [UHD60_PASS]))
  {
    var t := UhdPassRequest();
    var parameters := Object([Child("resources", Object([Child("", UhdPassTree())]))]);
    var list := Object([Child("", UhdPassTree())]);
    assert GetChild(t, PARAMETERS_PATH) == Some(parameters);
    assert Find(parameters.children, "job-count").None?;
    assert ParamsOf(t) == Some(ParamsData(-1));
    assert GetChild(t, RESOURCES_PATH) == Some(list) by {
      GetChildAppend(t, PARAMETERS_PATH, ["resources"]);
      assert PARAMETERS_PATH + ["resources"] == RESOURCES_PATH;
    }
    UhdPassTreeReads();
    ReadEachOne(Child("", UhdPassTree()), ResourceOf);
  }
}
