/**
 * The data-vendor router: the tool categories, the vendor configured for a
 * category or a tool, and the routing of a call through the primary
 * vendors and then the other registered ones. Vendor implementations are an
 * oracle from a vendor name to the outcome of its call; the configuration is
 * a parameter.
 */
module DataInterface {
  import opened Common

  // ------------------------------------------------------------ categories

  /** `TOOLS_CATEGORIES`: each category with its tools, in declaration order. */
  const ToolsCategories: seq<(string, seq<string>)> := [
    ("core_forex_apis", ["get_forex_data"]),
    ("technical_indicators", ["get_indicators"]),
    ("quantitative_analysis", ["get_risk_metrics_data", "get_volatility_data", "simple_forex_data", "calculate_risk_metrics"]),
    ("news_data", ["get_news"]),
    ("macroeconomic_data", ["get_fred_data", "get_ecb_data", "get_macro_dashboard"])]

  /** The position of the first category of `cats` listing the tool. */
  function FirstCategory(cats: seq<(string, seq<string>)>, tool: string): (r: Option<nat>)
    ensures r.None? ==> forall i :: 0 <= i < |cats| ==> tool !in cats[i].1
    ensures r.Some? ==> (r.value < |cats| && tool in cats[r.value].1
      && forall j :: 0 <= j < r.value ==> tool !in cats[j].1)
  {
    if cats == [] then None
    else if tool in cats[0].1 then Some(0)
    else
      match FirstCategory(cats[1..], tool)
      case None => None
      case Some(k) => Some(k + 1)
  }

  /** The first category of `cats` listing the tool, or the error naming it. */
  function CategoryIn(cats: seq<(string, seq<string>)>, tool: string): (r: Result<string>)
    ensures r.Ok? <==> exists i :: 0 <= i < |cats| && tool in cats[i].1
    ensures r.Ok? ==> r.value == cats[FirstCategory(cats, tool).value].0
    ensures r.Err? ==> r.msg == "ValueError: Method '" + tool + "' not found in any category"
  {
    match FirstCategory(cats, tool)
    case None => Err("ValueError: Method '" + tool + "' not found in any category")
    case Some(k) => Ok(cats[k].0)
  }

  /** `get_category_for_method`. */
  function GetCategoryForMethod(tool: string): (r: Result<string>)
  {
    CategoryIn(ToolsCategories, tool)
  }

  /** Each registered tool lies in one category only, so its category is the one listing it. */
  lemma CategoryOfTool(i: nat, k: nat)
    requires i < |ToolsCategories| && k < |ToolsCategories[i].1|
    ensures GetCategoryForMethod(ToolsCategories[i].1[k]) == Ok(ToolsCategories[i].0)
  {
    var m := ToolsCategories[i].1[k];
    var cats := ToolsCategories;
    assert forall a, b, x :: 0 <= a < b < 5 && x in cats[a].1 ==> x !in cats[b].1;
    assert FirstCategory(cats, m).Some?;
    assert FirstCategory(cats, m).value == i;
  }

  // ---------------------------------------------------------------- config

  /** The two parts of the configuration the router reads; a missing part reads as empty. */
  datatype Config = Config(toolVendors: seq<(string, string)>, dataVendors: seq<(string, string)>)

  /** `get_vendor`: the tool's own vendor, then the category's, then "default". */
  function GetVendor(config: Config, category: string, tool: Option<string>): (r: string)
    ensures tool.Some? && |tool.value| > 0 && HasKey(config.toolVendors, tool.value) ==>
      r == Get(config.toolVendors, tool.value).value
    ensures !(tool.Some? && |tool.value| > 0 && HasKey(config.toolVendors, tool.value)) ==>
      r == GetOr(config.dataVendors, category, "default")
  {
    if tool.Some? && |tool.value| > 0 && HasKey(config.toolVendors, tool.value) then
      Get(config.toolVendors, tool.value).value
    else GetOr(config.dataVendors, category, "default")
  }

  // -------------------------------------------------------------- registry

  /** `VENDOR_METHODS` as declared: each tool with its vendors, in registration order. */
  const DeclaredMethods: seq<(string, seq<string>)> := [
    ("get_forex_data", ["twelvedata", "alpha_vantage"]),
    ("get_indicators", ["local"]),
    ("get_news", ["openai", "alpha_vantage"]),
    ("get_fred_data", ["fred"]),
    ("get_ecb_data", ["ecb"]),
    ("get_macro_dashboard", ["local"])]

  /** The entries the initialisation adds: the quantitative tools (the import fallback registers them too). */
  const QuantMethods: seq<(string, seq<string>)> := [
    ("get_risk_metrics_data", ["quant_tools"]),
    ("get_volatility_data", ["quant_tools"]),
    ("simple_forex_data", ["quant_tools"]),
    ("calculate_risk_metrics", ["quant_tools", "local"])]

  /** `VENDOR_METHODS` after `_initialize_vendor_methods`: the update adds the four quantitative tools as new keys. */
  function VendorMethods(): seq<(string, seq<string>)>
  {
    DeclaredMethods + QuantMethods
  }

  // --------------------------------------------------------------- routing

  /** The outcome of one vendor call. */
  datatype Outcome = Success(result: string) | RateLimited | Failed(error: string)

  /** `[v.strip() for v in vendor_config.split(',')]`. */
  function PrimaryVendors(vendorConfig: string): (r: seq<string>)
    ensures |r| >= 1
  {
    var parts := Split(vendorConfig, ',');
    seq(|parts|, i requires 0 <= i < |parts| => Strip(parts[i]))
  }

  /** `list` with each of `vs` not yet in it appended, in order. */
  function AppendMissing(list: seq<string>, vs: seq<string>): (r: seq<string>)
    ensures |r| >= |list| && r[..|list|] == list
    ensures forall v :: v in r <==> v in list || v in vs
    ensures forall i, j :: |list| <= i < j < |r| ==> r[i] != r[j]
    ensures forall i :: |list| <= i < |r| ==> r[i] !in list
    decreases |vs|
  {
    if vs == [] then list
    else if vs[0] in list then
      var r := AppendMissing(list, vs[1..]);
      assert forall v :: v in vs <==> v == vs[0] || v in vs[1..];
      r
    else
      var l2 := list + [vs[0]];
      var r := AppendMissing(l2, vs[1..]);
      assert forall v :: v in vs <==> v == vs[0] || v in vs[1..];
      assert r[..|list|] == l2[..|list|] == list by { assert r[..|l2|] == l2; }
      assert r[|list|] == vs[0];
      forall i | |list| <= i < |r| ensures r[i] !in list {
        if i > |list| { assert r[i] !in l2; } else { assert vs[0] !in list; }
      }
      forall i, j | |list| <= i < j < |r| ensures r[i] != r[j] {
        if i == |list| { assert r[j] !in l2; assert vs[0] in l2; } else { }
      }
      r
  }

  /** The fallback order: the primary vendors first, then the other registered vendors. */
  function FallbackVendors(primaries: seq<string>, available: seq<string>): (r: seq<string>)
    ensures |r| >= |primaries| && r[..|primaries|] == primaries
    ensures forall v :: v in r <==> v in primaries || v in available
    ensures forall i, j :: |primaries| <= i < j < |r| ==> r[i] != r[j]
    ensures forall i :: |primaries| <= i < |r| ==> r[i] !in primaries && r[i] in available
  {
    AppendMissing(primaries, available)
  }

  /**
   * The results of trying `vendors` in order: vendors without an
   * implementation are skipped, failures are passed over, and with
   * `single` the scan stops after the first success.
   */
  function Collect(vendors: seq<string>, registered: seq<string>, call: string -> Outcome, single: bool): (r: seq<string>)
    ensures single ==> |r| <= 1
    ensures forall x :: x in r ==> exists v :: v in vendors && v in registered && call(v) == Success(x)
    decreases |vendors|
  {
    if vendors == [] then []
    else
      var v := vendors[0];
      if v in registered && call(v).Success? then
        if single then [call(v).result]
        else [call(v).result] + Collect(vendors[1..], registered, call, single)
      else Collect(vendors[1..], registered, call, single)
  }

  /** With a single primary vendor the result is that of the first registered vendor whose call succeeds. */
  lemma {:induction false} SingleStopsAtFirst(vendors: seq<string>, registered: seq<string>, call: string -> Outcome, k: nat)
    requires k < |vendors| && vendors[k] in registered && call(vendors[k]).Success?
    requires forall j :: 0 <= j < k ==> !(vendors[j] in registered && call(vendors[j]).Success?)
    ensures Collect(vendors, registered, call, true) == [call(vendors[k]).result]
  {
    if k > 0 {
      SingleStopsAtFirst(vendors[1..], registered, call, k - 1);
    }
  }

  /** Nothing is collected exactly when no registered vendor of the list succeeds. */
  lemma {:induction false} CollectEmpty(vendors: seq<string>, registered: seq<string>, call: string -> Outcome, single: bool)
    ensures Collect(vendors, registered, call, single) == [] <==>
      forall v :: v in vendors && v in registered ==> !call(v).Success?
  {
    if vendors != [] {
      CollectEmpty(vendors[1..], registered, call, single);
      assert forall v :: v in vendors <==> v == vendors[0] || v in vendors[1..];
    }
  }

  const CalendarRemoved := "经济日历功能已移除。如需经济日历数据，请使用其他数据源。"

  /** `route_to_vendor` as a specification: the outcome for a tool under a configuration. */
  function Route(config: Config, tool: string, call: string -> Outcome): (r: Result<string>)
  {
    match GetCategoryForMethod(tool)
    case Err(e) => if tool == "get_central_bank_calendar" then Ok(CalendarRemoved) else Err(e)
    case Ok(category) =>
      var primaries := PrimaryVendors(GetVendor(config, category, Some(tool)));
      if !HasKey(VendorMethods(), tool) then Err("ValueError: Method '" + tool + "' not supported")
      else
        var available := Get(VendorMethods(), tool).value;
        var results := Collect(FallbackVendors(primaries, available), available, call, |primaries| == 1);
        if results == [] then Err("RuntimeError: All vendor implementations failed for method '" + tool + "'")
        else if |results| == 1 then Ok(results[0])
        else Ok(Join(results, "\n"))
  }

  /** Every categorised tool has vendors, so routing it never reports an unsupported tool. */
  lemma CategorisedToolsRegistered(i: nat, k: nat)
    requires i < |ToolsCategories| && k < |ToolsCategories[i].1|
    ensures HasKey(VendorMethods(), ToolsCategories[i].1[k])
  {
    var table := VendorMethods();
    var position: seq<seq<nat>> := [[0], [1], [6, 7, 8, 9], [2], [3, 4, 5]];
    assert |position[i]| == |ToolsCategories[i].1|;
    var j := position[i][k];
    assert j < |table| && table[j].0 == ToolsCategories[i].1[k];
  }

  /** The loop of `route_to_vendor`, over the fallback vendors. */
  method CollectResults(fallback: seq<string>, available: seq<string>, call: string -> Outcome, single: bool)
    returns (results: seq<string>, attempts: nat)
    ensures results == Collect(fallback, available, call, single)
    ensures attempts <= |fallback|
  {
    results := [];
    attempts := 0;
    var i := 0;
    while i < |fallback|
      invariant 0 <= i <= |fallback| && attempts <= i
      invariant results + Collect(fallback[i..], available, call, single) == Collect(fallback, available, call, single)
      invariant single ==> results == [] || results == Collect(fallback, available, call, single)
    {
      var vendor := fallback[i];
      assert fallback[i..][1..] == fallback[i + 1..];
      if vendor !in available {
        i := i + 1;
        continue;
      }
      attempts := attempts + 1;
      var outcome := call(vendor);
      if outcome.Success? {
        results := results + [outcome.result];
        if single {
          assert results == Collect(fallback, available, call, single);
          break;
        }
      }
      i := i + 1;
    }
    if i == |fallback| {
      assert fallback[i..] == [];
    }
  }

  /** `route_to_vendor`. */
  method RouteToVendor(config: Config, tool: string, call: string -> Outcome) returns (r: Result<string>)
    ensures r == Route(config, tool, call)
  {
    var category := GetCategoryForMethod(tool);
    if category.Err? {
      if tool == "get_central_bank_calendar" {
        return Ok(CalendarRemoved);
      }
      return Err(category.msg);
    }
    var primaries := PrimaryVendors(GetVendor(config, category.value, Some(tool)));
    if !HasKey(VendorMethods(), tool) {
      return Err("ValueError: Method '" + tool + "' not supported");
    }
    var available := Get(VendorMethods(), tool).value;
    var fallback := FallbackVendors(primaries, available);
    var results, attempts := CollectResults(fallback, available, call, |primaries| == 1);
    if results == [] {
      return Err("RuntimeError: All vendor implementations failed for method '" + tool + "'");
    }
    if |results| == 1 {
      return Ok(results[0]);
    }
    r := Ok(Join(results, "\n"));
  }

  /** A categorised, registered tool fails to route exactly when every registered vendor's call fails. */
  lemma RouteFailsIffAllFail(config: Config, tool: string, call: string -> Outcome)
    requires GetCategoryForMethod(tool).Ok? && HasKey(VendorMethods(), tool)
    ensures Route(config, tool, call).Err? <==>
      forall v :: v in Get(VendorMethods(), tool).value ==> !call(v).Success?
  {
    var primaries := PrimaryVendors(GetVendor(config, GetCategoryForMethod(tool).value, Some(tool)));
    var available := Get(VendorMethods(), tool).value;
    CollectEmpty(FallbackVendors(primaries, available), available, call, |primaries| == 1);
  }

  /** With one primary vendor, the route answers with the first registered vendor in fallback order whose call succeeds. */
  lemma RouteSingleFirst(config: Config, tool: string, call: string -> Outcome, k: nat)
    requires GetCategoryForMethod(tool).Ok? && HasKey(VendorMethods(), tool)
    requires var primaries := PrimaryVendors(GetVendor(config, GetCategoryForMethod(tool).value, Some(tool)));
      var available := Get(VendorMethods(), tool).value;
      var fallback := FallbackVendors(primaries, available);
      |primaries| == 1 && k < |fallback| && fallback[k] in available && call(fallback[k]).Success?
      && forall j :: 0 <= j < k ==> !(fallback[j] in available && call(fallback[j]).Success?)
    ensures var primaries := PrimaryVendors(GetVendor(config, GetCategoryForMethod(tool).value, Some(tool)));
      var fallback := FallbackVendors(primaries, Get(VendorMethods(), tool).value);
      Route(config, tool, call) == Ok(call(fallback[k]).result)
  {
    var primaries := PrimaryVendors(GetVendor(config, GetCategoryForMethod(tool).value, Some(tool)));
    var available := Get(VendorMethods(), tool).value;
    SingleStopsAtFirst(FallbackVendors(primaries, available), available, call, k);
  }

  /** The removed calendar method answers with its placeholder instead of raising. */
  lemma CalendarPlaceholder(config: Config, call: string -> Outcome)
    ensures Route(config, "get_central_bank_calendar", call) == Ok(CalendarRemoved)
  {
    var m := "get_central_bank_calendar";
    assert forall i :: 0 <= i < |ToolsCategories| ==> m !in ToolsCategories[i].1;
  }
}
