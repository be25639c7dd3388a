/**
 * The part of `run_capacity_check` after authentication and region
 * validation (oci_runner.py, lines 75-104): the required-shape guard, the
 * sizing resolution, the printed header, and one `process_region` call per
 * validated region with `config['region']` set to that region first.
 *
 * `process_region` lives in the capacity module, which is not part of this
 * model: here it is an abstract step that records the arguments it was
 * called with in the ghost log `calls`, and changes nothing else.
 */
module CapacityRunner {
  import opened Wrappers
  import opened ShapeSizing
  import opened ReportHeader

  /** The key of the client configuration that selects the target region. */
  const REGION_KEY: string := "region"

  /** The line printed when no shape was requested (without `print`'s own line break). */
  const MISSING_SHAPE_ERROR: string := "\nError: Shape name is a required field for the web UI."

  /** A validated region subscription; only its name is read here. */
  datatype Region = Region(regionName: string)

  /** The report parameters this part reads: shape, ocpus, memory and drcc. */
  datatype ReportRequest = ReportRequest(shape: Option<string>, ocpus: Option<int>, memory: Option<int>, drcc: bool)

  /** The shape arguments every region probe receives. */
  datatype ShapeParams = ShapeParams(shape: string, ocpus: int, memory: Option<int>, drcc: bool)

  /** One `process_region` call: the region, the configuration as it was at the call, the compartment and the shape arguments. */
  datatype RegionCall = RegionCall(region: Region, config: map<string, string>, compartment: string, params: ShapeParams)

  /** The configuration after the loop has pointed it at each region in turn. */
  function ConfigAfter(config: map<string, string>, regions: seq<Region>): map<string, string>
    decreases |regions|
  {
    if regions == [] then config
    else ConfigAfter(config[REGION_KEY := regions[0].regionName], regions[1..])
  }

  /** The calls the loop makes, starting from `config`: each sets the region key, then probes. */
  function DispatchLog(config: map<string, string>, regions: seq<Region>, compartment: string, params: ShapeParams): seq<RegionCall>
    decreases |regions|
  {
    if regions == [] then []
    else
      var current := config[REGION_KEY := regions[0].regionName];
      [RegionCall(regions[0], current, compartment, params)] + DispatchLog(current, regions[1..], compartment, params)
  }

  /** The loop makes exactly as many calls as there are regions, none for an empty list. */
  lemma {:induction false} DispatchLogLength(config: map<string, string>, regions: seq<Region>, compartment: string, params: ShapeParams)
    ensures |DispatchLog(config, regions, compartment, params)| == |regions|
    decreases |regions|
  {
    if regions != [] {
      DispatchLogLength(config[REGION_KEY := regions[0].regionName], regions[1..], compartment, params);
    }
  }

  /**
   * Exactly one call per region, in list order; call `i` sees the starting
   * configuration with only the region key changed, to region `i`'s name, and
   * every call gets the same compartment and shape arguments.
   */
  lemma {:induction false} DispatchLogAt(config: map<string, string>, regions: seq<Region>, compartment: string, params: ShapeParams, i: int)
    requires 0 <= i < |regions|
    ensures |DispatchLog(config, regions, compartment, params)| == |regions|
    ensures DispatchLog(config, regions, compartment, params)[i] ==
      RegionCall(regions[i], config[REGION_KEY := regions[i].regionName], compartment, params)
    decreases |regions|
  {
    var current := config[REGION_KEY := regions[0].regionName];
    if i > 0 {
      DispatchLogAt(current, regions[1..], compartment, params, i - 1);
      assert current[REGION_KEY := regions[i].regionName] == config[REGION_KEY := regions[i].regionName];
    } else if |regions| > 1 {
      DispatchLogAt(current, regions[1..], compartment, params, 0);
    }
  }

  /** After the loop the configuration names the last region (or is unchanged when there is none); no other key changes. */
  lemma {:induction false} ConfigAfterLast(config: map<string, string>, regions: seq<Region>)
    ensures ConfigAfter(config, regions) ==
      if regions == [] then config else config[REGION_KEY := regions[|regions| - 1].regionName]
    decreases |regions|
  {
    if regions != [] {
      var current := config[REGION_KEY := regions[0].regionName];
      ConfigAfterLast(current, regions[1..]);
      if |regions| > 1 {
        assert current[REGION_KEY := regions[|regions| - 1].regionName] ==
          config[REGION_KEY := regions[|regions| - 1].regionName];
      }
    }
  }

  lemma {:induction false} ConfigAfterSnoc(config: map<string, string>, regions: seq<Region>, r: Region)
    ensures ConfigAfter(config, regions + [r]) == ConfigAfter(config, regions)[REGION_KEY := r.regionName]
    decreases |regions|
  {
    if regions == [] {
      assert regions + [r] == [r];
    } else {
      assert (regions + [r])[1..] == regions[1..] + [r];
      ConfigAfterSnoc(config[REGION_KEY := regions[0].regionName], regions[1..], r);
    }
  }

  lemma {:induction false} DispatchLogSnoc(config: map<string, string>, regions: seq<Region>, r: Region, compartment: string, params: ShapeParams)
    ensures DispatchLog(config, regions + [r], compartment, params) ==
      DispatchLog(config, regions, compartment, params)
      + [RegionCall(r, ConfigAfter(config, regions)[REGION_KEY := r.regionName], compartment, params)]
    decreases |regions|
  {
    if regions == [] {
      assert regions + [r] == [r];
    } else {
      assert (regions + [r])[1..] == regions[1..] + [r];
      DispatchLogSnoc(config[REGION_KEY := regions[0].regionName], regions[1..], r, compartment, params);
    }
  }

  /** One run of the check against an authenticated client configuration. */
  class ReportRun {
    /** The client configuration dictionary, updated in place by the loop. */
    var config: map<string, string>
    /** Every `process_region` call so far, in order. */
    ghost var calls: seq<RegionCall>

    constructor (config: map<string, string>)
      ensures this.config == config && calls == []
    {
      this.config := config;
      calls := [];
    }

    /** `process_region`: probes one region with the current configuration. */
    method ProcessRegion(region: Region, compartment: string, params: ShapeParams)
      modifies this
      ensures config == old(config)
      ensures calls == old(calls) + [RegionCall(region, config, compartment, params)]
    {
      calls := calls + [RegionCall(region, config, compartment, params)];
    }

    /** The loop of lines 102-104. */
    method DispatchRegions(regions: seq<Region>, compartment: string, params: ShapeParams)
      modifies this
      ensures config == ConfigAfter(old(config), regions)
      ensures calls == old(calls) + DispatchLog(old(config), regions, compartment, params)
    {
      for i := 0 to |regions|
        invariant config == ConfigAfter(old(config), regions[..i])
        invariant calls == old(calls) + DispatchLog(old(config), regions[..i], compartment, params)
      {
        var region := regions[i];
        assert regions[..i + 1] == regions[..i] + [region];
        ConfigAfterSnoc(old(config), regions[..i], region);
        DispatchLogSnoc(old(config), regions[..i], region, compartment, params);
        config := config[REGION_KEY := region.regionName];
        ProcessRegion(region, compartment, params);
      }
      assert regions[..|regions|] == regions;
    }

    /**
     * Lines 75-104: returns what this part prints. Without a shape name it
     * prints the error line and probes nothing; otherwise it prints the
     * header and probes every validated region with the resolved sizing.
     */
    method Run(request: ReportRequest, catalog: Catalog, regionsValidated: seq<Region>, compartment: string)
      returns (printed: string)
      modifies this
      ensures !ShapeGiven(request.shape) ==>
        printed == MISSING_SHAPE_ERROR + "\n" && calls == old(calls) && config == old(config)
      ensures ShapeGiven(request.shape) ==>
        var sizing := ResolveSizing(request.shape.value, request.ocpus, request.memory, catalog);
        var params := ShapeParams(request.shape.value, sizing.ocpus, sizing.memory, request.drcc);
        && printed == Header(request.drcc) + "\n"
        && config == ConfigAfter(old(config), regionsValidated)
        && calls == old(calls) + DispatchLog(old(config), regionsValidated, compartment, params)
    {
      if !ShapeGiven(request.shape) {
        printed := MISSING_SHAPE_ERROR + "\n";
        return;
      }
      var shape := request.shape.value;
      var sizing := ResolveSizing(shape, request.ocpus, request.memory, catalog);
      printed := Header(request.drcc) + "\n";
      DispatchRegions(regionsValidated, compartment, ShapeParams(shape, sizing.ocpus, sizing.memory, request.drcc));
    }
  }
}
