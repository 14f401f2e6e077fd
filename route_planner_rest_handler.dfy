/**
 * The route-planner REST endpoints (io/RoutePlannerRestHandler.js): the status
 * endpoint answers 204 without a planner and 200 with the planner's detail block
 * otherwise; the two "free" endpoints fail with status 500 when there is no
 * planner, and freeing one address turns the planner's error into a 400.
 *
 * The route planner is a foreign object: it is given as the state the handler
 * reads from it, and whether `freeAddress` throws (and with which message) is a
 * parameter. The express routing of the three endpoints is not modelled.
 */
module RoutePlannerRest {
  import opened Wrappers
  import opened JsText
  import opened JsMaps

  /** The class of a planner; any other class is named by its constructor name. */
  datatype PlannerClass =
    | RotatingIpRoutePlanner
    | NanoIpRoutePlanner
    | RotatingNanoIpRoutePlanner
    | BalancingIpRoutePlanner
    | OtherPlanner(constructorName: string)

  /**
   * What the handler reads from a planner: its class, its IP block's type name and
   * size, the failing addresses with the time of their last failure, and the
   * class-specific counters (unused ones are ignored).
   */
  datatype PlannerState = PlannerState(
    plannerClass: PlannerClass,
    ipBlockType: string,
    ipBlockSize: nat,
    failingAddresses: JsMap<string, int>,
    rotateIndex: nat,
    index: nat,
    currentAddress: string,
    currentBlock: nat,
    addressIndexInBlock: nat)

  datatype IpBlockStatus = IpBlockStatus(blockType: string, size: string)

  datatype FailingAddress = FailingAddress(address: string, lastFailure: string)

  /** The `details` record of each planner class. */
  datatype Details =
    | RotatingIpDetails(ipBlock: IpBlockStatus, failing: seq<FailingAddress>, rotateIndex: string, index: string, currentAddress: string)
    | NanoIpDetails(ipBlock: IpBlockStatus, failing: seq<FailingAddress>, currentAddress: string)
    | RotatingNanoIpDetails(ipBlock: IpBlockStatus, failing: seq<FailingAddress>, currentBlock: string, addressIndexInBlock: string)
    | BalancingIpDetails(ipBlock: IpBlockStatus, failing: seq<FailingAddress>)

  datatype RoutePlannerStatus = RoutePlannerStatus(plannerType: string, details: Details)

  /** A failure the handler raises, with the HTTP status it carries. */
  datatype HttpError = HttpError(status: int, message: string)

  /** A successful answer: a status and, for 200, the status body. */
  datatype Response = Response(status: int, body: Option<RoutePlannerStatus>)

  const DisabledMessage: string := "Can't access disabled route planner"

  /** `RoutePlannerDisabledException`. */
  const Disabled: HttpError := HttpError(500, DisabledMessage)

  /** The type tag of a planner class. */
  function ClassName(c: PlannerClass): string {
    match c
    case RotatingIpRoutePlanner => "RotatingIpRoutePlanner"
    case NanoIpRoutePlanner => "NanoIpRoutePlanner"
    case RotatingNanoIpRoutePlanner => "RotatingNanoIpRoutePlanner"
    case BalancingIpRoutePlanner => "BalancingIpRoutePlanner"
    case OtherPlanner(name) => name
  }

  /** One entry per failing address, in the map's iteration order, with its formatted date. */
  function FailingStatus(failing: JsMap<string, int>, formatDate: int -> string): (r: seq<FailingAddress>)
    ensures |r| == |failing|
    ensures forall i :: 0 <= i < |r| ==> r[i] == FailingAddress(failing[i].0, formatDate(failing[i].1))
  {
    seq(|failing|, i requires 0 <= i < |failing| => FailingAddress(failing[i].0, formatDate(failing[i].1)))
  }

  /**
   * `getDetailBlock`: the block size as a decimal string, the failing addresses
   * in order, and the type tag and counters of the planner's class; an unknown
   * class is an error naming it.
   */
  function GetDetailBlock(p: PlannerState, formatDate: int -> string): (r: Result<RoutePlannerStatus, string>)
    ensures r.Ok? <==> !p.plannerClass.OtherPlanner?
    ensures r.Err? ==> r.error == "Received unexpected route planner type: " + p.plannerClass.constructorName
    ensures r.Ok? ==>
      && r.value.plannerType == ClassName(p.plannerClass)
      && (forall i :: 0 <= i < |r.value.details.ipBlock.size| ==> IsDigit(r.value.details.ipBlock.size[i]))
      && DigitsValue(r.value.details.ipBlock.size) == p.ipBlockSize
      && r.value.details.ipBlock.blockType == p.ipBlockType
      && |r.value.details.failing| == |p.failingAddresses|
      && Keys(p.failingAddresses) == seq(|r.value.details.failing|, i requires 0 <= i < |r.value.details.failing| => r.value.details.failing[i].address)
  {
    NatToStringRoundTrip(p.ipBlockSize);
    var ipBlock := IpBlockStatus(p.ipBlockType, NatToString(p.ipBlockSize));
    var failing := FailingStatus(p.failingAddresses, formatDate);
    match p.plannerClass
    case RotatingIpRoutePlanner =>
      Ok(RoutePlannerStatus("RotatingIpRoutePlanner",
        RotatingIpDetails(ipBlock, failing, NatToString(p.rotateIndex), NatToString(p.index), p.currentAddress)))
    case NanoIpRoutePlanner =>
      Ok(RoutePlannerStatus("NanoIpRoutePlanner", NanoIpDetails(ipBlock, failing, p.currentAddress)))
    case RotatingNanoIpRoutePlanner =>
      Ok(RoutePlannerStatus("RotatingNanoIpRoutePlanner",
        RotatingNanoIpDetails(ipBlock, failing, NatToString(p.currentBlock), NatToString(p.addressIndexInBlock))))
    case BalancingIpRoutePlanner =>
      Ok(RoutePlannerStatus("BalancingIpRoutePlanner", BalancingIpDetails(ipBlock, failing)))
    case OtherPlanner(name) =>
      Err("Received unexpected route planner type: " + name)
  }

  /** Each class gets its own details record, and its counters read back as the planner's. */
  lemma DetailsMatchClass(p: PlannerState, formatDate: int -> string)
    requires !p.plannerClass.OtherPlanner?
    ensures var d := GetDetailBlock(p, formatDate).value.details;
      && (p.plannerClass.RotatingIpRoutePlanner? <==> d.RotatingIpDetails?)
      && (p.plannerClass.NanoIpRoutePlanner? <==> d.NanoIpDetails?)
      && (p.plannerClass.RotatingNanoIpRoutePlanner? <==> d.RotatingNanoIpDetails?)
      && (p.plannerClass.BalancingIpRoutePlanner? <==> d.BalancingIpDetails?)
      && (d.RotatingIpDetails? ==> DigitsValue(d.rotateIndex) == p.rotateIndex && DigitsValue(d.index) == p.index)
      && (d.RotatingNanoIpDetails? ==>
            DigitsValue(d.currentBlock) == p.currentBlock && DigitsValue(d.addressIndexInBlock) == p.addressIndexInBlock)
      && (d.RotatingIpDetails? || d.NanoIpDetails? ==> d.currentAddress == p.currentAddress)
  {
    NatToStringRoundTrip(p.rotateIndex);
    NatToStringRoundTrip(p.index);
    NatToStringRoundTrip(p.currentBlock);
    NatToStringRoundTrip(p.addressIndexInBlock);
  }

  /** The date of each failing address is the formatted time of its last failure. */
  lemma FailingDates(p: PlannerState, formatDate: int -> string, i: nat)
    requires !p.plannerClass.OtherPlanner? && i < |p.failingAddresses|
    ensures GetDetailBlock(p, formatDate).value.details.failing[i].lastFailure == formatDate(p.failingAddresses[i].1)
  {
  }

  /** `getStatus`: 204 without a planner, 200 with its detail block otherwise. */
  function GetStatus(planner: Option<PlannerState>, formatDate: int -> string): (r: Result<Response, string>)
    ensures r == Ok(Response(204, None)) <==> planner.None?
    ensures r.Err? <==> planner.Some? && planner.value.plannerClass.OtherPlanner?
    ensures r.Ok? && planner.Some? ==>
      r.value.status == 200 && r.value.body == Some(GetDetailBlock(planner.value, formatDate).value)
  {
    if planner.None? then Ok(Response(204, None))
    else
      match GetDetailBlock(planner.value, formatDate)
      case Ok(status) => Ok(Response(200, Some(status)))
      case Err(e) => Err(e)
  }

  /**
   * `freeSingleAddress`: without a planner the disabled error; otherwise 204, or a
   * 400 carrying the planner's error message when freeing the address throws.
   */
  function FreeSingleAddress(planner: Option<PlannerState>, freeAddressThrows: Option<string>): (r: Result<Response, HttpError>)
    ensures r.Ok? <==> planner.Some? && freeAddressThrows.None?
    ensures r.Ok? ==> r.value == Response(204, None)
    ensures planner.None? ==> r == Err(Disabled)
    ensures planner.Some? && freeAddressThrows.Some? ==>
      r.Err? && r.error.status == 400 && StartsWith(r.error.message, "Invalid address: ")
      && r.error.message[|"Invalid address: "|..] == freeAddressThrows.value
  {
    if planner.None? then Err(Disabled)
    else if freeAddressThrows.Some? then Err(HttpError(400, "Invalid address: " + freeAddressThrows.value))
    else Ok(Response(204, None))
  }

  /** `freeAllAddresses`: without a planner the disabled error, otherwise 204. */
  function FreeAllAddresses(planner: Option<PlannerState>): (r: Result<Response, HttpError>)
    ensures r.Ok? <==> planner.Some?
    ensures r.Ok? ==> r.value == Response(204, None)
    ensures r.Err? ==> r.error.status == 500 && r.error.message == DisabledMessage
  {
    if planner.None? then Err(Disabled) else Ok(Response(204, None))
  }

  /** Without a planner, every endpoint but the status one fails with status 500. */
  lemma DisabledEndpoints(freeAddressThrows: Option<string>, formatDate: int -> string)
    ensures GetStatus(None, formatDate) == Ok(Response(204, None))
    ensures FreeSingleAddress(None, freeAddressThrows) == FreeAllAddresses(None) == Err(HttpError(500, DisabledMessage))
  {
  }
}
