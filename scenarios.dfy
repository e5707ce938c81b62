/**
 * Worked calls whose expected answers follow from the clients' contracts
 * and the bypass condition: a filter query answered with a subset, single
 * queries answered "no" and "yes", an unreachable server, and the bypass.
 */
module Scenarios {
  import opened Wrappers
  import opened Types
  import opened Wire
  import Http
  import Nop

  /** A server that answers every request at once, with the given decisions. */
  function ServerAnswering(filterAllowed: seq<string>, queryResult: bool): Env
  {
    Env(
      Json(_ => Some([]), _ => Some([]),
        _ => Some(PermissionQueryResponse(queryResult)),
        _ => Some(PermissionFilterResponse(filterAllowed))),
      "client",
      _ => [Delivered([])])
  }

  /** A server that never answers within the retry window. */
  function Unreachable(): Env
  {
    Env(
      Json(_ => Some([]), _ => Some([]),
        _ => Some(PermissionQueryResponse(true)),
        _ => Some(PermissionFilterResponse([]))),
      "client",
      _ => [Failed, Failed, Failed])
  }

  method FilterSubset()
  {
    var c := Http.NewHTTPClient("http://opa", "/allow", "/filter", 0, false, "", false);
    var options := PermissionOptions(["group"], false, "");
    var results, err := Http.QueryPermissionsMultiResources(
      c, ServerAnswering(["a", "c"], false), ["a", "b", "c"], ActionRead, options);
    assert err == None;
    var r := results.value;
    assert |r| == 3 && r[0] && !r[1] && r[2];
    assert r == [true, false, true];
  }

  method SingleDenied()
  {
    var c := Http.NewHTTPClient("http://opa", "/allow", "/filter", 0, false, "", false);
    var options := PermissionOptions(["group"], false, "");
    var d := Http.QueryPermissions(c, ServerAnswering([], false), "x", ActionRead, options);
    assert d == Decision(false, None);
  }

  method SingleAllowed()
  {
    var c := Http.NewHTTPClient("http://opa", "/allow", "/filter", 0, false, "secret", false);
    var options := PermissionOptions(["group"], false, "other");
    var d := Http.QueryPermissions(c, ServerAnswering([], true), "x", ActionUpdate, options);
    assert d == Decision(true, None);
  }

  method ServerUnreachable()
  {
    var c := Http.NewHTTPClient("http://opa", "/allow", "/filter", 0, false, "", false);
    var options := PermissionOptions(["group"], false, "");
    var d := Http.QueryPermissions(c, Unreachable(), "x", ActionRead, options);
    assert d == Decision(false, Some(SendFailed));
    var results, err := Http.QueryPermissionsMultiResources(c, Unreachable(), ["a"], ActionList, options);
    assert results == None && err == Some(SendFailed);
  }

  method OverrideAllowsAll()
  {
    var c := Http.NewHTTPClient("http://opa", "/allow", "/filter", 0, false, "secret", false);
    var options := PermissionOptions([], false, "secret");
    var d := Http.QueryPermissions(c, Unreachable(), "x", ActionDelete, options);
    assert d == Decision(true, None);
    var results, err := Http.QueryPermissionsMultiResources(c, Unreachable(), ["a", "b"], ActionDelete, options);
    assert |results.value| == 2 && results.value[0] && results.value[1];
    assert results.value == [true, true] && err == None;
    var nop := Nop.NewNopClient(false);
    var nopResults, nopErr := Nop.QueryPermissionsMultiResources(nop, ["a", "b"], ActionDelete, options);
    assert |nopResults.value| == 2 && nopResults.value[0] && nopResults.value[1];
    assert nopResults.value == [true, true];
    assert nopResults == results && nopErr == err;
  }
}
