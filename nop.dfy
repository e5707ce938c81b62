/**
 * The "authorization disabled" client: it never contacts a server and
 * allows every action on every resource.
 */
module Nop {
  import opened Wrappers
  import opened Types
  import Wire

  /** Only a logging switch; the client has no other state. */
  datatype NopClient = NopClient(verbose: bool)

  /** Build the no-op client; it keeps only the logging switch. */
  function NewNopClient(verbose: bool): (c: NopClient)
    ensures c.verbose == verbose
  {
    NopClient(verbose)
  }

  /** Always allowed, never an error, whatever the resource, action or options. */
  function QueryPermissions(c: NopClient, resource: string, action: Action, options: PermissionOptions)
    : (r: Wire.Decision)
    ensures r.allowed && r.err.None?
  {
    Wire.Decision(true, None)
  }

  /**
   * A result slice with one `true` per resource, in order, and no error, for
   * any input including the empty one.
   */
  method QueryPermissionsMultiResources(
    c: NopClient, resources: seq<string>, action: Action, options: PermissionOptions)
    returns (results: Option<seq<bool>>, err: Option<Wire.Error>)
    ensures err.None? && results.Some?
    ensures |results.value| == |resources|
    ensures forall i | 0 <= i < |results.value| :: results.value[i]
  {
    var slots := new bool[|resources|](_ => false);
    var i := 0;
    while i < slots.Length
      invariant 0 <= i <= slots.Length
      invariant forall k | 0 <= k < i :: slots[k]
    {
      slots[i] := true;
      i := i + 1;
    }
    return Some(slots[..]), None;
  }
}
