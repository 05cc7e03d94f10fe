/**
 * What the two command-line front ends share: how a command run ends, and the
 * `location set` lookup of a location by name or UUID, which both contain
 * word for word.
 */
module Cli {
  import opened Wrappers
  import opened GoStrings
  import opened Locations
  import Uuid

  /** A change of the WireGuard interface a command asks for. */
  datatype Transition = SetUp | SetDown

  /** A command ends with os.Exit(code) or by returning an error or nil to the CLI framework. */
  datatype Ending = Exit(code: int) | Return(error: Option<string>)

  /** What one command run does: the lines it prints, the transitions it requests, how it ends. */
  datatype Run = Run(printed: seq<string>, transitions: seq<Transition>, ending: Ending)

  /** The zero value of a LocationWrapper: empty id, name and country, not premium. */
  const NoLocation: LocationWrapper := LocationWrapper(Location("", "", ""), false)

  predicate Named(w: LocationWrapper, arg: string) {
    EqualFold(w.location.name, arg)
  }

  /** The index of the first wrapper at or after `i` whose name equals `arg` up to case. */
  function FirstNamedFrom(wrapped: seq<LocationWrapper>, arg: string, i: nat): (r: Option<nat>)
    requires i <= |wrapped|
    ensures r.Some? ==> i <= r.value < |wrapped| && Named(wrapped[r.value], arg)
    ensures r.Some? ==> forall j :: i <= j < r.value ==> !Named(wrapped[j], arg)
    ensures r.None? ==> forall j :: i <= j < |wrapped| ==> !Named(wrapped[j], arg)
    decreases |wrapped| - i
  {
    if i == |wrapped| then None
    else if Named(wrapped[i], arg) then Some(i)
    else FirstNamedFrom(wrapped, arg, i + 1)
  }

  /** The index of the first wrapper whose name equals `arg` up to case. */
  function FirstNamed(wrapped: seq<LocationWrapper>, arg: string): (r: Option<nat>)
    ensures r.Some? ==> r.value < |wrapped| && Named(wrapped[r.value], arg)
    ensures r.Some? ==> forall j :: 0 <= j < r.value ==> !Named(wrapped[j], arg)
    ensures r.None? ==> forall j :: 0 <= j < |wrapped| ==> !Named(wrapped[j], arg)
  {
    FirstNamedFrom(wrapped, arg, 0)
  }

  /**
   * The lookup of `location set`. An argument that does not parse as a UUID
   * selects the first location with that name; for a UUID the loop compares
   * the still-zero `location` and assigns `found := false`, so it never finds one.
   */
  method FindLocation(wrapped: seq<LocationWrapper>, arg: string) returns (location: LocationWrapper, found: bool)
    ensures found <==> Uuid.Parse(arg).None? && FirstNamed(wrapped, arg).Some?
    ensures found ==> location == wrapped[FirstNamed(wrapped, arg).value]
    ensures !found ==> location == NoLocation
  {
    location := NoLocation;
    found := false;
    var id := Uuid.Parse(arg);
    if id.None? {
      var i := 0;
      while i < |wrapped|
        invariant i <= |wrapped|
        invariant !found && location == NoLocation
        invariant forall j :: 0 <= j < i ==> !Named(wrapped[j], arg)
      {
        if Named(wrapped[i], arg) {
          location := wrapped[i];
          found := true;
          break;
        }
        i := i + 1;
      }
    } else {
      var text := Uuid.String(id.value);
      var i := 0;
      while i < |wrapped|
        invariant !found
        invariant location == NoLocation || EqualFold(NoLocation.location.id, text)
      {
        if EqualFold(location.location.id, text) {
          location := wrapped[i];
          found := false;
          break;
        }
        i := i + 1;
      }
      Uuid.StringNeverEmpty(arg);
    }
  }
}
