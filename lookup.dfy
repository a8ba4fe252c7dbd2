/**
 * The lookup by name that `ForceRegistry::getByName`, `PhysicsWorld::getForce`
 * and `PhysicsWorld::getEnvironment` share: a front-to-back scan that stops at
 * the first element whose name matches.
 */
module Lookup {
  import opened Wrappers

  /** The index of the first element named `name`, or None when no element has that name. */
  function FirstNamed<T>(xs: seq<T>, nameOf: T -> string, name: string): (r: Option<nat>)
    ensures r.Some? ==> r.value < |xs| && nameOf(xs[r.value]) == name
    ensures r.Some? ==> forall j :: 0 <= j < r.value ==> nameOf(xs[j]) != name
    ensures r.None? <==> forall j :: 0 <= j < |xs| ==> nameOf(xs[j]) != name
  {
    if |xs| == 0 then None
    else if nameOf(xs[0]) == name then Some(0)
    else
      var rest := FirstNamed(xs[1..], nameOf, name);
      assert forall j :: 1 <= j < |xs| ==> xs[j] == xs[1..][j - 1];
      if rest.None? then None else Some(rest.value + 1)
  }

  /** The scan itself: the first element named `name`, or None. */
  method FindNamed<T>(xs: seq<T>, nameOf: T -> string, name: string) returns (r: Option<T>)
    ensures FirstNamed(xs, nameOf, name).None? ==> r.None?
    ensures FirstNamed(xs, nameOf, name).Some? ==> r == Some(xs[FirstNamed(xs, nameOf, name).value])
  {
    var i := 0;
    while i < |xs|
      invariant 0 <= i <= |xs|
      invariant forall j :: 0 <= j < i ==> nameOf(xs[j]) != name
    {
      if nameOf(xs[i]) == name {
        return Some(xs[i]);
      }
      i := i + 1;
    }
    return None;
  }

  /** Appending an element never changes an existing match, and only adds one where there was none. */
  lemma FirstNamedAppend<T>(xs: seq<T>, x: T, nameOf: T -> string, name: string)
    ensures FirstNamed(xs, nameOf, name).Some? ==> FirstNamed(xs + [x], nameOf, name) == FirstNamed(xs, nameOf, name)
    ensures FirstNamed(xs, nameOf, name).None? && nameOf(x) == name ==> FirstNamed(xs + [x], nameOf, name) == Some(|xs|)
    ensures FirstNamed(xs, nameOf, name).None? && nameOf(x) != name ==> FirstNamed(xs + [x], nameOf, name).None?
  {
    var ys := xs + [x];
    assert forall j :: 0 <= j < |xs| ==> ys[j] == xs[j];
    var a, b := FirstNamed(xs, nameOf, name), FirstNamed(ys, nameOf, name);
    if a.Some? {
      assert b.Some?;
      assert !(b.value < a.value);
      assert !(a.value < b.value);
    } else if nameOf(x) == name {
      assert ys[|xs|] == x;
      assert b.Some?;
    }
  }
}
