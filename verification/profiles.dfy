/** The profiles of the dashboard configuration: named filter settings, one
    of which is active. The configuration's `profiles` dictionary is kept as
    its keys in insertion order together with the map from name to settings. */
module Profiles {
  import opened Text

  /** `names` with `name` taken out, the others in their order. */
  function Remove(names: seq<string>, name: string): (r: seq<string>)
    ensures forall n :: n in r <==> n in names && n != name
    ensures |r| <= |names|
  {
    if names == [] then []
    else if names[0] == name then Remove(names[1..], name)
    else [names[0]] + Remove(names[1..], name)
  }

  /** Taking a name out of a list without repeats leaves a list without
      repeats, one shorter when the name was there. */
  lemma {:induction false} RemoveDistinct(names: seq<string>, name: string)
    requires Distinct(names)
    ensures Distinct(Remove(names, name))
    ensures |Remove(names, name)| == if name in names then |names| - 1 else |names|
  {
    if names != [] {
      var rest := names[1..];
      assert Distinct(rest);
      RemoveDistinct(rest, name);
      if names[0] == name {
        assert name !in rest;
      } else {
        assert names[0] !in rest;
        assert names[0] !in Remove(rest, name);
        assert name in names <==> name in rest;
      }
    }
  }

  /** What pressing the delete button did. */
  datatype DeleteOutcome = NotFound | RefusedLast | Deleted

  class Config<P> {
    var names: seq<string>
    var profiles: map<string, P>
    var active: string

    /** The key list is the dictionary's keys, each once, and the active
        profile is one of them. */
    ghost predicate Valid()
      reads this
    {
      Distinct(names)
      && (forall n :: n in profiles <==> n in names)
      && active in profiles
    }

    constructor(name: string, settings: P)
      ensures Valid()
      ensures names == [name] && profiles == map[name := settings] && active == name
    {
      names := [name];
      profiles := map[name := settings];
      active := name;
    }

    /** The create button: a non-empty name gets a copy of the active
        profile's settings and becomes active; an existing name is
        overwritten in place. */
    method Create(name: string)
      requires Valid()
      modifies this
      ensures Valid()
      ensures name == "" ==> unchanged(this)
      ensures name != "" ==>
        profiles == old(profiles)[name := old(profiles)[old(active)]]
        && names == (if name in old(names) then old(names) else old(names) + [name])
        && active == name
    {
      if name != "" {
        profiles := profiles[name := profiles[active]];
        if name !in names {
          names := names + [name];
        }
        active := name;
      }
    }

    /** The delete button. An unknown name changes nothing; the last profile
        is never deleted; otherwise the profile is removed and, when it was
        the active one, the first remaining profile becomes active. */
    method Delete(name: string) returns (outcome: DeleteOutcome)
      requires Valid()
      modifies this
      ensures Valid()
      ensures |names| >= 1
      ensures name !in old(profiles) ==> outcome == NotFound && unchanged(this)
      ensures name in old(profiles) && |old(names)| <= 1 ==> outcome == RefusedLast && unchanged(this)
      ensures name in old(profiles) && |old(names)| > 1 ==>
        outcome == Deleted
        && name !in profiles
        && profiles == (map n | n in old(profiles) && n != name :: old(profiles)[n])
        && names == Remove(old(names), name)
        && |names| == |old(names)| - 1
        && active == (if old(active) == name then names[0] else old(active))
    {
      if name !in profiles {
        return NotFound;
      }
      if |names| <= 1 {
        return RefusedLast;
      }
      profiles := map n | n in profiles && n != name :: profiles[n];
      RemoveDistinct(names, name);
      names := Remove(names, name);
      if active == name {
        active := names[0];
      }
      outcome := Deleted;
    }
  }
}
