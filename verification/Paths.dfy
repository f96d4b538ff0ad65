/** Relative POSIX paths as `PurePosixPath` reads and prints them. */
module Paths {
  import opened Text

  function Kept(component: string): seq<string> {
    if component == "" || component == "." then [] else [component]
  }

  /** The components from `start` on, without the empty ones and the dots; `k` is being read. */
  function PartsFrom(name: string, start: nat, k: nat): seq<string>
    requires start <= k <= |name|
    decreases |name| - k
  {
    if k == |name| then Kept(name[start..])
    else if name[k] == '/' then Kept(name[start..k]) + PartsFrom(name, k + 1, k + 1)
    else PartsFrom(name, start, k + 1)
  }

  /** `PurePosixPath(name).parts` of a relative path. */
  function Parts(name: string): seq<string> {
    PartsFrom(name, 0, 0)
  }

  /** `str(PurePosixPath(name))` of a relative path. */
  function PathText(name: string): string {
    if Parts(name) == [] then "." else Joined(Parts(name), '/')
  }

  predicate IsCanonical(name: string) {
    PathText(name) == name
  }

  predicate IsProper(component: string) {
    component != "" && component != "." && Without(component, '/')
  }

  lemma {:induction false} PartsAreProper(name: string, start: nat, k: nat)
    requires start <= k <= |name| && forall i :: start <= i < k ==> name[i] != '/'
    ensures forall i :: 0 <= i < |PartsFrom(name, start, k)| ==> IsProper(PartsFrom(name, start, k)[i])
    decreases |name| - k
  {
    if k < |name| {
      if name[k] == '/' { PartsAreProper(name, k + 1, k + 1); }
      else { PartsAreProper(name, start, k + 1); }
    }
  }

  /** The fields between the slashes without the empty ones and the dots. */
  function Named(fields: seq<string>): seq<string> {
    if fields == [] then [] else Kept(fields[0]) + Named(fields[1..])
  }

  lemma {:induction false} PartsAreNamed(name: string, start: nat, k: nat)
    requires start <= k <= |name| && forall i :: start <= i < k ==> name[i] != '/'
    ensures PartsFrom(name, start, k) == Named(Split(name[start..], '/'))
    decreases |name| - k
  {
    hide Split, Kept, Named;
    if k == |name| {
      FirstField(name[start..], "", '/');
      NamedOnly(name[start..]);
    } else if name[k] == '/' {
      PartsAreNamed(name, k + 1, k + 1);
      NamedAtSlash(name, start, k);
    } else {
      PartsAreNamed(name, start, k + 1);
    }
  }

  lemma NamedAtSlash(name: string, start: nat, k: nat)
    requires start <= k < |name| && name[k] == '/' && forall i :: start <= i < k ==> name[i] != '/'
    ensures Named(Split(name[start..], '/')) == Kept(name[start..k]) + Named(Split(name[k + 1..], '/'))
  {
    hide Split, Kept, Named;
    FirstField(name[start..k], name[k + 1..], '/');
    assert name[start..] == name[start..k] + (['/'] + name[k + 1..]);
    NamedFirst(name[start..k], Split(name[k + 1..], '/'));
  }

  lemma NamedFirst(field: string, fields: seq<string>)
    ensures Named([field] + fields) == Kept(field) + Named(fields)
  {
    assert ([field] + fields)[1..] == fields;
  }

  lemma NamedOnly(field: string)
    ensures Named([field]) == Kept(field)
  {
  }

  lemma {:induction false} NamedIff(fields: seq<string>, component: string)
    ensures component in Named(fields) <==> component in fields && component != "" && component != "."
  {
    if fields != [] {
      NamedIff(fields[1..], component);
      assert component in fields <==> component == fields[0] || component in fields[1..];
    }
  }

  /** What lies between the slashes of a path, but for nothing and the dot, is its parts. */
  lemma PartsIff(name: string, component: string)
    ensures component in Parts(name) <==> component in Split(name, '/') && component != "" && component != "."
  {
    assert name[0..] == name;
    PartsAreNamed(name, 0, 0);
    NamedIff(Split(name, '/'), component);
  }

  lemma ProperStart(first: string, name: string)
    requires IsProper(first) && first <= name
    ensures !("./" <= name)
  {
    assert first[0] == name[0];
    if |first| == 1 { assert first == [name[0]]; }
    else { assert first[1] == name[1] != '/'; }
  }

  /** A canonical path is not empty and has no `./` in front. It may be the dot itself. */
  lemma CanonicalHasNoPrefix(name: string)
    requires IsCanonical(name)
    ensures !("./" <= name) && name != ""
  {
    PartsAreProper(name, 0, 0);
    if Parts(name) != [] {
      var first := Parts(name)[0];
      assert IsProper(first) && first <= name;
      ProperStart(first, name);
    }
  }
}
