/** The package-name extraction of the frozen-build setup script. */
module SetupDeps {

  /** The characters that start a version constraint. */
  predicate IsConstraintChar(c: char) {
    c == '<' || c == '>' || c == '='
  }

  /** The longest prefix of `dependency` free of constraint characters. */
  function RawName(dependency: string): (name: string)
    ensures |name| <= |dependency| && name == dependency[..|name|]
    ensures forall i :: 0 <= i < |name| ==> !IsConstraintChar(name[i])
    ensures |name| < |dependency| ==> IsConstraintChar(dependency[|name|])
    decreases |dependency|
  {
    if |dependency| == 0 || IsConstraintChar(dependency[0]) then ""
    else [dependency[0]] + RawName(dependency[1..])
  }

  /** `get_package_raw`: accumulate characters until the first constraint character. */
  method GetPackageRaw(dependency: string) returns (package: string)
    ensures package == RawName(dependency)
  {
    package := "";
    var i := 0;
    while i < |dependency|
      invariant 0 <= i <= |dependency|
      invariant package == dependency[..i]
      invariant forall j :: 0 <= j < i ==> !IsConstraintChar(dependency[j])
    {
      if IsConstraintChar(dependency[i]) {
        break;
      }
      package := package + [dependency[i]];
      i := i + 1;
    }
    RawNameUnique(dependency, package);
  }

  /** Any prefix free of constraint characters that stops at one (or at the end) is the raw
      name. */
  lemma {:induction false} RawNameUnique(dependency: string, name: string)
    requires |name| <= |dependency| && name == dependency[..|name|]
    requires forall i :: 0 <= i < |name| ==> !IsConstraintChar(name[i])
    requires |name| < |dependency| ==> IsConstraintChar(dependency[|name|])
    ensures name == RawName(dependency)
    decreases |name|
  {
    if |name| > 0 {
      assert !IsConstraintChar(dependency[0]);
      RawNameUnique(dependency[1..], name[1..]);
      assert name == [dependency[0]] + name[1..];
    }
  }

  /** A dependency without any version constraint is its own raw name. */
  lemma RawNameUnconstrained(dependency: string)
    requires forall i :: 0 <= i < |dependency| ==> !IsConstraintChar(dependency[i])
    ensures RawName(dependency) == dependency
  {
    RawNameUnique(dependency, dependency);
  }

  /** Taking the raw name twice changes nothing. */
  lemma RawNameIdempotent(dependency: string)
    ensures RawName(RawName(dependency)) == RawName(dependency)
  {
    RawNameUnconstrained(RawName(dependency));
  }
}
