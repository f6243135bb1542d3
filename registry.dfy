/** The base of every function family: a display name and a live table of
    reference implementations, plus the named approximation algorithms a
    family offers. Whatever family adds a reference, it is stored under the
    fixed key "sin". */
module Registry {

  /** The key every reference implementation is stored under. */
  const REFERENCE_KEY: string := "sin"

  /** One approximation a family offers: its display name and the function. */
  datatype ApproximationAlgorithm = ApproximationAlgorithm(name: string, fn: real -> real)

  /** The table after adding `adds` in order, each under REFERENCE_KEY. */
  function AfterAdds(entries: map<string, real -> real>, adds: seq<real -> real>): map<string, real -> real>
  {
    if |adds| == 0 then entries
    else AfterAdds(entries, adds[..|adds| - 1])[REFERENCE_KEY := adds[|adds| - 1]]
  }

  /** After one or more additions only the last one added is left, under
      REFERENCE_KEY; every other entry is as before. */
  lemma {:induction false} AddsKeepOnlyTheLast(entries: map<string, real -> real>, adds: seq<real -> real>)
    requires |adds| > 0
    ensures AfterAdds(entries, adds) == entries[REFERENCE_KEY := adds[|adds| - 1]]
  {
    if |adds| > 1 {
      AddsKeepOnlyTheLast(entries, adds[..|adds| - 1]);
    }
  }

  /** Starting from an empty table, any number (at least one) of additions
      leaves exactly one entry: the last function added, under "sin". */
  lemma AddsFromEmptyLeaveOneEntry(adds: seq<real -> real>)
    requires |adds| > 0
    ensures AfterAdds(map[], adds) == map[REFERENCE_KEY := adds[|adds| - 1]]
    ensures |AfterAdds(map[], adds).Keys| == 1
  {
    AddsKeepOnlyTheLast(map[], adds);
    assert AfterAdds(map[], adds).Keys == {REFERENCE_KEY};
  }

  /** The mutable reference table a family owns and hands out. */
  class ReferenceMap {
    var entries: map<string, real -> real>

    constructor()
      ensures entries == map[]
    {
      entries := map[];
    }

    method Put(key: string, fn: real -> real)
      modifies this
      ensures entries == old(entries)[key := fn]
    {
      entries := entries[key := fn];
    }
  }

  class ApproximationFunction {
    const name: string
    const referenceImplementations: ReferenceMap

    /** Sets the name, then runs the family's reference initialiser, which
        adds `familyReferences` in order, then the default algorithm
        initialiser, which does nothing. */
    constructor(name: string, familyReferences: seq<real -> real>)
      ensures this.name == name
      ensures fresh(referenceImplementations)
      ensures referenceImplementations.entries == AfterAdds(map[], familyReferences)
    {
      this.name := name;
      referenceImplementations := new ReferenceMap();
      new;
      InitializeReferenceImplementations(familyReferences);
      InitializeApproximationAlgorithms();
    }

    method GetName() returns (result: string)
      ensures result == name
    {
      return name;
    }

    /** The table itself, not a copy: later additions show through it. */
    method GetReferenceImplementations() returns (result: ReferenceMap)
      ensures result == referenceImplementations
    {
      return referenceImplementations;
    }

    /** A family's reference initialiser: adds each of `references` in order. */
    method InitializeReferenceImplementations(references: seq<real -> real>)
      modifies referenceImplementations
      ensures referenceImplementations.entries == AfterAdds(old(referenceImplementations.entries), references)
    {
      var i := 0;
      while i < |references|
        invariant 0 <= i <= |references|
        invariant referenceImplementations.entries == AfterAdds(old(referenceImplementations.entries), references[..i])
      {
        AddReferenceImplementation(references[i]);
        assert references[..i + 1][..i] == references[..i];
        i := i + 1;
      }
      assert references[..i] == references;
    }

    /** The default algorithm initialiser changes nothing. */
    method InitializeApproximationAlgorithms()
      ensures unchanged(referenceImplementations)
    {
    }

    /** Stores fn under REFERENCE_KEY, whatever the family or the function. */
    method AddReferenceImplementation(fn: real -> real)
      modifies referenceImplementations
      ensures referenceImplementations.entries == old(referenceImplementations.entries)[REFERENCE_KEY := fn]
    {
      referenceImplementations.Put(REFERENCE_KEY, fn);
    }
  }

  /** A table obtained earlier sees a reference added later. */
  method AddedReferenceShowsThroughEarlierTable(family: ApproximationFunction, fn: real -> real)
    returns (table: ReferenceMap)
    modifies family.referenceImplementations
    ensures table == family.referenceImplementations
    ensures table.entries == old(family.referenceImplementations.entries)[REFERENCE_KEY := fn]
  {
    table := family.GetReferenceImplementations();
    family.AddReferenceImplementation(fn);
  }
}
