/**
 * CompoundDatabase of src/opioid_analysis_tools.py: a standard table built
 * at construction and a table of custom compounds, with lookup, listing and
 * the two filters.
 *
 * Lookup by name prefers the standard table; the filters walk the merged
 * dictionary {**compounds, **custom_compounds}, in which a custom entry
 * replaces a standard one of the same name.
 */
module CompoundDatabases {
  import opened Wrappers
  import opened OrderedDict
  import opened CompoundProfiles

  /** A compound with no allosteric binding, as most of the table is written. */
  function Orthosteric(name: string, ki: real, g: real, beta: real, tHalf: real, f: real,
                       ia: real, tol: real, pw: bool, acts: seq<string>): CompoundProfile
  {
    CompoundProfile(name, Finite(ki), NoBinding, NoBinding, g, beta, tHalf, f, ia, tol,
                    preventsWithdrawal := pw, pharmacologicalActivities := acts)
  }

  /** The names of the standard table, in insertion order. */
  const StandardNames: seq<string> := [
    "Morphine", "Oxycodone", "Fentanyl", "Buprenorphine", "Oliceridine", "Tapentadol", "Tramadol",
    "PZM21", "SR-17018", "SR-14968", "Mitragynine", "Nalbuphine"]

  /**
   * The records of _initialize_compounds, with its activity_map already
   * attached (every name of the map is in the table).
   */
  const StandardProfiles: seq<CompoundProfile> := [
      Orthosteric("Morphine", 1.8, 1.0, 1.0, 3.0, 0.3, 1.0, 0.8, false,
                  ["MOR full agonist", "DOR weak agonist", "KOR weak agonist"]),
      Orthosteric("Oxycodone", 18.0, 1.0, 1.0, 3.5, 0.87, 0.9, 0.7, false,
                  ["MOR full agonist", "Norepinephrine reuptake inhibition"]),
      Orthosteric("Fentanyl", 0.39, 1.0, 1.2, 3.7, 0.5, 1.0, 0.9, false,
                  ["MOR full agonist"]),
      Orthosteric("Buprenorphine", 0.2, 1.5, 0.8, 37.0, 0.15, 0.3, 0.1, true,
                  ["MOR partial agonist", "KOR antagonist", "ORL-1 agonist"]),
      Orthosteric("Oliceridine", 8.0, 3.0, 1.0, 2.0, 0.3, 0.8, 0.6, false,
                  ["G-protein biased MOR agonist"]),
      Orthosteric("Tapentadol", 100.0, 1.2, 0.9, 4.0, 0.32, 0.88, 0.4, false,
                  ["MOR agonist", "Norepinephrine reuptake inhibition"]),
      Orthosteric("Tramadol", 2400.0, 1.0, 1.0, 6.0, 0.75, 0.1, 0.3, false,
                  ["MOR weak agonist", "SNRI"]),
      Orthosteric("PZM21", 2.5, 10.0, 0.1, 3.0, 0.2, 0.6, 0.2, false,
                  ["Biased MOR agonist"]),
      CompoundProfile("SR-17018", NoBinding, Finite(26.0), Finite(100.0), 8.2, 0.01, 7.0, 0.7, 0.38, 0.0,
                      preventsWithdrawal := true, reversesTolerance := true,
                      pharmacologicalActivities := ["Biased MOR agonist", "Tolerance reversal"]),
      CompoundProfile("SR-14968", NoBinding, Finite(10.0), Finite(50.0), 10.0, 0.1, 12.0, 0.8, 0.65, 0.15,
                      pharmacologicalActivities := ["Biased MOR agonist"]),
      Orthosteric("Mitragynine", 160.0, 2.0, 0.5, 3.5, 0.2, 0.13, 0.4, true,
                  ["Partial MOR agonist", "KOR antagonist"]),
      Orthosteric("Nalbuphine", 11.0, 0.8, 0.4, 5.0, 0.16, 0.4, 0.2, false,
                  ["KOR agonist", "MOR antagonist"])]

  /** The dict literal {names[i]: profiles[i], ...}. */
  function TableOf(names: seq<string>, profiles: seq<CompoundProfile>): (d: Dict<string, CompoundProfile>)
    requires |names| == |profiles|
    ensures |d.entries| == |names|
    ensures forall i :: 0 <= i < |names| ==> d.entries[i] == (names[i], profiles[i])
  {
    Dict(seq(|names|, i requires 0 <= i < |names| => (names[i], profiles[i])))
  }

  /** With distinct names the literal is a well-formed dict whose keys are the names. */
  lemma TableOfWf(names: seq<string>, profiles: seq<CompoundProfile>)
    requires |names| == |profiles|
    requires forall i, j :: 0 <= i < j < |names| ==> names[i] != names[j]
    ensures Wf(TableOf(names, profiles))
    ensures Keys(TableOf(names, profiles)) == names
  {
  }

  /** The table _initialize_compounds returns. */
  function InitialCompounds(): Dict<string, CompoundProfile>
  {
    TableOf(StandardNames, StandardProfiles)
  }

  lemma StandardNamesDistinct()
    ensures forall i, j :: 0 <= i < j < |StandardNames| ==> StandardNames[i] != StandardNames[j]
  {
  }

  /** The table's keys are the standard names, each once. */
  lemma InitialCompoundsWf()
    ensures Wf(InitialCompounds())
    ensures Keys(InitialCompounds()) == StandardNames
  {
    StandardNamesDistinct();
    TableOfWf(StandardNames, StandardProfiles);
  }

  // ---------------------------------------------------------------------------
  // Lookup and listing, on the two tables

  /** get_compound: the standard entry, else the custom entry, else None. */
  function Lookup(standard: Dict<string, CompoundProfile>, custom: Dict<string, CompoundProfile>,
                  name: string): Option<CompoundProfile>
  {
    if HasKey(standard, name) then Get(standard, name) else Get(custom, name)
  }

  /** A name is found exactly when one of the tables has it. */
  lemma LookupFound(standard: Dict<string, CompoundProfile>, custom: Dict<string, CompoundProfile>, name: string)
    ensures Lookup(standard, custom, name).Some? <==> HasKey(standard, name) || HasKey(custom, name)
  {
    GetSomeIffKey(standard, name);
    GetSomeIffKey(custom, name);
  }

  /** Adding a custom compound makes it visible unless a standard one has its name. */
  lemma AddThenLookup(standard: Dict<string, CompoundProfile>, custom: Dict<string, CompoundProfile>,
                      c: CompoundProfile, name: string)
    ensures !HasKey(standard, c.name) ==> Lookup(standard, Set(custom, c.name, c), c.name) == Some(c)
    ensures HasKey(standard, c.name) ==>
      Lookup(standard, Set(custom, c.name, c), c.name) == Lookup(standard, custom, c.name)
    ensures name != c.name ==> Lookup(standard, Set(custom, c.name, c), name) == Lookup(standard, custom, name)
  {
    SetGet(custom, c.name, c, c.name);
    SetGet(custom, c.name, c, name);
  }

  /** list_compounds(category). */
  function ListNames(standard: Dict<string, CompoundProfile>, custom: Dict<string, CompoundProfile>,
                     category: string): (names: seq<string>)
    ensures category == "all" ==> |names| == Size(standard) + Size(custom)
    ensures category !in {"all", "standard", "custom"} ==> names == []
  {
    if category == "all" then Keys(standard) + Keys(custom)
    else if category == "standard" then Keys(standard)
    else if category == "custom" then Keys(custom)
    else []
  }

  /** Every name list_compounds('all') gives is found by get_compound. */
  lemma ListedNamesResolve(standard: Dict<string, CompoundProfile>, custom: Dict<string, CompoundProfile>, n: string)
    requires n in ListNames(standard, custom, "all")
    ensures Lookup(standard, custom, n).Some?
  {
    LookupFound(standard, custom, n);
  }

  // ---------------------------------------------------------------------------
  // Filters

  /** The Ki of the named site; None for a site name the filter skips. */
  function KiAt(c: CompoundProfile, site: string): Option<Ki>
  {
    if site == "orthosteric" then Some(c.kiOrthosteric)
    else if site == "allosteric1" then Some(c.kiAllosteric1)
    else if site == "allosteric2" then Some(c.kiAllosteric2)
    else None
  }

  /** The condition of filter_by_ki_range: a finite Ki at the site within [lo, hi]. */
  predicate KiInRange(c: CompoundProfile, lo: real, hi: real, site: string)
  {
    match KiAt(c, site)
    case Some(Finite(x)) => lo <= x <= hi
    case _ => false
  }

  /** The compounds of cs that pass the Ki filter, in order. */
  function SelectKi(cs: seq<CompoundProfile>, lo: real, hi: real, site: string): (r: seq<CompoundProfile>)
    ensures |r| <= |cs|
    ensures forall c :: c in r <==> c in cs && KiInRange(c, lo, hi, site)
  {
    if |cs| == 0 then []
    else
      var last := cs[|cs| - 1];
      assert forall c :: c in cs <==> c in cs[..|cs| - 1] || c == last;
      SelectKi(cs[..|cs| - 1], lo, hi, site) + (if KiInRange(last, lo, hi, site) then [last] else [])
  }

  /** The compounds of cs whose safety score is at least minScore, in order. */
  function SelectSafe(cs: seq<CompoundProfile>, minScore: real): (r: seq<CompoundProfile>)
    ensures |r| <= |cs|
    ensures forall c :: c in r <==> c in cs && SafetyScoreOf(c) >= minScore
  {
    if |cs| == 0 then []
    else
      var last := cs[|cs| - 1];
      assert forall c :: c in cs <==> c in cs[..|cs| - 1] || c == last;
      SelectSafe(cs[..|cs| - 1], minScore) + (if SafetyScoreOf(last) >= minScore then [last] else [])
  }

  lemma SelectKiStep(cs: seq<CompoundProfile>, i: nat, lo: real, hi: real, site: string)
    requires i < |cs|
    ensures SelectKi(cs[..i + 1], lo, hi, site) ==
            SelectKi(cs[..i], lo, hi, site) + (if KiInRange(cs[i], lo, hi, site) then [cs[i]] else [])
  {
    assert cs[..i + 1][..i] == cs[..i];
  }

  /** An unknown site name selects nothing. */
  lemma UnknownSiteSelectsNothing(cs: seq<CompoundProfile>, lo: real, hi: real, site: string)
    requires site !in {"orthosteric", "allosteric1", "allosteric2"}
    ensures SelectKi(cs, lo, hi, site) == []
  {
    if |SelectKi(cs, lo, hi, site)| > 0 {
      var c := SelectKi(cs, lo, hi, site)[0];
      assert c in SelectKi(cs, lo, hi, site);
    }
  }

  /** In the merged table the filters walk, a custom entry wins over a standard one. */
  lemma MergedPrefersCustom(standard: Dict<string, CompoundProfile>, custom: Dict<string, CompoundProfile>, n: string)
    requires Wf(custom)
    ensures HasKey(custom, n) ==> Get(Merge(standard, custom), n) == Get(custom, n)
    ensures !HasKey(custom, n) ==> Get(Merge(standard, custom), n) == Get(standard, n)
  {
    MergeGet(standard, custom, n);
  }

  class CompoundDatabase {
    var compounds: Dict<string, CompoundProfile>
    var customCompounds: Dict<string, CompoundProfile>

    ghost predicate Valid()
      reads this
    {
      Wf(compounds) && Wf(customCompounds)
    }

    /** __init__: the standard table and an empty custom table. */
    constructor ()
      ensures Valid()
      ensures compounds == InitialCompounds() && customCompounds == Empty()
    {
      InitialCompoundsWf();
      compounds := InitialCompounds();
      customCompounds := Empty();
    }

    /** add_custom_compound: inserts or overwrites custom_compounds[compound.name] only. */
    method AddCustomCompound(c: CompoundProfile)
      requires Valid()
      modifies this
      ensures Valid()
      ensures customCompounds == Set(old(customCompounds), c.name, c)
      ensures compounds == old(compounds)
    {
      SetWf(customCompounds, c.name, c);
      customCompounds := Set(customCompounds, c.name, c);
    }

    function GetCompound(name: string): (r: Option<CompoundProfile>)
      reads this
      ensures r.Some? <==> HasKey(compounds, name) || HasKey(customCompounds, name)
      ensures HasKey(compounds, name) ==> r == Get(compounds, name)
      ensures !HasKey(compounds, name) ==> r == Get(customCompounds, name)
    {
      LookupFound(compounds, customCompounds, name);
      Lookup(compounds, customCompounds, name)
    }

    function ListCompounds(category: string): (names: seq<string>)
      reads this
      ensures forall n :: n in names ==> GetCompound(n).Some?
      ensures category == "all" ==> names == Keys(compounds) + Keys(customCompounds)
      ensures category !in {"all", "standard", "custom"} ==> names == []
    {
      forall n | n in ListNames(compounds, customCompounds, category) {
        LookupFound(compounds, customCompounds, n);
      }
      ListNames(compounds, customCompounds, category)
    }

    /** {**compounds, **custom_compounds}.values() */
    function AllCompounds(): seq<CompoundProfile>
      reads this
    {
      Values(Merge(compounds, customCompounds))
    }

    /** filter_by_ki_range: the loop over the merged table. */
    method FilterByKiRange(lo: real, hi: real, site: string) returns (results: seq<CompoundProfile>)
      ensures results == SelectKi(AllCompounds(), lo, hi, site)
      ensures forall c :: c in results <==> c in AllCompounds() && KiInRange(c, lo, hi, site)
    {
      var all := AllCompounds();
      results := [];
      var i := 0;
      while i < |all|
        invariant 0 <= i <= |all|
        invariant results == SelectKi(all[..i], lo, hi, site)
      {
        var c := all[i];
        SelectKiStep(all, i, lo, hi, site);
        var ki: Ki;
        if site == "orthosteric" {
          ki := c.kiOrthosteric;
        } else if site == "allosteric1" {
          ki := c.kiAllosteric1;
        } else if site == "allosteric2" {
          ki := c.kiAllosteric2;
        } else {
          i := i + 1;
          continue;
        }
        if ki.Finite? && lo <= ki.nm <= hi {
          results := results + [c];
        }
        i := i + 1;
      }
      assert all[..i] == all;
    }

    /** filter_by_safety(min_score), whose default threshold is 70. */
    function FilterBySafety(minScore: real := 70.0): (r: seq<CompoundProfile>)
      reads this
      ensures forall c :: c in r <==> c in AllCompounds() && SafetyScoreOf(c) >= minScore
    {
      SelectSafe(AllCompounds(), minScore)
    }
  }
}
