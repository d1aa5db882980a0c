/**
 * The compound catalog of the web tracker (neurodose/src/components/NeuroDose.js):
 * four compounds keyed by string, in declaration order, each with its
 * pharmacokinetic parameters and its interaction notes in entry order.
 */
module WebCatalog {

  /** One interaction note: the other compound's key and the free-form note text. */
  type Note = (string, string)

  datatype Compound = Compound(
    name: string,
    halfLife: real,
    color: string,
    maxDailyDose: real,
    absorptionRate: real,
    bioavailability: real,
    peakThreshold: real,
    minEffectiveConc: real,
    categories: seq<string>,
    alternatives: seq<string>,
    interactionNotes: seq<Note>)

  /** `Object.keys(compounds)`, in declaration order. */
  const Keys: seq<string> := ["caffeine", "l-theanine", "ginseng", "magnesium"]

  /** `key` is one of the four catalog keys. */
  predicate IsKnown(key: string)
  {
    key == "caffeine" || key == "l-theanine" || key == "ginseng" || key == "magnesium"
  }

  /** The known keys are exactly the entries of `Keys`. */
  lemma KnownKeys()
    ensures forall k :: k in Keys <==> IsKnown(k)
    ensures forall i :: 0 <= i < |Keys| ==> IsKnown(Keys[i])
  {
  }

  const Caffeine := Compound(
    "Caffeine", 5.0, "#ff7f0e", 400.0, 0.5, 0.99, 200.0, 50.0,
    ["stimulant", "cognitive"], ["theobromine", "yerba-mate"],
    [("l-theanine", "Synergistic - May reduce jitters"),
     ("ginseng", "Use caution - May increase stimulant effects"),
     ("rhodiola", "Synergistic for focus and energy"),
     ("cordyceps", "Complementary for energy and endurance")])

  const LTheanine := Compound(
    "L-Theanine", 3.0, "#2ca02c", 400.0, 0.8, 0.98, 200.0, 50.0,
    ["relaxation", "cognitive"], ["glycine", "taurine"],
    [("caffeine", "Synergistic - May reduce caffeine jitters"),
     ("ginseng", "Generally safe combination"),
     ("ashwagandha", "Complementary for stress reduction"),
     ("magnolia", "Synergistic for relaxation")])

  const Ginseng := Compound(
    "Ginseng", 24.0, "#d62728", 400.0, 2.0, 0.15, 200.0, 100.0,
    ["adaptogen", "energy"], ["eleuthero", "rhodiola"],
    [("caffeine", "Use caution - May increase stimulant effects"),
     ("l-theanine", "Generally safe combination"),
     ("rhodiola", "Complementary adaptogenic effects"),
     ("cordyceps", "Synergistic for energy")])

  // magnesium's second note is keyed 'l_theanine' (underscore) in the source, so it names no compound
  const Magnesium := Compound(
    "Magnesium", 12.0, "#8a2be2", 400.0, 1.5, 0.3, 100.0, 50.0,
    ["mineral", "relaxation"], ["magnesium-glycinate", "magnesium-citrate"],
    [("caffeine", "May reduce caffeine-induced anxiety"),
     ("l_theanine", "Synergistic for relaxation")])

  /** `compounds[key]` for a key of the catalog. */
  function Lookup(key: string): Compound
    requires IsKnown(key)
  {
    if key == "caffeine" then Caffeine
    else if key == "l-theanine" then LTheanine
    else if key == "ginseng" then Ginseng
    else Magnesium
  }

  /** The parameters the concentration formula divides by or scales with are in range. */
  predicate WellFormed(c: Compound)
  {
    c.halfLife > 0.0 && c.absorptionRate > 0.0 && 0.0 <= c.bioavailability <= 1.0 && c.maxDailyDose > 0.0
  }

  lemma CatalogWellFormed(key: string)
    requires IsKnown(key)
    ensures WellFormed(Lookup(key))
    ensures Lookup(key).maxDailyDose == 400.0
    ensures Lookup(key).minEffectiveConc > 0.0
  {
  }

  /** The keys are pairwise distinct, so position in `Keys` identifies a compound. */
  lemma KeysDistinct()
    ensures forall i, j :: 0 <= i < j < |Keys| ==> Keys[i] != Keys[j]
  {
  }

  /** The total number of interaction notes in the catalog. */
  function NoteCount(keys: seq<string>): nat
    requires forall i :: 0 <= i < |keys| ==> IsKnown(keys[i])
  {
    if keys == [] then 0 else NoteCount(keys[..|keys| - 1]) + |Lookup(keys[|keys| - 1]).interactionNotes|
  }

  /** The four compounds carry 4, 4, 4 and 2 interaction notes. */
  lemma CatalogNoteCount()
    ensures NoteCount(Keys) == 14
  {
    var k1: seq<string> := ["caffeine"];
    var k2: seq<string> := ["caffeine", "l-theanine"];
    var k3: seq<string> := ["caffeine", "l-theanine", "ginseng"];
    assert Keys[..3] == k3 && k3[..2] == k2 && k2[..1] == k1 && k1[..0] == [];
    assert NoteCount(k1) == 4;
    assert NoteCount(k2) == 8;
    assert NoteCount(k3) == 12;
  }
}
