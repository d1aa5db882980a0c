/**
 * The compound catalog of the root tracker (NeuroDose.js): three compounds,
 * each with a half-life, a daily maximum and interaction notes keyed by the
 * other compound.
 */
module RootCatalog {
  import opened Text

  /** One interaction note: the other compound's key and the note text. */
  type Note = (string, string)

  datatype Compound = Compound(
    name: string,
    halfLife: real,
    color: string,
    maxDailyDose: real,
    interactionNotes: seq<Note>)

  /** `Object.keys(compounds)`, in declaration order. */
  const Keys: seq<string> := ["caffeine", "l-theanine", "ginseng"]

  /** `key` is one of the three catalog keys. */
  predicate IsKnown(key: string)
  {
    key == "caffeine" || key == "l-theanine" || key == "ginseng"
  }

  /** The known keys are exactly the entries of `Keys`. */
  lemma KnownKeys()
    ensures forall k :: k in Keys <==> IsKnown(k)
    ensures forall i :: 0 <= i < |Keys| ==> IsKnown(Keys[i])
  {
  }

  const Caffeine := Compound("Caffeine", 5.0, "#ff7f0e", 400.0,
    [("l-theanine", "Synergistic - May reduce jitters"),
     ("ginseng", "Use caution - May increase stimulant effects")])

  const LTheanine := Compound("L-Theanine", 3.0, "#2ca02c", 400.0,
    [("caffeine", "Synergistic - May reduce caffeine jitters"),
     ("ginseng", "Generally safe combination")])

  const Ginseng := Compound("Ginseng", 24.0, "#d62728", 400.0,
    [("caffeine", "Use caution - May increase stimulant effects"),
     ("l-theanine", "Generally safe combination")])

  /** `compounds[key]` for a key of the catalog. */
  function Lookup(key: string): Compound
    requires IsKnown(key)
  {
    if key == "caffeine" then Caffeine
    else if key == "l-theanine" then LTheanine
    else Ginseng
  }

  lemma CatalogWellFormed(key: string)
    requires IsKnown(key)
    ensures Lookup(key).halfLife > 0.0
    ensures Lookup(key).maxDailyDose == 400.0
  {
  }

  /** `interactionNotes[other]`: the text of the first note keyed `other`, or `undefined`. */
  function NoteFor(notes: seq<Note>, other: string): (r: Option<string>)
    ensures r.Some? <==> exists i :: 0 <= i < |notes| && notes[i].0 == other
    ensures r.Some? ==> exists i :: 0 <= i < |notes| && notes[i] == (other, r.value)
  {
    if notes == [] then None
    else if notes[0].0 == other then Some(notes[0].1)
    else
      assert forall i :: 1 <= i < |notes| ==> notes[i] == notes[1..][i - 1];
      NoteFor(notes[1..], other)
  }
}
