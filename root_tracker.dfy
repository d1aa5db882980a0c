/**
 * The state and the checks of the root tracker (NeuroDose.js): the dose
 * ledger with its daily-maximum admission gate, and the pairwise interaction
 * warnings for compounds that are active together.
 */
module RootTracker {
  import opened Text
  import opened Ledger
  import opened RealMath
  import opened RootCatalog
  import opened RootEngine
  import opened ForEach

  /**
   * The gate of `addDose`: the same-compound level at the new dose's instant
   * plus the new amount is strictly above the compound's daily maximum.
   */
  predicate ExceedsDailyMax(m: Transcendentals, doses: seq<Dose>, d: Dose)
    requires IsKnown(d.compound)
    ensures (forall i :: 0 <= i < |doses| ==> doses[i].compound != d.compound) ==>
              (ExceedsDailyMax(m, doses, d) <==> d.amount > Lookup(d.compound).maxDailyDose)
  {
    CompoundLevel(m, doses, d.compound, d.timestamp) + d.amount > Lookup(d.compound).maxDailyDose
  }

  /** Reaching the maximum exactly is accepted. */
  lemma ExactMaximumAccepted(m: Transcendentals, doses: seq<Dose>, d: Dose)
    requires IsKnown(d.compound)
    requires CompoundLevel(m, doses, d.compound, d.timestamp) + d.amount == Lookup(d.compound).maxDailyDose
    ensures !ExceedsDailyMax(m, doses, d)
  {
  }

  /** On an empty ledger only the new amount is compared with the maximum. */
  lemma GateOnEmptyLedger(m: Transcendentals, d: Dose)
    requires IsKnown(d.compound)
    ensures ExceedsDailyMax(m, [], d) <==> d.amount > 400.0
  {
    LevelOfEmptyLedger(m, d.compound, d.timestamp);
    CatalogWellFormed(d.compound);
  }

  /** Doses of other compounds never affect the gate. */
  lemma GateIgnoresOtherCompound(m: Transcendentals, a: seq<Dose>, o: Dose, b: seq<Dose>, d: Dose)
    requires IsKnown(d.compound) && o.compound != d.compound
    ensures ExceedsDailyMax(m, a + [o] + b, d) <==> ExceedsDailyMax(m, a + b, d)
  {
    LevelIgnoresOtherCompound(m, a, o, b, d.compound, d.timestamp);
  }

  /** One 200 mg caffeine dose already at instant `t` leaves room for a second one there. */
  lemma SecondDoseAtSameInstant(m: Transcendentals, t: int)
    requires Lawful(m)
    ensures !ExceedsDailyMax(m, [Dose("caffeine", 200.0, t)], Dose("caffeine", 200.0, t))
  {
    CatalogWellFormed("caffeine");
    LevelOfOneAtOwnInstant(m, Dose("caffeine", 200.0, t));
  }

  /** Two 200 mg caffeine doses at instant `t` reach the 400 mg maximum there. */
  lemma ThirdDoseAtSameInstant(m: Transcendentals, t: int)
    requires Lawful(m)
    ensures ExceedsDailyMax(m, [Dose("caffeine", 200.0, t), Dose("caffeine", 200.0, t)], Dose("caffeine", 1.0, t))
  {
    CatalogWellFormed("caffeine");
    LevelOfTwoAtOwnInstant(m, Dose("caffeine", 200.0, t));
  }

  /**
   * Two 200 mg caffeine doses logged for the same instant are both accepted,
   * reaching 400 mg, and a third 1 mg dose at that instant is refused.
   */
  lemma GateAtSameInstant(m: Transcendentals, t: int)
    requires Lawful(m)
    ensures !ExceedsDailyMax(m, [], Dose("caffeine", 200.0, t))
    ensures !ExceedsDailyMax(m, [Dose("caffeine", 200.0, t)], Dose("caffeine", 200.0, t))
    ensures ExceedsDailyMax(m, [Dose("caffeine", 200.0, t), Dose("caffeine", 200.0, t)], Dose("caffeine", 1.0, t))
  {
    GateOnEmptyLedger(m, Dose("caffeine", 200.0, t));
    SecondDoseAtSameInstant(m, t);
    ThirdDoseAtSameInstant(m, t);
  }

  /** `` `${name} + ${otherName}: ${note}` ``. */
  function WarningText(a: string, b: string, note: string): string
    requires IsKnown(a) && IsKnown(b)
  {
    Lookup(a).name + " + " + Lookup(b).name + ": " + note
  }

  /** The note of `a` on a distinct compound `b`, when it mentions "caution". */
  function CautionNote(a: string, b: string): Option<string>
    requires IsKnown(a) && IsKnown(b)
  {
    if a == b then None
    else match NoteFor(Lookup(a).interactionNotes, b)
      case Some(note) => if Contains(note, "caution") then Some(note) else None
      case None => None
  }

  /** The inner check for the ordered pair `(a, b)`: `b` active, distinct, and a note of `a` on `b` mentioning "caution". */
  function PairWarning(levels: map<string, real>, a: string, b: string): seq<string>
    requires IsKnown(a) && IsKnown(b) && b in levels
  {
    if levels[b] > 0.0 then
      match CautionNote(a, b)
      case Some(note) => [WarningText(a, b, note)]
      case None => []
    else []
  }

  /** The inner check of the outer compound `a`, for each entry of `currentLevels`. */
  function PairChecks(levels: map<string, real>, a: string): (f: string -> seq<string>)
    requires IsKnown(a)
    ensures forall b :: IsKnown(b) && b in levels ==> f(b) == PairWarning(levels, a, b)
  {
    (b: string) => if IsKnown(b) && b in levels then PairWarning(levels, a, b) else []
  }

  /** The inner `forEach` over the entries of `currentLevels` for the outer compound `a`. */
  function InnerWarnings(levels: map<string, real>, a: string, others: seq<string>): seq<string>
    requires IsKnown(a)
  {
    ConcatMap(PairChecks(levels, a), others)
  }

  /** The outer check: an active compound contributes its inner warnings over all of `inner`. */
  function OuterChecks(levels: map<string, real>, inner: seq<string>): (f: string -> seq<string>)
    ensures forall a :: IsKnown(a) && a in levels ==>
              f(a) == if levels[a] > 0.0 then InnerWarnings(levels, a, inner) else []
  {
    (a: string) => if IsKnown(a) && a in levels && levels[a] > 0.0 then InnerWarnings(levels, a, inner) else []
  }

  /** The outer `forEach` over `outer`. */
  function OuterWarnings(levels: map<string, real>, outer: seq<string>, inner: seq<string>): seq<string>
  {
    ConcatMap(OuterChecks(levels, inner), outer)
  }

  /** With no active compound the outer walk pushes nothing. */
  lemma InactiveOuterWarnings(levels: map<string, real>)
    ensures (forall k :: k in levels ==> levels[k] <= 0.0) ==> OuterWarnings(levels, Keys, Keys) == []
  {
    ConcatMapOfThree(OuterChecks(levels, Keys), "caffeine", "l-theanine", "ginseng");
  }

  /** The list `checkInteractions` returns, for the snapshot `levels`. */
  function InteractionWarnings(levels: map<string, real>): (r: seq<string>)
    ensures (forall k :: k in levels ==> levels[k] <= 0.0) ==> r == []
  {
    InactiveOuterWarnings(levels);
    OuterWarnings(levels, Keys, Keys)
  }

  /** The pair check fires exactly for distinct compounds, the second active, with a "caution" note. */
  lemma PairWarningIff(levels: map<string, real>, a: string, b: string)
    requires IsKnown(a) && IsKnown(b) && b in levels
    ensures PairWarning(levels, a, b) != [] <==>
              levels[b] > 0.0 && a != b && NoteFor(Lookup(a).interactionNotes, b).Some?
              && Contains(NoteFor(Lookup(a).interactionNotes, b).value, "caution")
    ensures PairWarning(levels, a, b) != [] ==>
              PairWarning(levels, a, b) == [WarningText(a, b, NoteFor(Lookup(a).interactionNotes, b).value)]
  {
  }

  lemma StimulantCautionMentionsCaution()
    ensures Contains(StimulantCaution, "caution")
  {
    assert MatchesAt(StimulantCaution, "caution", 4);
  }

  /** A text without an 'o' cannot contain "caution". */
  lemma NoCautionMarker(text: string)
    requires forall i :: 0 <= i < |text| ==> text[i] != 'o'
    ensures !Contains(text, "caution")
  {
    NotContainsWithoutChar(text, "caution", 5);
  }

  /** The catalog note texts that do not mention caution. */
  lemma UncautionedNoteTexts()
    ensures !Contains("Synergistic - May reduce jitters", "caution")
    ensures !Contains("Synergistic - May reduce caffeine jitters", "caution")
    ensures !Contains("Generally safe combination", "caution")
  {
    NoCautionMarker("Synergistic - May reduce jitters");
    NoCautionMarker("Synergistic - May reduce caffeine jitters");
    NotContainsWithoutChar("Generally safe combination", "caution", 2);
  }

  lemma NoteForOfTwo(x: Note, y: Note, other: string)
    ensures NoteFor([x, y], other) == if x.0 == other then Some(x.1) else if y.0 == other then Some(y.1) else None
  {
    assert [x, y][1..] == [y];
    assert [y][1..] == [];
  }

  lemma OuterOfCatalog(levels: map<string, real>)
    requires forall k :: k in Keys ==> k in levels
    ensures InteractionWarnings(levels)
         == (if levels["caffeine"] > 0.0 then InnerWarnings(levels, "caffeine", Keys) else [])
          + (if levels["l-theanine"] > 0.0 then InnerWarnings(levels, "l-theanine", Keys) else [])
          + (if levels["ginseng"] > 0.0 then InnerWarnings(levels, "ginseng", Keys) else [])
  {
    ConcatMapOfThree(OuterChecks(levels, Keys), "caffeine", "l-theanine", "ginseng");
  }

  /** The note caffeine and ginseng hold on each other. */
  const StimulantCaution := "Use caution - May increase stimulant effects"

  /** "Caffeine + Ginseng: Use caution - May increase stimulant effects". */
  const CaffeineGinsengWarning := WarningText("caffeine", "ginseng", StimulantCaution)

  /** "Ginseng + Caffeine: Use caution - May increase stimulant effects". */
  const GinsengCaffeineWarning := WarningText("ginseng", "caffeine", StimulantCaution)

  /** Caffeine's only "caution" note is the one on ginseng. */
  lemma CaffeineCautionNotes()
    ensures CautionNote("caffeine", "caffeine") == None
    ensures CautionNote("caffeine", "l-theanine") == None
    ensures CautionNote("caffeine", "ginseng") == Some(StimulantCaution)
  {
    assert "caffeine" in Keys && "l-theanine" in Keys && "ginseng" in Keys;
    assert Lookup("caffeine") == Caffeine;
    var notes := Caffeine.interactionNotes;
    NoteForOfTwo(notes[0], notes[1], "l-theanine");
    NoteForOfTwo(notes[0], notes[1], "ginseng");
    assert notes == [notes[0], notes[1]];
    UncautionedNoteTexts();
    StimulantCautionMentionsCaution();
  }

  /** Neither of l-theanine's notes mentions "caution". */
  lemma TheanineCautionNotes()
    ensures CautionNote("l-theanine", "caffeine") == None
    ensures CautionNote("l-theanine", "l-theanine") == None
    ensures CautionNote("l-theanine", "ginseng") == None
  {
    assert "caffeine" in Keys && "l-theanine" in Keys && "ginseng" in Keys;
    assert Lookup("l-theanine") == LTheanine;
    var notes := LTheanine.interactionNotes;
    NoteForOfTwo(notes[0], notes[1], "caffeine");
    NoteForOfTwo(notes[0], notes[1], "ginseng");
    assert notes == [notes[0], notes[1]];
    UncautionedNoteTexts();
  }

  /** Ginseng's only "caution" note is the one on caffeine. */
  lemma GinsengCautionNotes()
    ensures CautionNote("ginseng", "caffeine") == Some(StimulantCaution)
    ensures CautionNote("ginseng", "l-theanine") == None
    ensures CautionNote("ginseng", "ginseng") == None
  {
    assert "caffeine" in Keys && "l-theanine" in Keys && "ginseng" in Keys;
    assert Lookup("ginseng") == Ginseng;
    var notes := Ginseng.interactionNotes;
    NoteForOfTwo(notes[0], notes[1], "caffeine");
    NoteForOfTwo(notes[0], notes[1], "l-theanine");
    assert notes == [notes[0], notes[1]];
    StimulantCautionMentionsCaution();
    UncautionedNoteTexts();
  }

  /** With caffeine as the outer compound only its "Use caution" note on ginseng can fire. */
  lemma CaffeineInnerWarnings(levels: map<string, real>)
    requires forall k :: k in Keys ==> k in levels
    ensures InnerWarnings(levels, "caffeine", Keys) == if levels["ginseng"] > 0.0 then [CaffeineGinsengWarning] else []
  {
    ConcatMapOfThree(PairChecks(levels, "caffeine"), "caffeine", "l-theanine", "ginseng");
    CaffeineCautionNotes();
  }

  /** With l-theanine as the outer compound nothing fires: neither of its notes mentions "caution". */
  lemma TheanineInnerWarnings(levels: map<string, real>)
    requires forall k :: k in Keys ==> k in levels
    ensures InnerWarnings(levels, "l-theanine", Keys) == []
  {
    ConcatMapOfThree(PairChecks(levels, "l-theanine"), "caffeine", "l-theanine", "ginseng");
    TheanineCautionNotes();
  }

  /** With ginseng as the outer compound only its "Use caution" note on caffeine can fire. */
  lemma GinsengInnerWarnings(levels: map<string, real>)
    requires forall k :: k in Keys ==> k in levels
    ensures InnerWarnings(levels, "ginseng", Keys) == if levels["caffeine"] > 0.0 then [GinsengCaffeineWarning] else []
  {
    ConcatMapOfThree(PairChecks(levels, "ginseng"), "caffeine", "l-theanine", "ginseng");
    GinsengCautionNotes();
  }

  /** Caffeine's outer check: its warning on ginseng when both are active. */
  lemma CaffeineOuterCheck(levels: map<string, real>)
    requires forall k :: k in Keys ==> k in levels
    ensures OuterChecks(levels, Keys)("caffeine")
         == if levels["caffeine"] > 0.0 && levels["ginseng"] > 0.0 then [CaffeineGinsengWarning] else []
  {
    assert "caffeine" in Keys;
    assert OuterChecks(levels, Keys)("caffeine") == if levels["caffeine"] > 0.0 then InnerWarnings(levels, "caffeine", Keys) else [];
    CaffeineInnerWarnings(levels);
  }

  /** L-theanine's outer check never warns. */
  lemma TheanineOuterCheck(levels: map<string, real>)
    requires forall k :: k in Keys ==> k in levels
    ensures OuterChecks(levels, Keys)("l-theanine") == []
  {
    assert "l-theanine" in Keys;
    assert OuterChecks(levels, Keys)("l-theanine") == if levels["l-theanine"] > 0.0 then InnerWarnings(levels, "l-theanine", Keys) else [];
    TheanineInnerWarnings(levels);
  }

  /** Ginseng's outer check: its warning on caffeine when both are active. */
  lemma GinsengOuterCheck(levels: map<string, real>)
    requires forall k :: k in Keys ==> k in levels
    ensures OuterChecks(levels, Keys)("ginseng")
         == if levels["caffeine"] > 0.0 && levels["ginseng"] > 0.0 then [GinsengCaffeineWarning] else []
  {
    assert "ginseng" in Keys;
    assert OuterChecks(levels, Keys)("ginseng") == if levels["ginseng"] > 0.0 then InnerWarnings(levels, "ginseng", Keys) else [];
    GinsengInnerWarnings(levels);
  }

  /** The outer walk over three compounds when only the first and third warn, both under the same condition. */
  lemma CombineOuter<T>(both: bool, x: T, y: T, c: seq<T>, l: seq<T>, g: seq<T>, total: seq<T>)
    requires c == (if both then [x] else []) && l == [] && g == (if both then [y] else [])
    requires total == c + l + g
    ensures total == if both then [x, y] else []
  {
  }

  /**
   * The whole warning list of the catalog: exactly the two "caution" warnings,
   * caffeine's first, when caffeine and ginseng are both active, whatever
   * l-theanine's level; otherwise nothing.
   */
  lemma InteractionWarningsOfCatalog(levels: map<string, real>)
    requires forall k :: k in Keys ==> k in levels
    ensures InteractionWarnings(levels)
         == if levels["caffeine"] > 0.0 && levels["ginseng"] > 0.0
            then [CaffeineGinsengWarning, GinsengCaffeineWarning] else []
  {
    var f := OuterChecks(levels, Keys);
    ConcatMapOfThree(f, "caffeine", "l-theanine", "ginseng");
    assert InteractionWarnings(levels) == ConcatMap(f, ["caffeine", "l-theanine", "ginseng"]);
    CaffeineOuterCheck(levels);
    TheanineOuterCheck(levels);
    GinsengOuterCheck(levels);
    CombineOuter(levels["caffeine"] > 0.0 && levels["ginseng"] > 0.0, CaffeineGinsengWarning, GinsengCaffeineWarning,
                 f("caffeine"), f("l-theanine"), f("ginseng"), InteractionWarnings(levels));
  }

  /** L-theanine and ginseng together, without caffeine, give no warning. */
  lemma TheanineWithGinsengNoWarning(levels: map<string, real>)
    requires forall k :: k in Keys ==> k in levels
    requires levels["caffeine"] <= 0.0
    ensures InteractionWarnings(levels) == []
  {
    InteractionWarningsOfCatalog(levels);
  }

  /** With at most one active compound there is no warning. */
  lemma FewerThanTwoActiveNoWarning(levels: map<string, real>)
    requires forall k :: k in Keys ==> k in levels
    requires forall a, b :: a in Keys && b in Keys && a != b ==> !(levels[a] > 0.0 && levels[b] > 0.0)
    ensures InteractionWarnings(levels) == []
  {
    InteractionWarningsOfCatalog(levels);
    assert "caffeine" in Keys && "ginseng" in Keys;
  }

  /** The body of the inner `forEach` for the pair `(compound, otherCompound)`. */
  method PairCheck(levels: map<string, real>, compound: string, otherCompound: string) returns (pushed: seq<string>)
    requires IsKnown(compound) && IsKnown(otherCompound) && otherCompound in levels
    ensures pushed == PairWarning(levels, compound, otherCompound)
  {
    pushed := [];
    if levels[otherCompound] > 0.0 && compound != otherCompound {
      var interaction := NoteFor(Lookup(compound).interactionNotes, otherCompound);
      if interaction.Some? && Contains(interaction.value, "caution") {
        pushed := [WarningText(compound, otherCompound, interaction.value)];
      }
    }
  }

  /** The inner `forEach` for an active `compound`: each applicable pair pushes its warning. */
  method PushPairWarnings(levels: map<string, real>, compound: string, warnings: seq<string>) returns (out: seq<string>)
    requires IsKnown(compound)
    requires forall k :: k in Keys ==> k in levels
    ensures out == warnings + InnerWarnings(levels, compound, Keys)
  {
    out := warnings;
    KnownKeys();
    ghost var f := PairChecks(levels, compound);
    var j := 0;
    while j < |Keys|
      invariant 0 <= j <= |Keys|
      invariant out == warnings + ConcatMap(f, Keys[..j])
    {
      var pushed := PairCheck(levels, compound, Keys[j]);
      PushStep(f, Keys, j, warnings, out, pushed);
      out := out + pushed;
      j := j + 1;
    }
    Superposition.PrefixAll(Keys);
  }

  /** The body of the outer `forEach` for `compound`: the inner walk runs only when it is active. */
  method VisitCompound(levels: map<string, real>, compound: string, warnings: seq<string>) returns (out: seq<string>)
    requires IsKnown(compound)
    requires forall k :: k in Keys ==> k in levels
    ensures out == warnings + OuterChecks(levels, Keys)(compound)
  {
    out := warnings;
    if levels[compound] > 0.0 {
      out := PushPairWarnings(levels, compound, warnings);
    }
  }

  /** An empty ledger gives no warning: every level is 0. */
  lemma NoWarningsOnEmptyLedger(m: Transcendentals, now: int)
    ensures InteractionWarnings(LevelsAt(m, [], now)) == []
  {
    LevelOfEmptyLedger(m, "caffeine", now);
    InteractionWarningsOfCatalog(LevelsAt(m, [], now));
  }

  /** The outer `forEach` of `checkInteractions` over the entries of `currentLevels`, in key order. */
  method WarningsFor(levels: map<string, real>) returns (warnings: seq<string>)
    requires forall k :: k in Keys ==> k in levels
    ensures warnings == InteractionWarnings(levels)
  {
    warnings := [];
    KnownKeys();
    ghost var f := OuterChecks(levels, Keys);
    var i := 0;
    while i < |Keys|
      invariant 0 <= i <= |Keys|
      invariant warnings == [] + ConcatMap(f, Keys[..i])
    {
      PushStep(f, Keys, i, [], warnings, f(Keys[i]));
      warnings := VisitCompound(levels, Keys[i], warnings);
      i := i + 1;
    }
    Superposition.PrefixAll(Keys);
  }

  /** The React state of the root tracker: the dose ledger. */
  class Tracker {
    var doses: seq<Dose>

    constructor ()
      ensures doses == []
    {
      doses := [];
    }

    /**
     * `addDose`: refused (the alert) exactly when the gate says the daily
     * maximum would be exceeded, leaving the ledger as it was; otherwise the
     * dose is appended at the end.
     */
    method AddDose(m: Transcendentals, d: Dose) returns (alerted: bool)
      requires IsKnown(d.compound)
      modifies this
      ensures alerted == ExceedsDailyMax(m, old(doses), d)
      ensures doses == if alerted then old(doses) else old(doses) + [d]
    {
      var compound := Lookup(d.compound);
      var existingAmount := CompoundLevel(m, doses, d.compound, d.timestamp);
      if existingAmount + d.amount > compound.maxDailyDose {
        return true;
      }
      doses := doses + [d];
      return false;
    }

    /** `checkInteractions()` at `now`. */
    method CheckInteractions(m: Transcendentals, now: int) returns (warnings: seq<string>)
      ensures warnings == InteractionWarnings(LevelsAt(m, doses, now))
    {
      var currentLevels := Superposition.LevelsOf(doses, Keys, Curve(m, now));
      warnings := WarningsFor(currentLevels);
    }
  }
}
