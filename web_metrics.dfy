/**
 * The dashboard metrics of the web tracker (neurodose/src/components/NeuroDose.js):
 * the three-level circadian alignment read off the sleep schedule, the count
 * of active synergistic interaction notes, and the count of compounds near
 * their daily maximum.
 */
module WebMetrics {
  import opened Text
  import opened WebCatalog

  // JavaScript compares a number with NaN as false in every direction.

  predicate AtLeast(x: int, y: Option<int>) { y.Some? && x >= y.value }

  predicate AtMost(x: int, y: Option<int>) { y.Some? && x <= y.value }

  predicate Below(x: int, y: Option<int>) { y.Some? && x < y.value }

  /** `parseInt(text.split(':')[0])`: the hour of an "HH:MM" schedule entry, or NaN. */
  function ScheduleHour(text: string): Option<int>
  {
    ParseInt(FirstField(text, ':'))
  }

  /**
   * `calculateCircadianAlignment` once the two hours are read: 1 between waking
   * and two hours before bedtime, 0 from bedtime on or before waking, 0.5
   * otherwise. The bounds are compared as plain integers, without wrapping
   * around midnight.
   */
  function Alignment(hour: int, sleepStartHour: Option<int>, sleepEndHour: Option<int>): (r: real)
    ensures r == 0.0 || r == 0.5 || r == 1.0
  {
    var optimalStart := sleepEndHour;
    var optimalEnd := if sleepStartHour.Some? then Some(sleepStartHour.value - 2) else None;
    if AtLeast(hour, optimalStart) && AtMost(hour, optimalEnd) then 1.0
    else if AtLeast(hour, sleepStartHour) || Below(hour, sleepEndHour) then 0.0
    else 0.5
  }

  /** `calculateCircadianAlignment()`: the alignment of `hour` with the "HH:MM" schedule entries. */
  function CircadianAlignment(hour: int, sleepStart: string, sleepEnd: string): (r: real)
    ensures r == 0.0 || r == 0.5 || r == 1.0
  {
    Alignment(hour, ScheduleHour(sleepStart), ScheduleHour(sleepEnd))
  }

  /** With both hours readable the metric is 1 exactly inside `[end, start - 2]`, which wins over the sleep test. */
  lemma AlignmentOptimalIff(hour: int, sleepStart: string, sleepEnd: string, s: int, e: int)
    requires ScheduleHour(sleepStart) == Some(s) && ScheduleHour(sleepEnd) == Some(e)
    ensures CircadianAlignment(hour, sleepStart, sleepEnd) == 1.0 <==> e <= hour <= s - 2
    ensures CircadianAlignment(hour, sleepStart, sleepEnd) == 0.0 <==> !(e <= hour <= s - 2) && (hour >= s || hour < e)
    ensures CircadianAlignment(hour, sleepStart, sleepEnd) == 0.5 <==> !(e <= hour <= s - 2) && e <= hour < s
  {
  }

  /** A cleared bedtime makes every comparison with it false, so the metric is never 1. */
  lemma AlignmentWithoutBedtime(hour: int, sleepEnd: string)
    ensures CircadianAlignment(hour, "", sleepEnd) != 1.0
    ensures CircadianAlignment(hour, "", sleepEnd) == (if Below(hour, ScheduleHour(sleepEnd)) then 0.0 else 0.5)
  {
    ParseEmptyIsNaN();
    assert CircadianAlignment(hour, "", sleepEnd) == Alignment(hour, None, ScheduleHour(sleepEnd));
  }

  /** A cleared wake-up time makes the optimal window start at NaN, so the metric is never 1, and it is 0 exactly from bedtime on. */
  lemma AlignmentWithoutWakeUp(hour: int, sleepStart: string)
    ensures CircadianAlignment(hour, sleepStart, "") != 1.0
    ensures CircadianAlignment(hour, sleepStart, "") == (if AtLeast(hour, ScheduleHour(sleepStart)) then 0.0 else 0.5)
  {
    ParseEmptyIsNaN();
    assert CircadianAlignment(hour, sleepStart, "") == Alignment(hour, ScheduleHour(sleepStart), None);
  }

  /** The hour of a two-digit "HH:MM" entry. */
  lemma ScheduleHourOfClock(h: int, minutes: string)
    requires 0 <= h <= 99
    ensures ScheduleHour(TwoDigits(h) + ":" + minutes) == Some(h)
  {
    ParseHourOfClockText(h, minutes);
  }

  /** The default schedule 22:00 to 06:00: 1 for hours 6 to 20, 0.5 at 21, 0 from 22 to 5. */
  lemma DefaultScheduleBands(hour: int)
    requires 0 <= hour <= 23
    ensures CircadianAlignment(hour, "22:00", "06:00")
         == if 6 <= hour <= 20 then 1.0 else if hour == 21 then 0.5 else 0.0
  {
    assert "22:00" == TwoDigits(22) + ":" + "00";
    assert "06:00" == TwoDigits(6) + ":" + "00";
    ScheduleHourOfClock(22, "00");
    ScheduleHourOfClock(6, "00");
    AlignmentOptimalIff(hour, "22:00", "06:00", 22, 6);
  }

  /** A schedule that does not cross midnight (sleep 01:00 to 09:00) still reports noon as sleep time. */
  lemma DaytimeSleepNoonIsSleep()
    ensures CircadianAlignment(12, "01:00", "09:00") == 0.0
  {
    assert "01:00" == TwoDigits(1) + ":" + "00";
    assert "09:00" == TwoDigits(9) + ":" + "00";
    ScheduleHourOfClock(1, "00");
    ScheduleHourOfClock(9, "00");
  }

  /** `currentLevels[key] > 0`; a key the object does not hold reads as `undefined`, which is not positive. */
  predicate Active(levels: map<string, real>, key: string)
  {
    key in levels && levels[key] > 0.0
  }

  /** One note counts when the other compound is active and the text contains "Synergistic". */
  function NoteHit(levels: map<string, real>, note: Note): nat
  {
    if Active(levels, note.0) && Contains(note.1, "Synergistic") then 1 else 0
  }

  /** The inner `reduce` over one compound's notes, in entry order, starting from `score`. */
  function NoteFold(notes: seq<Note>, levels: map<string, real>, score: nat): (r: nat)
    ensures score <= r <= score + |notes|
  {
    if notes == [] then score
    else NoteFold(notes[..|notes| - 1], levels, score) + NoteHit(levels, notes[|notes| - 1])
  }

  /** The outer `reduce` over the catalog keys, threading the score through each compound's notes. */
  function SynergyFold(keys: seq<string>, levels: map<string, real>): (r: nat)
    requires forall i :: 0 <= i < |keys| ==> IsKnown(keys[i])
    ensures r <= NoteCount(keys)
  {
    if keys == [] then 0
    else NoteFold(Lookup(keys[|keys| - 1]).interactionNotes, levels, SynergyFold(keys[..|keys| - 1], levels))
  }

  /** `synergisticScore`. */
  function SynergyScore(levels: map<string, real>): (r: nat)
    ensures r <= 14
  {
    CatalogNoteCount();
    SynergyFold(Keys, levels)
  }

  lemma NoteFoldOfFour(a: Note, b: Note, c: Note, d: Note, levels: map<string, real>, score: nat)
    ensures NoteFold([a, b, c, d], levels, score)
         == score + NoteHit(levels, a) + NoteHit(levels, b) + NoteHit(levels, c) + NoteHit(levels, d)
  {
    assert [a, b, c, d][..3] == [a, b, c];
    assert [a, b, c][..2] == [a, b];
    NoteFoldOfTwo(a, b, levels, score);
    assert NoteFold([a, b, c], levels, score) == NoteFold([a, b], levels, score) + NoteHit(levels, c);
  }

  lemma NoteFoldOfTwo(a: Note, b: Note, levels: map<string, real>, score: nat)
    ensures NoteFold([a, b], levels, score) == score + NoteHit(levels, a) + NoteHit(levels, b)
  {
    assert [a, b][..1] == [a];
    assert [a][..0] == [];
    assert NoteFold([a], levels, score) == NoteFold([], levels, score) + NoteHit(levels, a);
  }

  lemma SynergyFoldOfCatalog(levels: map<string, real>)
    ensures SynergyScore(levels)
         == NoteFold(Magnesium.interactionNotes, levels,
              NoteFold(Ginseng.interactionNotes, levels,
                NoteFold(LTheanine.interactionNotes, levels,
                  NoteFold(Caffeine.interactionNotes, levels, 0))))
  {
    var k1: seq<string> := ["caffeine"];
    var k2: seq<string> := ["caffeine", "l-theanine"];
    var k3: seq<string> := ["caffeine", "l-theanine", "ginseng"];
    assert Keys[..3] == k3 && k3[..2] == k2 && k2[..1] == k1 && k1[..0] == [];
    assert SynergyFold(k1, levels) == NoteFold(Caffeine.interactionNotes, levels, 0);
    assert SynergyFold(k2, levels) == NoteFold(LTheanine.interactionNotes, levels, SynergyFold(k1, levels));
    assert SynergyFold(k3, levels) == NoteFold(Ginseng.interactionNotes, levels, SynergyFold(k2, levels));
  }

  /** A text without an 'S' cannot contain "Synergistic". */
  lemma NoSynergyMarker(text: string)
    requires forall i :: 0 <= i < |text| ==> text[i] != 'S'
    ensures !Contains(text, "Synergistic")
  {
    NotContainsWithoutChar(text, "Synergistic", 0);
  }

  /** The catalog note texts that do not carry the marker. */
  lemma UnmarkedNoteTexts()
    ensures !Contains("Use caution - May increase stimulant effects", "Synergistic")
    ensures !Contains("Generally safe combination", "Synergistic")
    ensures !Contains("Complementary for energy and endurance", "Synergistic")
    ensures !Contains("Complementary for stress reduction", "Synergistic")
    ensures !Contains("Complementary adaptogenic effects", "Synergistic")
    ensures !Contains("May reduce caffeine-induced anxiety", "Synergistic")
  {
    NoSynergyMarker("Use caution - May increase stimulant effects");
    NoSynergyMarker("Generally safe combination");
    NoSynergyMarker("Complementary for energy and endurance");
    NoSynergyMarker("Complementary for stress reduction");
    NoSynergyMarker("Complementary adaptogenic effects");
    NoSynergyMarker("May reduce caffeine-induced anxiety");
  }

  /** A note naming a compound the snapshot cannot hold never counts. */
  lemma NoHitOnUnknownKey(levels: map<string, real>, note: Note)
    requires forall k :: k in levels ==> IsKnown(k)
    requires !IsKnown(note.0)
    ensures NoteHit(levels, note) == 0
  {
  }

  /** A synergistic note counts exactly when its compound is active. */
  lemma HitOfSynergisticNote(levels: map<string, real>, note: Note)
    requires MatchesAt(note.1, "Synergistic", 0)
    ensures NoteHit(levels, note) == if Active(levels, note.0) then 1 else 0
  {
    ContainsAt(note.1, "Synergistic", 0);
  }

  /** The fold over four notes whose hits are known. */
  lemma NoteFoldOfFourHits(notes: seq<Note>, levels: map<string, real>, score: nat, h0: nat, h1: nat, h2: nat, h3: nat)
    requires |notes| == 4
    requires NoteHit(levels, notes[0]) == h0 && NoteHit(levels, notes[1]) == h1
    requires NoteHit(levels, notes[2]) == h2 && NoteHit(levels, notes[3]) == h3
    ensures NoteFold(notes, levels, score) == score + h0 + h1 + h2 + h3
  {
    assert notes == [notes[0], notes[1], notes[2], notes[3]];
    NoteFoldOfFour(notes[0], notes[1], notes[2], notes[3], levels, score);
  }

  /** The hits of caffeine's four notes, one by one. */
  lemma CaffeineNoteHits(levels: map<string, real>)
    requires forall k :: k in levels ==> IsKnown(k)
    ensures |Caffeine.interactionNotes| == 4
    ensures NoteHit(levels, Caffeine.interactionNotes[0]) == if Active(levels, "l-theanine") then 1 else 0
    ensures NoteHit(levels, Caffeine.interactionNotes[1]) == 0
    ensures NoteHit(levels, Caffeine.interactionNotes[2]) == 0
    ensures NoteHit(levels, Caffeine.interactionNotes[3]) == 0
  {
    var c := Caffeine.interactionNotes;
    UnmarkedNoteTexts();
    assert c[0].0 == "l-theanine" && MatchesAt(c[0].1, "Synergistic", 0);
    HitOfSynergisticNote(levels, c[0]);
    assert c[1] == ("ginseng", "Use caution - May increase stimulant effects");
    assert c[2].0 == "rhodiola";
    NoHitOnUnknownKey(levels, c[2]);
    assert c[3] == ("cordyceps", "Complementary for energy and endurance");
    UnmarkedNoteTexts();
  }

  /** Of caffeine's notes only the one on l-theanine can count; rhodiola is not a catalog key. */
  lemma CaffeineNotesScore(levels: map<string, real>, score: nat)
    requires forall k :: k in levels ==> IsKnown(k)
    ensures NoteFold(Caffeine.interactionNotes, levels, score) == score + (if Active(levels, "l-theanine") then 1 else 0)
  {
    CaffeineNoteHits(levels);
    NoteFoldOfFourHits(Caffeine.interactionNotes, levels, score, if Active(levels, "l-theanine") then 1 else 0, 0, 0, 0);
  }

  /** The hits of l-theanine's four notes, one by one. */
  lemma TheanineNoteHits(levels: map<string, real>)
    requires forall k :: k in levels ==> IsKnown(k)
    ensures |LTheanine.interactionNotes| == 4
    ensures NoteHit(levels, LTheanine.interactionNotes[0]) == if Active(levels, "caffeine") then 1 else 0
    ensures NoteHit(levels, LTheanine.interactionNotes[1]) == 0
    ensures NoteHit(levels, LTheanine.interactionNotes[2]) == 0
    ensures NoteHit(levels, LTheanine.interactionNotes[3]) == 0
  {
    var l := LTheanine.interactionNotes;
    UnmarkedNoteTexts();
    assert l[0].0 == "caffeine" && MatchesAt(l[0].1, "Synergistic", 0);
    HitOfSynergisticNote(levels, l[0]);
    assert l[1] == ("ginseng", "Generally safe combination");
    assert l[2] == ("ashwagandha", "Complementary for stress reduction");
    assert l[3].0 == "magnolia";
    NoHitOnUnknownKey(levels, l[3]);
  }

  /** Of l-theanine's notes only the one on caffeine can count; magnolia is not a catalog key. */
  lemma TheanineNotesScore(levels: map<string, real>, score: nat)
    requires forall k :: k in levels ==> IsKnown(k)
    ensures NoteFold(LTheanine.interactionNotes, levels, score) == score + (if Active(levels, "caffeine") then 1 else 0)
  {
    TheanineNoteHits(levels);
    NoteFoldOfFourHits(LTheanine.interactionNotes, levels, score, if Active(levels, "caffeine") then 1 else 0, 0, 0, 0);
  }

  /** The hits of ginseng's four notes, one by one. */
  lemma GinsengNoteHits(levels: map<string, real>)
    requires forall k :: k in levels ==> IsKnown(k)
    ensures |Ginseng.interactionNotes| == 4
    ensures NoteHit(levels, Ginseng.interactionNotes[0]) == 0
    ensures NoteHit(levels, Ginseng.interactionNotes[1]) == 0
    ensures NoteHit(levels, Ginseng.interactionNotes[2]) == 0
    ensures NoteHit(levels, Ginseng.interactionNotes[3]) == 0
  {
    var g := Ginseng.interactionNotes;
    UnmarkedNoteTexts();
    assert g[0] == ("caffeine", "Use caution - May increase stimulant effects");
    assert g[1] == ("l-theanine", "Generally safe combination");
    assert g[2] == ("rhodiola", "Complementary adaptogenic effects");
    assert g[3].0 == "cordyceps";
    NoHitOnUnknownKey(levels, g[3]);
  }

  /** None of ginseng's notes can count: its only synergistic note names cordyceps. */
  lemma GinsengNotesScore(levels: map<string, real>, score: nat)
    requires forall k :: k in levels ==> IsKnown(k)
    ensures NoteFold(Ginseng.interactionNotes, levels, score) == score
  {
    GinsengNoteHits(levels);
    NoteFoldOfFourHits(Ginseng.interactionNotes, levels, score, 0, 0, 0, 0);
  }

  /** None of magnesium's notes can count: its synergistic note is keyed 'l_theanine'. */
  lemma MagnesiumNotesScore(levels: map<string, real>, score: nat)
    requires forall k :: k in levels ==> IsKnown(k)
    ensures NoteFold(Magnesium.interactionNotes, levels, score) == score
  {
    var n := Magnesium.interactionNotes;
    assert n == [n[0], n[1]];
    NoteFoldOfTwo(n[0], n[1], levels, score);
    assert n[0] == ("caffeine", "May reduce caffeine-induced anxiety");
    UnmarkedNoteTexts();
    assert n[1].0 == "l_theanine";
    NoHitOnUnknownKey(levels, n[1]);
  }

  /**
   * With a snapshot over catalog keys only, exactly two notes can count: the
   * caffeine note on l-theanine and the l-theanine note on caffeine. The notes
   * keyed rhodiola, cordyceps, magnolia and 'l_theanine' name no catalog key,
   * and the others do not contain "Synergistic".
   */
  lemma SynergyOfCatalogSnapshot(levels: map<string, real>)
    requires forall k :: k in levels ==> IsKnown(k)
    ensures SynergyScore(levels)
         == (if Active(levels, "l-theanine") then 1 else 0) + (if Active(levels, "caffeine") then 1 else 0)
  {
    SynergyFoldOfCatalog(levels);
    CaffeineNotesScore(levels, 0);
    var s1 := NoteFold(Caffeine.interactionNotes, levels, 0);
    TheanineNotesScore(levels, s1);
    var s2 := NoteFold(LTheanine.interactionNotes, levels, s1);
    GinsengNotesScore(levels, s2);
    MagnesiumNotesScore(levels, NoteFold(Ginseng.interactionNotes, levels, s2));
  }

  /** Caffeine and l-theanine together score 2: each one's note on the other counts. */
  lemma SynergyCaffeineWithTheanine(levels: map<string, real>)
    requires forall k :: k in levels ==> IsKnown(k)
    requires Active(levels, "caffeine") && Active(levels, "l-theanine")
    ensures SynergyScore(levels) == 2
  {
    SynergyOfCatalogSnapshot(levels);
  }

  /** The owning compound's own level is not checked: caffeine alone scores 1 through l-theanine's note on it. */
  lemma SynergyCaffeineAlone(levels: map<string, real>)
    requires forall k :: k in levels ==> IsKnown(k)
    requires Active(levels, "caffeine") && !Active(levels, "l-theanine")
    ensures SynergyScore(levels) == 1
  {
    SynergyOfCatalogSnapshot(levels);
  }

  /** `level > maxDaily * 0.8`. */
  predicate NearMax(levels: map<string, real>, key: string)
    requires IsKnown(key) && key in levels
  {
    levels[key] > Lookup(key).maxDailyDose * 0.8
  }

  /** The `reduce` over `Object.entries(currentLevels)`, whose keys are the catalog keys in order. */
  function ToleranceFold(keys: seq<string>, levels: map<string, real>): (r: nat)
    requires forall i :: 0 <= i < |keys| ==> IsKnown(keys[i]) && keys[i] in levels
    ensures r <= |keys|
  {
    if keys == [] then 0
    else ToleranceFold(keys[..|keys| - 1], levels) + (if NearMax(levels, keys[|keys| - 1]) then 1 else 0)
  }

  /** `toleranceRisk`. */
  function ToleranceRisk(levels: map<string, real>): (r: nat)
    requires forall k :: k in Keys ==> k in levels
    ensures r <= |Keys|
  {
    ToleranceFold(Keys, levels)
  }

  /** The count is 0 exactly when no compound is above 80% of its maximum. */
  lemma {:induction false} ToleranceFoldZeroIff(keys: seq<string>, levels: map<string, real>)
    requires forall i :: 0 <= i < |keys| ==> IsKnown(keys[i]) && keys[i] in levels
    ensures ToleranceFold(keys, levels) == 0 <==> forall i :: 0 <= i < |keys| ==> !NearMax(levels, keys[i])
    decreases |keys|
  {
    if keys != [] {
      var rest := keys[..|keys| - 1];
      ToleranceFoldZeroIff(rest, levels);
      assert forall i :: 0 <= i < |rest| ==> rest[i] == keys[i];
    }
  }

  /** The count is `|keys|` exactly when every compound is above 80% of its maximum. */
  lemma {:induction false} ToleranceFoldFullIff(keys: seq<string>, levels: map<string, real>)
    requires forall i :: 0 <= i < |keys| ==> IsKnown(keys[i]) && keys[i] in levels
    ensures ToleranceFold(keys, levels) == |keys| <==> forall i :: 0 <= i < |keys| ==> NearMax(levels, keys[i])
    decreases |keys|
  {
    if keys != [] {
      var rest := keys[..|keys| - 1];
      ToleranceFoldFullIff(rest, levels);
      assert forall i :: 0 <= i < |rest| ==> rest[i] == keys[i];
    }
  }

  /** Tolerance risk is in 0..4, 0 iff no compound is above 320 mg, 4 iff all are. */
  lemma ToleranceRiskBounds(levels: map<string, real>)
    requires forall k :: k in Keys ==> k in levels
    ensures ToleranceRisk(levels) <= 4
    ensures ToleranceRisk(levels) == 0 <==> forall k :: k in Keys ==> levels[k] <= 320.0
    ensures ToleranceRisk(levels) == 4 <==> forall k :: k in Keys ==> levels[k] > 320.0
  {
    ToleranceFoldZeroIff(Keys, levels);
    ToleranceFoldFullIff(Keys, levels);
    forall k | k in Keys ensures Lookup(k).maxDailyDose * 0.8 == 320.0 {
      CatalogWellFormed(k);
    }
  }

  /** The values shown on the Metrics tab. */
  datatype Metrics = Metrics(synergisticScore: nat, toleranceRisk: nat, circadianAlignment: real)
}
