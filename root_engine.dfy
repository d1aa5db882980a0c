/**
 * The concentration engine of the root tracker (NeuroDose.js): plain
 * half-life decay of one dose, with no guard for doses later than the
 * evaluation instant; the superposed level of a compound; and the hourly
 * chart sampler over the three hard-coded compound keys.
 */
module RootEngine {
  import opened Ledger
  import opened RealMath
  import opened RootCatalog
  import Superposition

  /** `calculateConcentration(dose, currentTime)`: `amount * 0.5^(hours / halfLife)`. */
  function RootConcentration(m: Transcendentals, d: Dose, t: int): (r: real)
    requires IsKnown(d.compound)
    ensures Lawful(m) && t == d.timestamp ==> r == d.amount
  {
    CatalogWellFormed(d.compound);
    var hoursDiff := HoursBetween(d.timestamp, t);
    var halfLives := hoursDiff / Lookup(d.compound).halfLife;
    d.amount * m.pow(0.5, halfLives)
  }

  /** From the dose instant on, a positive dose contributes more than 0 and at most its amount. */
  lemma ConcentrationBounds(m: Transcendentals, d: Dose, t: int)
    requires Lawful(m) && IsKnown(d.compound) && d.amount > 0.0 && d.timestamp <= t
    ensures 0.0 < RootConcentration(m, d, t) <= d.amount
  {
    CatalogWellFormed(d.compound);
    var y := HoursBetween(d.timestamp, t) / Lookup(d.compound).halfLife;
    assert y >= 0.0;
    assert RootConcentration(m, d, t) == d.amount * m.pow(0.5, y);
    ScaleWithinOpenUnit(d.amount, m.pow(0.5, y));
  }

  /** Nothing clamps a dose logged after `t`: where `0.5^y` exceeds 1 for negative `y`, as the real power does,
      that dose already counts for more than its whole amount. */
  lemma FutureDoseNotClamped(m: Transcendentals, d: Dose, t: int)
    requires IsKnown(d.compound) && d.amount > 0.0 && t < d.timestamp
    requires forall y :: y < 0.0 ==> m.pow(0.5, y) > 1.0
    ensures RootConcentration(m, d, t) > d.amount
  {
    CatalogWellFormed(d.compound);
    var y := HoursBetween(d.timestamp, t) / Lookup(d.compound).halfLife;
    assert y < 0.0;
    var p := m.pow(0.5, y);
    assert RootConcentration(m, d, t) == d.amount * p;
    assert d.amount * p - d.amount == d.amount * (p - 1.0);
  }

  /** The concentration of every dose of a catalog compound at instant `t`. */
  function Curve(m: Transcendentals, t: int): (f: Dose -> real)
    ensures forall d: Dose :: IsKnown(d.compound) ==> f(d) == RootConcentration(m, d, t)
  {
    (d: Dose) => if IsKnown(d.compound) then RootConcentration(m, d, t) else 0.0
  }

  /** `doses.filter(d => d.compound === key).reduce((sum, d) => sum + calculateConcentration(d, t), 0)`. */
  function CompoundLevel(m: Transcendentals, doses: seq<Dose>, key: string, t: int): (r: real)
    requires IsKnown(key)
    ensures (forall i :: 0 <= i < |doses| ==> doses[i].compound != key) ==> r == 0.0
  {
    Superposition.Level(doses, key, Curve(m, t))
  }

  /** Every catalog key mapped to its superposed level at `t`. */
  function LevelsAt(m: Transcendentals, doses: seq<Dose>, t: int): (levels: map<string, real>)
    ensures forall k :: k in levels <==> IsKnown(k)
    ensures forall k :: k in levels ==> levels[k] == CompoundLevel(m, doses, k, t)
  {
    Superposition.Snapshot(doses, Keys, Curve(m, t))
  }

  lemma LevelOfEmptyLedger(m: Transcendentals, key: string, t: int)
    requires IsKnown(key)
    ensures CompoundLevel(m, [], key, t) == 0.0
  {
  }

  /** Appending a dose adds exactly its concentration to its own compound's level, and 0 to the others. */
  lemma LevelAppend(m: Transcendentals, doses: seq<Dose>, d: Dose, key: string, t: int)
    requires IsKnown(key) && IsKnown(d.compound)
    ensures CompoundLevel(m, doses + [d], key, t)
         == CompoundLevel(m, doses, key, t) + (if d.compound == key then RootConcentration(m, d, t) else 0.0)
  {
    Superposition.LevelAppend(doses, d, key, Curve(m, t));
  }

  /** A dose counts in full toward its own compound at its own instant. */
  lemma LevelAtOwnInstant(m: Transcendentals, doses: seq<Dose>, d: Dose)
    requires Lawful(m) && IsKnown(d.compound)
    ensures CompoundLevel(m, doses + [d], d.compound, d.timestamp) == CompoundLevel(m, doses, d.compound, d.timestamp) + d.amount
  {
    LevelAppend(m, doses, d, d.compound, d.timestamp);
  }

  /** One dose alone, at its own instant, is its full amount. */
  lemma LevelOfOneAtOwnInstant(m: Transcendentals, d: Dose)
    requires Lawful(m) && IsKnown(d.compound)
    ensures CompoundLevel(m, [d], d.compound, d.timestamp) == d.amount
  {
    LevelAtOwnInstant(m, [], d);
    assert [] + [d] == [d];
  }

  /** The same dose logged twice, at its own instant, is twice its amount. */
  lemma {:induction false} LevelOfTwoAtOwnInstant(m: Transcendentals, d: Dose)
    requires Lawful(m) && IsKnown(d.compound)
    ensures CompoundLevel(m, [d, d], d.compound, d.timestamp) == 2.0 * d.amount
  {
    var one: seq<Dose> := [d];
    var two: seq<Dose> := one + [d];
    assert two == [d, d];
    LevelOfOneAtOwnInstant(m, d);
    LevelAtOwnInstant(m, one, d);
    assert CompoundLevel(m, two, d.compound, d.timestamp) == d.amount + d.amount;
  }

  /** Doses of other compounds, wherever they are in the ledger, do not change a level. */
  lemma LevelIgnoresOtherCompound(m: Transcendentals, a: seq<Dose>, d: Dose, b: seq<Dose>, key: string, t: int)
    requires IsKnown(key) && d.compound != key
    ensures CompoundLevel(m, a + [d] + b, key, t) == CompoundLevel(m, a + b, key, t)
  {
    Superposition.LevelIgnoresOtherCompound(a, d, b, key, Curve(m, t));
  }

  /** The chart row's starting object, the three hard-coded keys at 0, is the snapshot of an empty ledger. */
  lemma InitialRowIsEmptySnapshot(m: Transcendentals, t: int)
    ensures map["caffeine" := 0.0, "l-theanine" := 0.0, "ginseng" := 0.0] == LevelsAt(m, [], t)
  {
    Superposition.SnapshotOfEmptyLedger(Keys, Curve(m, t));
  }

  /** Every chart row holds the snapshot at its own instant. */
  predicate Sampled(m: Transcendentals, doses: seq<Dose>, points: seq<TimePoint>)
  {
    forall i :: 0 <= i < |points| ==> points[i].levels == LevelsAt(m, doses, points[i].time)
  }

  lemma SampledAppend(m: Transcendentals, doses: seq<Dose>, points: seq<TimePoint>, p: TimePoint)
    requires Sampled(m, doses, points)
    requires p.levels == Superposition.Snapshot(doses, Keys, Curve(m, p.time))
    ensures Sampled(m, doses, points + [p])
  {
  }

  /**
   * `generateTimePoints()`: no doses gives no points; otherwise one point per
   * hour from the earliest dose until 24 hours after the latest, each holding
   * the superposed level of the three compounds at that instant.
   */
  method GenerateTimePoints(m: Transcendentals, doses: seq<Dose>) returns (points: seq<TimePoint>)
    requires forall i :: 0 <= i < |doses| ==> IsKnown(doses[i].compound)
    ensures doses == [] ==> points == []
    ensures doses != [] ==> |points| == (Latest(doses) + DAY_MS - Earliest(doses)) / HOUR_MS + 1
    ensures doses != [] ==> Hourly(points, Earliest(doses), Latest(doses) + DAY_MS)
    ensures doses != [] ==>
              && |points| == |HourlyInstants(Earliest(doses), Latest(doses) + DAY_MS)|
              && forall i :: 0 <= i < |points| ==> points[i].time == HourlyInstants(Earliest(doses), Latest(doses) + DAY_MS)[i]
    ensures Sampled(m, doses, points)
  {
    if |doses| == 0 {
      return [];
    }
    var earliest := Earliest(doses);
    var latest := Latest(doses) + DAY_MS;
    EarliestNotAfterLatest(doses);
    KnownKeys();
    points := [];
    var current := earliest;
    while current <= latest
      invariant current == earliest + |points| * HOUR_MS
      invariant Hourly(points, earliest, latest)
      invariant Sampled(m, doses, points)
      decreases latest - current + HOUR_MS
    {
      var point := Superposition.SampleLevels(doses, Keys, Curve(m, current));
      SampledAppend(m, doses, points, TimePoint(current, point));
      HourlyAppend(points, TimePoint(current, point), earliest, latest);
      points := points + [TimePoint(current, point)];
      current := current + HOUR_MS;
    }
    HourlyRowsAreInstants(points, earliest, latest);
  }
}
