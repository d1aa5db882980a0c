/**
 * The concentration engine of the web tracker
 * (neurodose/src/components/NeuroDose.js): the lumped absorption × half-life
 * curve of one dose, the superposed level of a compound, the snapshot of all
 * catalog levels, and the hourly chart sampler.
 */
module WebEngine {
  import opened Ledger
  import opened RealMath
  import opened WebCatalog
  import Superposition

  /** The single-dose curve with the parameters of compound `c`. */
  function DoseCurve(m: Transcendentals, c: Compound, d: Dose, t: int): (r: real)
    requires WellFormed(c)
    ensures t < d.timestamp ==> r == 0.0
  {
    var hoursDiff := HoursBetween(d.timestamp, t);
    if hoursDiff < 0.0 then 0.0
    else
      var absorptionFactor := 1.0 - m.exp(-hoursDiff / c.absorptionRate);
      var eliminationFactor := m.pow(0.5, hoursDiff / c.halfLife);
      d.amount * c.bioavailability * absorptionFactor * eliminationFactor
  }

  /** `calculateConcentration(dose, currentTime)`: the dose's active amount at instant `t`. */
  function CalculateConcentration(m: Transcendentals, d: Dose, t: int): (r: real)
    requires IsKnown(d.compound)
    ensures t < d.timestamp ==> r == 0.0
  {
    CatalogWellFormed(d.compound);
    DoseCurve(m, Lookup(d.compound), d, t)
  }

  /** At the dose instant the absorption factor `1 - e^0` is 0, so there is no jump. */
  lemma ConcentrationAtDoseInstant(m: Transcendentals, d: Dose)
    requires Lawful(m) && IsKnown(d.compound)
    ensures CalculateConcentration(m, d, d.timestamp) == 0.0
  {
    var c := Lookup(d.compound);
    CatalogWellFormed(d.compound);
    assert -HoursBetween(d.timestamp, d.timestamp) / c.absorptionRate == 0.0;
  }

  /** A non-negative dose contributes between 0 and `amount * bioavailability`. */
  lemma ConcentrationBounds(m: Transcendentals, d: Dose, t: int)
    requires Lawful(m) && IsKnown(d.compound) && d.amount >= 0.0
    ensures 0.0 <= CalculateConcentration(m, d, t) <= d.amount * Lookup(d.compound).bioavailability
  {
    var c := Lookup(d.compound);
    CatalogWellFormed(d.compound);
    var h := HoursBetween(d.timestamp, t);
    var x := d.amount * c.bioavailability;
    ScaleWithinUnit(d.amount, c.bioavailability);
    if h >= 0.0 {
      var e := m.exp(-h / c.absorptionRate);
      var p := m.pow(0.5, h / c.halfLife);
      assert -h / c.absorptionRate <= 0.0;
      assert 0.0 < e <= 1.0 && 0.0 < p <= 1.0;
      assert CalculateConcentration(m, d, t) == x * (1.0 - e) * p;
      ScaleWithinUnit(x, 1.0 - e);
      var y := x * (1.0 - e);
      assert 0.0 <= y <= x;
      ScaleWithinUnit(y, p);
      assert 0.0 <= y * p <= y;
      assert CalculateConcentration(m, d, t) == y * p;
      assert CalculateConcentration(m, d, t) <= x;
      assert x == d.amount * Lookup(d.compound).bioavailability;
    }
  }

  /** The concentration of every dose of a catalog compound at instant `t`. */
  function Curve(m: Transcendentals, t: int): (f: Dose -> real)
    ensures forall d: Dose :: IsKnown(d.compound) ==> f(d) == CalculateConcentration(m, d, t)
  {
    (d: Dose) => if IsKnown(d.compound) then CalculateConcentration(m, d, t) else 0.0
  }

  /** `doses.filter(d => d.compound === key).reduce((sum, d) => sum + calculateConcentration(d, t), 0)`. */
  function CompoundLevel(m: Transcendentals, doses: seq<Dose>, key: string, t: int): (r: real)
    requires IsKnown(key)
    ensures (forall i :: 0 <= i < |doses| ==> doses[i].compound != key) ==> r == 0.0
  {
    Superposition.Level(doses, key, Curve(m, t))
  }

  /** `currentLevels`: every catalog key mapped to its superposed level at `t`. */
  function LevelsAt(m: Transcendentals, doses: seq<Dose>, t: int): (levels: map<string, real>)
    ensures forall k :: k in levels <==> IsKnown(k)
    ensures forall k :: k in levels ==> levels[k] == CompoundLevel(m, doses, k, t)
  {
    Superposition.Snapshot(doses, Keys, Curve(m, t))
  }

  lemma LevelOfEmptyLedger(m: Transcendentals, key: string, t: int)
    requires IsKnown(key)
    ensures CompoundLevel(m, [], key, t) == 0.0
  {
  }

  /** Appending a dose adds exactly its concentration to its own compound's level, and 0 to the others. */
  lemma LevelAppend(m: Transcendentals, doses: seq<Dose>, d: Dose, key: string, t: int)
    requires IsKnown(key) && IsKnown(d.compound)
    ensures CompoundLevel(m, doses + [d], key, t)
         == CompoundLevel(m, doses, key, t) + (if d.compound == key then CalculateConcentration(m, d, t) else 0.0)
  {
    Superposition.LevelAppend(doses, d, key, Curve(m, t));
  }

  /** Doses of other compounds, wherever they are in the ledger, do not change a level. */
  lemma LevelIgnoresOtherCompound(m: Transcendentals, a: seq<Dose>, d: Dose, b: seq<Dose>, key: string, t: int)
    requires IsKnown(key) && d.compound != key
    ensures CompoundLevel(m, a + [d] + b, key, t) == CompoundLevel(m, a + b, key, t)
  {
    Superposition.LevelIgnoresOtherCompound(a, d, b, key, Curve(m, t));
  }

  /** A dose logged for `t` or later adds nothing to the level at `t`. */
  lemma LevelIgnoresDoseNotYetActive(m: Transcendentals, doses: seq<Dose>, d: Dose, key: string, t: int)
    requires Lawful(m) && IsKnown(key) && IsKnown(d.compound) && t <= d.timestamp
    ensures CompoundLevel(m, doses + [d], key, t) == CompoundLevel(m, doses, key, t)
  {
    LevelAppend(m, doses, d, key, t);
    if t == d.timestamp {
      ConcentrationAtDoseInstant(m, d);
    }
  }

  /** The level does not depend on the order of the ledger. */
  lemma LevelOrderIndependent(m: Transcendentals, a: seq<Dose>, b: seq<Dose>, key: string, t: int)
    requires IsKnown(key) && multiset(a) == multiset(b)
    ensures CompoundLevel(m, a, key, t) == CompoundLevel(m, b, key, t)
  {
    Superposition.LevelPermutation(a, b, key, Curve(m, t));
  }

  /** A ledger of non-negative amounts never gives a negative level. */
  lemma LevelNonNegative(m: Transcendentals, doses: seq<Dose>, key: string, t: int)
    requires Lawful(m) && IsKnown(key)
    requires forall i :: 0 <= i < |doses| ==> doses[i].amount >= 0.0
    ensures CompoundLevel(m, doses, key, t) >= 0.0
  {
    var f := Curve(m, t);
    var ds := Superposition.Filter(doses, key);
    Superposition.FilterExactly(doses, key);
    forall i | 0 <= i < |ds| ensures f(ds[i]) >= 0.0 {
      assert ds[i] in ds;
      ConcentrationBounds(m, ds[i], t);
    }
    Superposition.TotalNonNegative(ds, f);
  }

  /** With no doses every catalog key is at 0. */
  lemma LevelsAtEmptyLedger(m: Transcendentals, t: int)
    ensures LevelsAt(m, [], t) == map k | k in Keys :: 0.0
  {
    Superposition.SnapshotOfEmptyLedger(Keys, Curve(m, t));
  }

  /** Logging a dose raises the snapshot at its own key by its concentration and leaves the other keys. */
  lemma LevelsAtAppend(m: Transcendentals, doses: seq<Dose>, d: Dose, t: int)
    requires IsKnown(d.compound)
    ensures forall k :: k in Keys ==>
              LevelsAt(m, doses + [d], t)[k]
              == LevelsAt(m, doses, t)[k] + (if k == d.compound then CalculateConcentration(m, d, t) else 0.0)
  {
    forall k | k in Keys
      ensures LevelsAt(m, doses + [d], t)[k]
              == LevelsAt(m, doses, t)[k] + (if k == d.compound then CalculateConcentration(m, d, t) else 0.0)
    {
      LevelAppend(m, doses, d, k, t);
    }
  }

  /** A dose whose key is not in the catalog leaves the whole snapshot unchanged: the filter drops it before any curve. */
  lemma LevelsAtIgnoresUnknownDose(m: Transcendentals, doses: seq<Dose>, d: Dose, t: int)
    requires !IsKnown(d.compound)
    ensures LevelsAt(m, doses + [d], t) == LevelsAt(m, doses, t)
  {
    var longer := doses + [d];
    assert doses + [d] + [] == longer && doses + [] == doses;
    var after, before := LevelsAt(m, longer, t), LevelsAt(m, doses, t);
    forall k | k in before ensures k in after && after[k] == before[k] {
      LevelIgnoresOtherCompound(m, doses, d, [], k, t);
    }
    assert after.Keys == before.Keys;
  }

  /** Every chart row holds the snapshot at its own instant. */
  predicate Sampled(m: Transcendentals, doses: seq<Dose>, points: seq<TimePoint>)
  {
    forall i :: 0 <= i < |points| ==> points[i].levels == LevelsAt(m, doses, points[i].time)
  }

  lemma SampledAppend(m: Transcendentals, doses: seq<Dose>, points: seq<TimePoint>, p: TimePoint)
    requires Sampled(m, doses, points)
    requires p.levels == Superposition.Snapshot(doses, Keys, Curve(m, p.time))
    ensures Sampled(m, doses, points + [p])
  {
  }

  /**
   * `generateTimePoints()`: no doses gives no points; otherwise one point per
   * hour from the earliest dose until 24 hours after the latest, each holding
   * the superposed level of every catalog compound at that instant.
   */
  method GenerateTimePoints(m: Transcendentals, doses: seq<Dose>) returns (points: seq<TimePoint>)
    requires forall i :: 0 <= i < |doses| ==> IsKnown(doses[i].compound)
    ensures doses == [] ==> points == []
    ensures doses != [] ==> |points| == (Latest(doses) + DAY_MS - Earliest(doses)) / HOUR_MS + 1
    ensures doses != [] ==> Hourly(points, Earliest(doses), Latest(doses) + DAY_MS)
    ensures doses != [] ==>
              && |points| == |HourlyInstants(Earliest(doses), Latest(doses) + DAY_MS)|
              && forall i :: 0 <= i < |points| ==> points[i].time == HourlyInstants(Earliest(doses), Latest(doses) + DAY_MS)[i]
    ensures Sampled(m, doses, points)
  {
    if |doses| == 0 {
      return [];
    }
    var earliest := Earliest(doses);
    var latest := Latest(doses) + DAY_MS;
    EarliestNotAfterLatest(doses);
    KnownKeys();
    points := [];
    var current := earliest;
    while current <= latest
      invariant current == earliest + |points| * HOUR_MS
      invariant Hourly(points, earliest, latest)
      invariant Sampled(m, doses, points)
      decreases latest - current + HOUR_MS
    {
      var point := Superposition.SampleLevels(doses, Keys, Curve(m, current));
      SampledAppend(m, doses, points, TimePoint(current, point));
      HourlyAppend(points, TimePoint(current, point), earliest, latest);
      points := points + [TimePoint(current, point)];
      current := current + HOUR_MS;
    }
    HourlyRowsAreInstants(points, earliest, latest);
  }
}
