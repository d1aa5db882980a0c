/**
 * The state of the web tracker (neurodose/src/components/NeuroDose.js): the
 * dose ledger, the accumulated notifications, the sleep schedule, the
 * per-compound thresholds and the last metrics, with the operations that
 * change them: Add Dose, one notification tick and one metrics tick.
 */
module WebTracker {
  import opened Ledger
  import opened RealMath
  import opened WebCatalog
  import opened WebEngine
  import opened WebMetrics
  import opened ForEach

  /** One notification of the tick, before it is rendered as text. */
  datatype Notice = BelowThreshold(compound: string) | ExceedsMaxDailyDose(compound: string)

  /** The notices for one compound: "below" when under its threshold, then "exceeds" when over its daily maximum. */
  function NoticesFor(key: string, level: real, thresholds: map<string, real>): (r: seq<Notice>)
    requires IsKnown(key)
    ensures forall i :: 0 <= i < |r| ==> r[i].compound == key
  {
    (if key in thresholds && level < thresholds[key] then [BelowThreshold(key)] else [])
    + (if level > Lookup(key).maxDailyDose then [ExceedsMaxDailyDose(key)] else [])
  }

  /** The two checks of the tick for each catalog key, at instant `now`. */
  function KeyNotices(m: Transcendentals, doses: seq<Dose>, now: int, thresholds: map<string, real>): (f: string -> seq<Notice>)
    ensures forall k :: IsKnown(k) ==> f(k) == NoticesFor(k, CompoundLevel(m, doses, k, now), thresholds)
  {
    (k: string) => if IsKnown(k) then NoticesFor(k, CompoundLevel(m, doses, k, now), thresholds) else []
  }

  /** Every notice of the walk over `keys` names one of `keys`, at most two per key. */
  lemma {:induction false} KeyNoticesShape(m: Transcendentals, doses: seq<Dose>, now: int, keys: seq<string>, thresholds: map<string, real>)
    requires forall i :: 0 <= i < |keys| ==> IsKnown(keys[i])
    ensures |ConcatMap(KeyNotices(m, doses, now, thresholds), keys)| <= 2 * |keys|
    ensures forall i :: 0 <= i < |ConcatMap(KeyNotices(m, doses, now, thresholds), keys)| ==>
              ConcatMap(KeyNotices(m, doses, now, thresholds), keys)[i].compound in keys
    decreases |keys|
  {
    if keys != [] {
      var f := KeyNotices(m, doses, now, thresholds);
      var rest := keys[..|keys| - 1];
      var last := keys[|keys| - 1];
      KeyNoticesShape(m, doses, now, rest, thresholds);
      var p: seq<Notice> := ConcatMap(f, rest);
      var q: seq<Notice> := f(last);
      assert ConcatMap(f, keys) == p + q;
      forall i | 0 <= i < |p| + |q| ensures (p + q)[i].compound in keys {
        if i < |p| {
          assert p[i].compound in rest;
        } else {
          assert (p + q)[i] == q[i - |p|];
        }
      }
    }
  }

  /** The notices of one tick over `keys`, in key order. */
  function TickNotices(m: Transcendentals, doses: seq<Dose>, now: int, keys: seq<string>, thresholds: map<string, real>): (r: seq<Notice>)
    requires forall i :: 0 <= i < |keys| ==> IsKnown(keys[i])
    ensures |r| <= 2 * |keys|
    ensures forall i :: 0 <= i < |r| ==> r[i].compound in keys && IsKnown(r[i].compound)
  {
    KeyNoticesShape(m, doses, now, keys, thresholds);
    ConcatMap(KeyNotices(m, doses, now, thresholds), keys)
  }

  /** The tick over one more key at the end adds that key's notices. */
  lemma TickNoticesAppend(m: Transcendentals, doses: seq<Dose>, now: int, keys: seq<string>, thresholds: map<string, real>, k: string)
    requires forall i :: 0 <= i < |keys| ==> IsKnown(keys[i])
    requires IsKnown(k)
    ensures TickNotices(m, doses, now, keys + [k], thresholds)
         == TickNotices(m, doses, now, keys, thresholds) + NoticesFor(k, CompoundLevel(m, doses, k, now), thresholds)
  {
    ConcatMapAppend(KeyNotices(m, doses, now, thresholds), keys, k);
  }

  /** A compound is reported below threshold exactly when its level is strictly under a threshold it has. */
  lemma {:induction false} BelowThresholdIff(m: Transcendentals, doses: seq<Dose>, now: int, keys: seq<string>, thresholds: map<string, real>, k: string)
    requires forall i :: 0 <= i < |keys| ==> IsKnown(keys[i])
    ensures BelowThreshold(k) in TickNotices(m, doses, now, keys, thresholds)
        <==> k in keys && k in thresholds && CompoundLevel(m, doses, k, now) < thresholds[k]
    decreases |keys|
  {
    if keys != [] {
      var rest := keys[..|keys| - 1];
      assert keys == rest + [keys[|keys| - 1]];
      BelowThresholdIff(m, doses, now, rest, thresholds, k);
    }
  }

  /** A compound is reported over its maximum exactly when its level is strictly above `maxDailyDose`. */
  lemma {:induction false} ExceedsMaxIff(m: Transcendentals, doses: seq<Dose>, now: int, keys: seq<string>, thresholds: map<string, real>, k: string)
    requires forall i :: 0 <= i < |keys| ==> IsKnown(keys[i])
    ensures ExceedsMaxDailyDose(k) in TickNotices(m, doses, now, keys, thresholds)
        <==> k in keys && CompoundLevel(m, doses, k, now) > Lookup(k).maxDailyDose
    decreases |keys|
  {
    if keys != [] {
      var rest := keys[..|keys| - 1];
      assert keys == rest + [keys[|keys| - 1]];
      ExceedsMaxIff(m, doses, now, rest, thresholds, k);
    }
  }

  /** The position of `k` in `keys`. */
  function IndexOf(keys: seq<string>, k: string): (r: nat)
    requires k in keys
    ensures r < |keys| && keys[r] == k
  {
    var rest := keys[..|keys| - 1];
    if k in rest then IndexOf(rest, k) else |keys| - 1
  }

  /** Where a notice stands in the order of the tick: by compound position, "below" before "exceeds". */
  function Rank(keys: seq<string>, n: Notice): nat
    requires n.compound in keys
  {
    2 * IndexOf(keys, n.compound) + (if n.BelowThreshold? then 0 else 1)
  }

  predicate Distinct(keys: seq<string>)
  {
    forall i, j :: 0 <= i < j < |keys| ==> keys[i] != keys[j]
  }

  lemma IndexOfPrefix(keys: seq<string>, k: string)
    requires |keys| > 0 && k in keys[..|keys| - 1]
    ensures IndexOf(keys, k) == IndexOf(keys[..|keys| - 1], k)
  {
  }

  lemma IndexOfLast(keys: seq<string>)
    requires |keys| > 0 && Distinct(keys)
    ensures IndexOf(keys, keys[|keys| - 1]) == |keys| - 1
  {
    var rest := keys[..|keys| - 1];
    forall j | 0 <= j < |rest| ensures rest[j] != keys[|keys| - 1] {
      assert rest[j] == keys[j];
    }
  }

  /** Strictly increasing rank: catalog order, and "below" before "exceeds" within a compound. */
  predicate Ordered(keys: seq<string>, r: seq<Notice>)
    requires forall i :: 0 <= i < |r| ==> r[i].compound in keys
  {
    forall i, j :: 0 <= i < j < |r| ==> Rank(keys, r[i]) < Rank(keys, r[j])
  }

  /** Two ordered runs, every rank of the first below `bound` and every rank of the second at least `bound`, concatenate to an ordered run. */
  lemma OrderedConcat(keys: seq<string>, p: seq<Notice>, q: seq<Notice>, bound: int)
    requires forall i :: 0 <= i < |p| ==> p[i].compound in keys
    requires forall i :: 0 <= i < |q| ==> q[i].compound in keys
    requires Ordered(keys, p) && Ordered(keys, q)
    requires forall i :: 0 <= i < |p| ==> Rank(keys, p[i]) < bound
    requires forall i :: 0 <= i < |q| ==> Rank(keys, q[i]) >= bound
    ensures forall i :: 0 <= i < |p + q| ==> (p + q)[i].compound in keys
    ensures Ordered(keys, p + q)
  {
    var r := p + q;
    forall i, j | 0 <= i < j < |r| ensures Rank(keys, r[i]) < Rank(keys, r[j]) {
      if j < |p| {
        assert r[i] == p[i] && r[j] == p[j];
      } else if i < |p| {
        assert r[i] == p[i] && r[j] == q[j - |p|];
      } else {
        assert r[i] == q[i - |p|] && r[j] == q[j - |p|];
      }
    }
  }

  /** The notices of the last key rank above everything before it, "below" first. */
  lemma LastNoticesRanked(keys: seq<string>, last: string, level: real, thresholds: map<string, real>)
    requires |keys| > 0 && last == keys[|keys| - 1] && IsKnown(last) && Distinct(keys)
    ensures forall i :: 0 <= i < |NoticesFor(last, level, thresholds)| ==> NoticesFor(last, level, thresholds)[i].compound in keys
    ensures Ordered(keys, NoticesFor(last, level, thresholds))
    ensures forall i :: 0 <= i < |NoticesFor(last, level, thresholds)| ==>
              Rank(keys, NoticesFor(last, level, thresholds)[i]) >= 2 * (|keys| - 1)
  {
    IndexOfLast(keys);
  }

  /** Notices come out in catalog order, and within one compound "below" comes before "exceeds". */
  lemma {:induction false} TickNoticesOrdered(m: Transcendentals, doses: seq<Dose>, now: int, keys: seq<string>, thresholds: map<string, real>)
    requires forall i :: 0 <= i < |keys| ==> IsKnown(keys[i])
    requires Distinct(keys)
    ensures Ordered(keys, TickNotices(m, doses, now, keys, thresholds))
    decreases |keys|
  {
    if keys != [] {
      var rest := keys[..|keys| - 1];
      var last := keys[|keys| - 1];
      var p := TickNotices(m, doses, now, rest, thresholds);
      var q := NoticesFor(last, CompoundLevel(m, doses, last, now), thresholds);
      TickNoticesAppend(m, doses, now, rest, thresholds, last);
      assert rest + [last] == keys;
      TickNoticesOrdered(m, doses, now, rest, thresholds);
      IndexOfLast(keys);
      forall i | 0 <= i < |p| ensures p[i].compound in keys && Rank(keys, p[i]) == Rank(rest, p[i]) < 2 * |rest| {
        IndexOfPrefix(keys, p[i].compound);
      }
      LastNoticesRanked(keys, last, CompoundLevel(m, doses, last, now), thresholds);
      OrderedConcat(keys, p, q, 2 * |rest|);
    }
  }

  /** The message text the tick pushes for a notice. */
  function Message(n: Notice): (r: string)
    requires IsKnown(n.compound)
    ensures Lookup(n.compound).name <= r
  {
    match n
    case BelowThreshold(k) => Lookup(k).name + " level below threshold - Consider next dose"
    case ExceedsMaxDailyDose(k) => Lookup(k).name + " level exceeds max daily dose - Reduce intake"
  }

  function Render(ns: seq<Notice>): (r: seq<string>)
    requires forall i :: 0 <= i < |ns| ==> IsKnown(ns[i].compound)
    ensures |r| == |ns|
  {
    if ns == [] then [] else Render(ns[..|ns| - 1]) + [Message(ns[|ns| - 1])]
  }

  /** Rendering keeps order: message `i` is the text of notice `i`. */
  lemma {:induction false} RenderAt(ns: seq<Notice>, i: int)
    requires forall j :: 0 <= j < |ns| ==> IsKnown(ns[j].compound)
    requires 0 <= i < |ns|
    ensures Render(ns)[i] == Message(ns[i])
    decreases |ns|
  {
    if i < |ns| - 1 {
      RenderAt(ns[..|ns| - 1], i);
    }
  }

  lemma RenderAppend(ns: seq<Notice>, n: Notice)
    requires forall j :: 0 <= j < |ns| ==> IsKnown(ns[j].compound)
    requires IsKnown(n.compound)
    ensures Render(ns + [n]) == Render(ns) + [Message(n)]
  {
    assert (ns + [n])[..|ns|] == ns;
  }

  lemma {:induction false} RenderConcat(a: seq<Notice>, b: seq<Notice>)
    requires forall j :: 0 <= j < |a| ==> IsKnown(a[j].compound)
    requires forall j :: 0 <= j < |b| ==> IsKnown(b[j].compound)
    ensures Render(a + b) == Render(a) + Render(b)
    decreases |b|
  {
    if b == [] {
      assert a + b == a;
    } else {
      var b' := b[..|b| - 1];
      assert a + b == (a + b') + [b[|b| - 1]];
      RenderConcat(a, b');
      RenderAppend(a + b', b[|b| - 1]);
    }
  }

  /** The tick over the first `j + 1` keys extends the tick over the first `j` by the notices of key `j`. */
  lemma TickNoticesStep(m: Transcendentals, doses: seq<Dose>, now: int, keys: seq<string>, thresholds: map<string, real>, j: int)
    requires forall i :: 0 <= i < |keys| ==> IsKnown(keys[i])
    requires 0 <= j < |keys|
    ensures TickNotices(m, doses, now, keys[..j + 1], thresholds)
         == TickNotices(m, doses, now, keys[..j], thresholds) + NoticesFor(keys[j], CompoundLevel(m, doses, keys[j], now), thresholds)
  {
    assert keys[..j + 1][..j] == keys[..j];
  }

  lemma RenderSingle(n: Notice)
    requires IsKnown(n.compound)
    ensures Render([n]) == [Message(n)]
  {
    assert [n][..0] == [];
  }

  /** The rendered notices of one compound, as the two `if`s of the tick push them. */
  lemma RenderNoticesFor(key: string, level: real, thresholds: map<string, real>)
    requires IsKnown(key)
    ensures Render(NoticesFor(key, level, thresholds))
         == (if key in thresholds && level < thresholds[key] then [Message(BelowThreshold(key))] else [])
          + (if level > Lookup(key).maxDailyDose then [Message(ExceedsMaxDailyDose(key))] else [])
  {
    var below: seq<Notice> := if key in thresholds && level < thresholds[key] then [BelowThreshold(key)] else [];
    var exceeds: seq<Notice> := if level > Lookup(key).maxDailyDose then [ExceedsMaxDailyDose(key)] else [];
    assert NoticesFor(key, level, thresholds) == below + exceeds;
    RenderConcat(below, exceeds);
    RenderSingle(BelowThreshold(key));
    RenderSingle(ExceedsMaxDailyDose(key));
  }

  /** The two checks of the tick for one compound, pushing "below" and then "exceeds". */
  method CompoundNotifications(compound: string, currentLevel: real, thresholds: map<string, real>)
    returns (pushed: seq<string>)
    requires IsKnown(compound)
    ensures pushed == Render(NoticesFor(compound, currentLevel, thresholds))
  {
    RenderNoticesFor(compound, currentLevel, thresholds);
    pushed := [];
    if compound in thresholds && currentLevel < thresholds[compound] {
      pushed := pushed + [Message(BelowThreshold(compound))];
    }
    if currentLevel > Lookup(compound).maxDailyDose {
      pushed := pushed + [Message(ExceedsMaxDailyDose(compound))];
    }
  }

  /** One compound's messages extend the tick over the keys before it to the tick over the keys up to it. */
  lemma {:induction false} TickStep(m: Transcendentals, doses: seq<Dose>, now: int, keys: seq<string>, thresholds: map<string, real>, j: int,
                 news: seq<string>, pushed: seq<string>)
    requires forall i :: 0 <= i < |keys| ==> IsKnown(keys[i])
    requires 0 <= j < |keys|
    requires news == Render(TickNotices(m, doses, now, keys[..j], thresholds))
    requires pushed == Render(NoticesFor(keys[j], CompoundLevel(m, doses, keys[j], now), thresholds))
    ensures news + pushed == Render(TickNotices(m, doses, now, keys[..j + 1], thresholds))
  {
    TickNoticesStep(m, doses, now, keys, thresholds, j);
    RenderConcat(TickNotices(m, doses, now, keys[..j], thresholds), NoticesFor(keys[j], CompoundLevel(m, doses, keys[j], now), thresholds));
  }

  /**
   * One notification tick: for each catalog compound in order, its current
   * level is compared with its threshold and with its daily maximum, and the
   * messages are collected in that order.
   */
  method ComputeNotifications(m: Transcendentals, doses: seq<Dose>, thresholds: map<string, real>, now: int)
    returns (news: seq<string>)
    ensures news == Render(TickNotices(m, doses, now, Keys, thresholds))
  {
    KnownKeys();
    news := [];
    var j := 0;
    while j < |Keys|
      invariant 0 <= j <= |Keys|
      invariant news == Render(TickNotices(m, doses, now, Keys[..j], thresholds))
    {
      var compound := Keys[j];
      var currentLevel := CompoundLevel(m, doses, compound, now);
      var pushed := CompoundNotifications(compound, currentLevel, thresholds);
      TickStep(m, doses, now, Keys, thresholds, j, news, pushed);
      news := news + pushed;
      j := j + 1;
    }
    assert Keys[..j] == Keys;
  }

  /** `thresholds` at start: every catalog key mapped to its `minEffectiveConc`. */
  function DefaultThresholds(): (t: map<string, real>)
    ensures forall k :: k in t <==> IsKnown(k)
    ensures forall k :: k in t ==> t[k] == Lookup(k).minEffectiveConc
  {
    KnownKeys();
    map k | k in Keys :: Lookup(k).minEffectiveConc
  }

  /** The catalog tick is ordered by catalog position, "below" before "exceeds". */
  lemma CatalogTickOrdered(m: Transcendentals, doses: seq<Dose>, now: int, thresholds: map<string, real>)
    ensures Ordered(Keys, TickNotices(m, doses, now, Keys, thresholds))
  {
    KnownKeys();
    KeysDistinct();
    TickNoticesOrdered(m, doses, now, Keys, thresholds);
  }

  lemma TickOfFour(m: Transcendentals, doses: seq<Dose>, now: int, a: string, b: string, c: string, d: string,
                   thresholds: map<string, real>)
    requires IsKnown(a) && IsKnown(b) && IsKnown(c) && IsKnown(d)
    ensures TickNotices(m, doses, now, [a, b, c, d], thresholds)
         == NoticesFor(a, CompoundLevel(m, doses, a, now), thresholds) + NoticesFor(b, CompoundLevel(m, doses, b, now), thresholds)
          + NoticesFor(c, CompoundLevel(m, doses, c, now), thresholds) + NoticesFor(d, CompoundLevel(m, doses, d, now), thresholds)
  {
    ConcatMapOfFour(KeyNotices(m, doses, now, thresholds), a, b, c, d);
  }

  /** With no doses and the initial thresholds, a compound is reported below its threshold and nothing else. */
  lemma EmptyLedgerNotices(m: Transcendentals, now: int, k: string)
    requires IsKnown(k)
    ensures NoticesFor(k, CompoundLevel(m, [], k, now), DefaultThresholds()) == [BelowThreshold(k)]
  {
    LevelOfEmptyLedger(m, k, now);
    CatalogWellFormed(k);
  }

  lemma FourSingletons<T>(a: T, b: T, c: T, d: T)
    ensures [a] + [b] + [c] + [d] == [a, b, c, d]
  {
  }

  /** With no doses and the initial thresholds every compound is reported below threshold, in catalog order. */
  lemma EmptyLedgerTick(m: Transcendentals, now: int)
    ensures TickNotices(m, [], now, Keys, DefaultThresholds())
         == [BelowThreshold("caffeine"), BelowThreshold("l-theanine"), BelowThreshold("ginseng"), BelowThreshold("magnesium")]
  {
    TickOfFour(m, [], now, "caffeine", "l-theanine", "ginseng", "magnesium", DefaultThresholds());
    EmptyLedgerNotices(m, now, "caffeine");
    EmptyLedgerNotices(m, now, "l-theanine");
    EmptyLedgerNotices(m, now, "ginseng");
    EmptyLedgerNotices(m, now, "magnesium");
    FourSingletons(BelowThreshold("caffeine"), BelowThreshold("l-theanine"), BelowThreshold("ginseng"), BelowThreshold("magnesium"));
  }

  /** The metrics of one tick: the scores of the current snapshot and the circadian alignment of `hour`. */
  function MetricsAt(m: Transcendentals, doses: seq<Dose>, now: int, hour: int, sleepStart: string, sleepEnd: string): (r: Metrics)
    ensures r.synergisticScore <= 14 && r.toleranceRisk <= |Keys|
    ensures r.circadianAlignment == 0.0 || r.circadianAlignment == 0.5 || r.circadianAlignment == 1.0
  {
    Metrics(SynergyScore(LevelsAt(m, doses, now)), ToleranceRisk(LevelsAt(m, doses, now)),
            CircadianAlignment(hour, sleepStart, sleepEnd))
  }

  /** `updateMetrics()` on values: sample the current levels, then score them. */
  method ComputeMetrics(m: Transcendentals, doses: seq<Dose>, now: int, hour: int, sleepStart: string, sleepEnd: string)
    returns (r: Metrics)
    ensures r == MetricsAt(m, doses, now, hour, sleepStart, sleepEnd)
  {
    var currentLevels := Superposition.LevelsOf(doses, Keys, Curve(m, now));
    assert currentLevels == LevelsAt(m, doses, now);
    r := Metrics(SynergyScore(currentLevels), ToleranceRisk(currentLevels), CircadianAlignment(hour, sleepStart, sleepEnd));
  }

  /** The React state of the tracker component. */
  class Tracker {
    var doses: seq<Dose>
    var notifications: seq<string>
    var sleepStart: string
    var sleepEnd: string
    var thresholds: map<string, real>
    var metrics: Metrics

    /** The initial state: no doses or notifications, sleep 22:00 to 06:00, thresholds at `minEffectiveConc`, metrics 0. */
    constructor ()
      ensures doses == [] && notifications == []
      ensures sleepStart == "22:00" && sleepEnd == "06:00"
      ensures thresholds == DefaultThresholds()
      ensures metrics == Metrics(0, 0, 0.0)
    {
      doses := [];
      notifications := [];
      sleepStart := "22:00";
      sleepEnd := "06:00";
      thresholds := DefaultThresholds();
      metrics := Metrics(0, 0, 0.0);
    }

    /** Add Dose: the new record goes at the end; everything else stays. */
    method AddDose(d: Dose)
      modifies this
      ensures doses == old(doses) + [d]
      ensures unchanged(this`notifications, this`thresholds, this`metrics, this`sleepStart, this`sleepEnd)
    {
      doses := doses + [d];
    }

    /** One notification tick at `now`: the new messages are appended after the existing ones. */
    method CheckNotifications(m: Transcendentals, now: int)
      modifies this
      ensures notifications == old(notifications) + Render(TickNotices(m, doses, now, Keys, thresholds))
      ensures unchanged(this`doses, this`thresholds, this`metrics, this`sleepStart, this`sleepEnd)
    {
      var news := ComputeNotifications(m, doses, thresholds, now);
      notifications := notifications + news;
    }

    /** One metrics tick at `now`, whose local clock hour is `hour`. */
    method UpdateMetrics(m: Transcendentals, now: int, hour: int)
      modifies this
      ensures metrics == MetricsAt(m, old(doses), now, hour, old(sleepStart), old(sleepEnd))
      ensures unchanged(this`doses, this`notifications, this`thresholds, this`sleepStart, this`sleepEnd)
    {
      metrics := ComputeMetrics(m, doses, now, hour, sleepStart, sleepEnd);
    }
  }
}
