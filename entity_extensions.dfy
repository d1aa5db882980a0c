/**
 * The Android mapping between the Room row and the domain record of a
 * supplement (android/app/src/main/java/com/neurodose/app/utils/extension/EntityExtensions.kt):
 * a field-for-field copy in each direction, and its lifting to lists.
 */
module EntityExtensions {

  /** `SupplementEntity`: one row of the `supplements` table. */
  datatype SupplementEntity = SupplementEntity(
    id: int,
    name: string,
    category: string,
    halfLife: real,
    bioavailability: real,
    absorptionRate: real,
    volumeOfDistribution: real,
    typicalDose: real,
    maxDailyDose: real,
    warnings: string)

  /** `Supplement`: the domain model of a supplement. */
  datatype Supplement = Supplement(
    id: int,
    name: string,
    category: string,
    halfLife: real,
    bioavailability: real,
    absorptionRate: real,
    volumeOfDistribution: real,
    typicalDose: real,
    maxDailyDose: real,
    warnings: string)

  /** `SupplementEntity.toDomain()`. */
  function ToDomain(e: SupplementEntity): (s: Supplement)
    ensures s.id == e.id && s.name == e.name && s.category == e.category
    ensures s.halfLife == e.halfLife && s.bioavailability == e.bioavailability
    ensures s.absorptionRate == e.absorptionRate && s.volumeOfDistribution == e.volumeOfDistribution
    ensures s.typicalDose == e.typicalDose && s.maxDailyDose == e.maxDailyDose && s.warnings == e.warnings
  {
    Supplement(e.id, e.name, e.category, e.halfLife, e.bioavailability, e.absorptionRate,
               e.volumeOfDistribution, e.typicalDose, e.maxDailyDose, e.warnings)
  }

  /** `Supplement.toEntity()`. */
  function ToEntity(s: Supplement): (e: SupplementEntity)
    ensures e.id == s.id && e.name == s.name && e.category == s.category
    ensures e.halfLife == s.halfLife && e.bioavailability == s.bioavailability
    ensures e.absorptionRate == s.absorptionRate && e.volumeOfDistribution == s.volumeOfDistribution
    ensures e.typicalDose == s.typicalDose && e.maxDailyDose == s.maxDailyDose && e.warnings == s.warnings
  {
    SupplementEntity(s.id, s.name, s.category, s.halfLife, s.bioavailability, s.absorptionRate,
                     s.volumeOfDistribution, s.typicalDose, s.maxDailyDose, s.warnings)
  }

  /** Storing a domain record and reading it back gives the same record. */
  lemma DomainRoundTrip(s: Supplement)
    ensures ToDomain(ToEntity(s)) == s
  {
  }

  /** Reading a row and storing it back gives the same row. */
  lemma EntityRoundTrip(e: SupplementEntity)
    ensures ToEntity(ToDomain(e)) == e
  {
  }

  /** No two rows map to the same domain record. */
  lemma ToDomainInjective(a: SupplementEntity, b: SupplementEntity)
    ensures ToDomain(a) == ToDomain(b) ==> a == b
  {
    if ToDomain(a) == ToDomain(b) {
      EntityRoundTrip(a);
      EntityRoundTrip(b);
    }
  }

  /** `List<SupplementEntity>.toDomain()`: `this.map { it.toDomain() }`. */
  function ListToDomain(es: seq<SupplementEntity>): (ss: seq<Supplement>)
    ensures |ss| == |es|
  {
    if es == [] then [] else [ToDomain(es[0])] + ListToDomain(es[1..])
  }

  /** The list mapping keeps the length and converts element `i` to element `i`. */
  lemma {:induction false} ListToDomainPointwise(es: seq<SupplementEntity>)
    ensures |ListToDomain(es)| == |es|
    ensures forall i :: 0 <= i < |es| ==> ListToDomain(es)[i] == ToDomain(es[i])
    decreases |es|
  {
    if es != [] {
      ListToDomainPointwise(es[1..]);
      forall i | 0 < i < |es| ensures ListToDomain(es)[i] == ToDomain(es[i]) {
        assert es[1..][i - 1] == es[i];
      }
    }
  }

  /** Mapping a concatenation is the concatenation of the mappings. */
  lemma {:induction false} ListToDomainConcat(a: seq<SupplementEntity>, b: seq<SupplementEntity>)
    ensures ListToDomain(a + b) == ListToDomain(a) + ListToDomain(b)
    decreases |a|
  {
    if a != [] {
      assert (a + b)[1..] == a[1..] + b;
      ListToDomainConcat(a[1..], b);
    } else {
      assert a + b == b;
    }
  }

  /** Converting a list back with `toEntity` element by element gives the original rows. */
  lemma ListRoundTrip(es: seq<SupplementEntity>)
    ensures seq(|ListToDomain(es)|, i requires 0 <= i < |ListToDomain(es)| => ToEntity(ListToDomain(es)[i])) == es
  {
    ListToDomainPointwise(es);
  }
}
