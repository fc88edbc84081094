/**
 * The unit table (app/units/units.js) and the conversions of app/units/convert.js
 * applied to it. A unit is a number: its size in the base unit of its kind, so
 * that `convert(v).from(u).to(w).value` is v·u/w. The base units are the pixel
 * for distance, the solar mass for mass and the year for time.
 *
 * The table writes the metre, the solar and earth radii, the earth mass and the
 * kilogram the other way round (how many of the unit make one base unit). Only
 * these five entries have a constant with the suffix AsWritten, which keeps the
 * entry's own number. Every other constant builds on the corrected entries,
 * including the AsWritten radii, which divide the corrected Km. The kilometre
 * and the gram therefore have no AsWritten form, although the table derives
 * them from its own metre and kilogram. The unsuffixed constants are corrected
 * so that every entry is the size of its unit.
 */
module Units {
  import opened JsMath
  import opened Convert

  // DISTANCE: the pixel is the base unit.
  const Px: real := 1.0
  const AU: real := 1.0 / 200.0
  const MetreAsWritten: real := AU * 149600000000.0
  const M: real := AU / 149600000000.0
  const Metre: real := M
  const Metres: real := M
  const Km: real := M * 1000.0
  const Kilometre: real := Km
  const Kilometres: real := Km
  const SolRadiusAsWritten: real := Km / 695700.0
  const EarthRadiusAsWritten: real := Km / 6371.0
  const SolRadius: real := Km * 695700.0
  const EarthRadius: real := Km * 6371.0

  // MASS: the solar mass is the base unit.
  const Sol: real := 1.0
  const Sols: real := 1.0
  const EarthAsWritten: real := 1.0 / 0.000003003
  const Earth: real := 0.000003003
  const Earths: real := Earth
  const KgAsWritten: real := 1.988435 * 1000000000000000000000000000000.0  // 1.988435 · Math.pow(10, 30)
  const Kg: real := 1.0 / (1.988435 * 1000000000000000000000000000000.0)
  const Kilograms: real := Kg
  const Kilogram: real := Kg
  const G: real := Kg / 1000.0
  const Grams: real := G
  const Gram: real := G

  // TIME: the year is the base unit.
  const Years: real := 1.0
  const Year: real := 1.0
  const Days: real := Year / 365.25
  const Day: real := Days
  const Hours: real := Day / 24.0
  const Hour: real := Hours
  const Minutes: real := Hour / 60.0
  const Minute: real := Minutes
  const Min: real := Minutes
  const S: real := Minutes / 60.0
  const Second: real := S
  const Seconds: real := S

  /** Every unit of the table, as corrected, is a positive number. */
  predicate AllPositiveUnits() {
    Positive([Px, AU, M, Metre, Metres, Km, Kilometre, Kilometres, SolRadius, EarthRadius,
              Sol, Sols, Earth, Earths, Kg, Kilograms, Kilogram, G, Grams, Gram,
              Years, Year, Days, Day, Hours, Hour, Minutes, Minute, Min, S, Second, Seconds])
  }

  /** Every unit is positive, so each can be handed to `from` and `to`. */
  lemma UnitsPositive()
    ensures AllPositiveUnits()
    ensures 0.0 < MetreAsWritten && 0.0 < SolRadiusAsWritten && 0.0 < EarthRadiusAsWritten
    ensures 0.0 < EarthAsWritten && 0.0 < KgAsWritten
  {}

  /** The base units are 1 and the aliases equal the unit they name. */
  lemma BaseUnits()
    ensures Px == 1.0 && Sol == 1.0 && Sols == 1.0 && Years == 1.0 && Year == 1.0
    ensures Metre == M && Metres == M && Kilometre == Km && Kilometres == Km
    ensures Earths == Earth && Kilograms == Kg && Kilogram == Kg && Grams == G && Gram == G
    ensures Day == Days && Hour == Hours && Minute == Minutes && Min == Minutes
    ensures Second == S && Seconds == S
  {}

  /** The ratios the table is built from. */
  lemma Ratios()
    ensures Km == 1000.0 * M && Kg == 1000.0 * G
    ensures Year == 365.25 * Days && Day == 24.0 * Hours && Hour == 60.0 * Minutes
    ensures Minute == 60.0 * S && Hour == 3600.0 * S && Day == 86400.0 * S
  {}

  /** The number `convert(v).from(u).to(w)` holds: the split of v, combined with the split of u and then with the split of 1/w. */
  function Converted(m: MathFns, v: real, u: real, w: real): Split
    requires 0.0 < v && 0.0 < u && 0.0 < w
  {
    CombineFrom(CombineFrom(SplitValue(m, v), SplitsOf(m, [u])), InverseSplitsOf(m, [w]))
  }

  /** Converting v from unit u to unit w gives v·u/w. */
  lemma {:induction false} ConvertedValue(m: MathFns, v: real, u: real, w: real)
    requires Log10Laws(m) && 0.0 < v && 0.0 < u && 0.0 < w
    ensures Converted(m, v, u, w).Value() == v * u / w
  {
    var c0 := SplitValue(m, v);
    FromOne(m, c0, u, v);
    ToOne(m, CombineFrom(c0, SplitsOf(m, [u])), w, v * u);
  }

  /** `from` with one unit multiplies by it. */
  lemma {:induction false} FromOne(m: MathFns, c: Split, u: real, x: real)
    requires Log10Laws(m) && 0.0 < u && c.Value() == x
    ensures CombineFrom(c, SplitsOf(m, [u])).Value() == x * u
  {
    FromProduct(m, c, [u]);
    assert [u][..0] == [];
    Substitute(c.Value(), x, Product([u]), u);
  }

  /** `to` with one unit divides by it. */
  lemma {:induction false} ToOne(m: MathFns, c: Split, w: real, y: real)
    requires Log10Laws(m) && 0.0 < w && c.Value() == y
    ensures CombineFrom(c, InverseSplitsOf(m, [w])).Value() == y / w
  {
    Reciprocal(w);
    InverseSplitsAreReciprocal(m, [w]);
    OneReciprocal(w);
    var r := 1.0 / w;
    FromOne(m, c, r, y);
    var t := CombineFrom(c, SplitsOf(m, [r]));
    assert t == CombineFrom(c, InverseSplitsOf(m, [w]));
    assert t.Value() == y * r;
    Divided(y, w, r);
  }

  lemma {:induction false} Substitute(a: real, b: real, p: real, q: real)
    requires a == b && p == 1.0 * q
    ensures a * p == b * q
  {}

  lemma {:induction false} OneReciprocal(w: real)
    requires 0.0 < w
    ensures Reciprocals([w]) == [1.0 / w]
  {
    assert [w][..0] == [];
  }

  lemma {:induction false} Divided(b: real, q: real, r: real)
    requires q != 0.0 && r == 1.0 / q
    ensures b * r == b / q
  {}

  /** `convert(v).from(u).to(w).value` on a fresh converter. */
  method ConvertUnit(m: MathFns, v: real, u: real, w: real) returns (r: real)
    requires 0.0 < v && 0.0 < u && 0.0 < w
    ensures r == Converted(m, v, u, w).Value()
  {
    var c := new Converter(m, v);
    var c1 := c.From([u]);
    var c2 := c1.To([w]);
    r := c2.Value();
  }

  /** convert(1).from(km).to(m).value is 1000. */
  lemma KilometreInMetres(m: MathFns)
    requires Log10Laws(m)
    ensures Converted(m, 1.0, Km, M).Value() == 1000.0
  {
    ConvertedValue(m, 1.0, Km, M);
  }

  /** convert(1).from(m / s).to(km / hours).value is 3.6: 1 m/s is 3.6 km/h. */
  lemma MetresPerSecondInKmPerHour(m: MathFns)
    requires Log10Laws(m)
    ensures Converted(m, 1.0, M / S, Km / Hours).Value() == 3.6
  {
    ConvertedValue(m, 1.0, M / S, Km / Hours);
  }

  /** convert(1).from(g).to(kg).value is 1/1000. */
  lemma GramInKilograms(m: MathFns)
    requires Log10Laws(m)
    ensures Converted(m, 1.0, G, Kg).Value() == 0.001
  {
    ConvertedValue(m, 1.0, G, Kg);
  }

  /** convert(1).from(days).to(hours).value is 24 and a year is 365.25 days. */
  lemma DayInHours(m: MathFns)
    requires Log10Laws(m)
    ensures Converted(m, 1.0, Day, Hours).Value() == 24.0
    ensures Converted(m, 1.0, Year, Days).Value() == 365.25
  {
    ConvertedValue(m, 1.0, Day, Hours);
    ConvertedValue(m, 1.0, Year, Days);
  }

  /** With the table's metre, converting one AU to metres gives 1/149600000000 rather than 149600000000. */
  lemma AUInMetresAsWritten(m: MathFns)
    requires Log10Laws(m)
    ensures Converted(m, 1.0, AU, MetreAsWritten).Value() == 1.0 / 149600000000.0
  {
    ConvertedValue(m, 1.0, AU, MetreAsWritten);
  }

  /** With the table's radii and masses, a solar radius is 1/695700 km and an earth mass 1/(0.000003003·1.988435·10^30) kg. */
  lemma SizesAsWritten(m: MathFns)
    requires Log10Laws(m)
    ensures Converted(m, 1.0, SolRadiusAsWritten, Km).Value() == 1.0 / 695700.0
    ensures Converted(m, 1.0, EarthAsWritten, KgAsWritten).Value() == 1.0 / 5971270305000000000000000.0
  {
    ConvertedValue(m, 1.0, SolRadiusAsWritten, Km);
    ConvertedValue(m, 1.0, EarthAsWritten, KgAsWritten);
  }

  /** With the corrected metre, one AU is 149600000000 metres. */
  lemma AUInMetres(m: MathFns)
    requires Log10Laws(m)
    ensures Converted(m, 1.0, AU, M).Value() == 149600000000.0
  {
    ConvertedValue(m, 1.0, AU, M);
  }

  /** With the corrected entries, a solar radius is 695700 km, an earth radius 6371 km and an earth mass 5.971270305·10^24 kg. */
  lemma Sizes(m: MathFns)
    requires Log10Laws(m)
    ensures Converted(m, 1.0, SolRadius, Km).Value() == 695700.0
    ensures Converted(m, 1.0, EarthRadius, Km).Value() == 6371.0
    ensures Converted(m, 1.0, Earth, Kg).Value() == 5971270305000000000000000.0
  {
    ConvertedValue(m, 1.0, SolRadius, Km);
    ConvertedValue(m, 1.0, EarthRadius, Km);
    ConvertedValue(m, 1.0, Earth, Kg);
  }
}
