/// The converters between a spool record and a row of the `materials` table:
/// field renaming, the price default, and the date columns.
module StorageService {
  import opened JsNumber
  import opened Types

  /** The `created_at` column as it comes back: an ISO text, a number of
      milliseconds, or nothing (null or undefined). */
  datatype Stamp = Text(text: string) | Millis(ms: real) | Missing

  /** A row of the table; `price_per_kg` is `None` when null or NaN. */
  datatype DbRow = DbRow(
    id: string,
    name: string,
    brand: string,
    material: MaterialType,
    color: string,
    total_weight: real,
    current_weight: real,
    price_per_kg: Option<real>,
    created_at: Stamp,
    last_used: Option<string>)

  /** The two date conversions the converters use, given from outside:
      `new Date(text).getTime()` (`None` for an invalid date, NaN) and
      `new Date(ms).toISOString()` (`None` when it throws). */
  datatype DateCodec = DateCodec(millisOfText: string -> Option<real>, isoOfMillis: real -> Option<string>)

  /** An ISO text written for a time reads back as that time and is never
      empty, as `toISOString` and `Date.parse` behave on whole milliseconds. */
  predicate IsoRoundTrips(c: DateCodec, ms: real) {
    c.isoOfMillis(ms).Some? ==>
      c.isoOfMillis(ms).value != "" && c.millisOfText(c.isoOfMillis(ms).value) == Some(ms)
  }

  /** JavaScript truthiness of the column: "" and 0 are falsy. */
  predicate Truthy(s: Stamp) {
    match s
    case Text(t) => t != ""
    case Millis(ms) => ms != 0.0
    case Missing => false
  }

  /** `new Date(created_at).toISOString()`, `None` when it throws. */
  function IsoOfStamp(c: DateCodec, s: Stamp): Option<string> {
    match s
    case Text(t) => (match c.millisOfText(t) case None => None case Some(ms) => c.isoOfMillis(ms))
    case Millis(ms) => c.isoOfMillis(ms)
    case Missing => None
  }

  /** `typeof created_at === 'string' ? new Date(created_at).getTime() : created_at`. */
  function CreatedAtOf(c: DateCodec, s: Stamp): (r: Option<real>)
    ensures s.Millis? ==> r == Some(s.ms)
    ensures s.Missing? ==> r == None
  {
    match s
    case Text(t) => c.millisOfText(t)
    case Millis(ms) => Some(ms)
    case Missing => None
  }

  /** `row.last_used` is set and not empty. */
  predicate HasLastUsed(row: DbRow) {
    row.last_used.Some? && row.last_used.value != ""
  }

  /** `mapFromDb`. `None` when the `last_used` fallback throws: no usable
      `last_used`, a truthy `created_at`, and an invalid date in it. */
  function MapFromDb(c: DateCodec, row: DbRow): (r: Option<Filament>)
    ensures r.None? <==> !HasLastUsed(row) && Truthy(row.created_at) && IsoOfStamp(c, row.created_at).None?
    ensures r.Some? ==> r.value.id == row.id && r.value.name == row.name && r.value.brand == row.brand
                        && r.value.material == row.material && r.value.colorHex == row.color
                        && r.value.totalWeight == row.total_weight && r.value.currentWeight == row.current_weight
    ensures r.Some? ==> (r.value.pricePerKg == 0.0 <==> row.price_per_kg.None? || row.price_per_kg.value == 0.0)
    ensures r.Some? && row.price_per_kg.Some? ==> r.value.pricePerKg == row.price_per_kg.value
    ensures r.Some? ==> r.value.createdAt == CreatedAtOf(c, row.created_at)
    ensures r.Some? && HasLastUsed(row) ==> r.value.lastUsed == row.last_used
    ensures r.Some? && !HasLastUsed(row) && Truthy(row.created_at) ==> r.value.lastUsed == IsoOfStamp(c, row.created_at)
    ensures r.Some? ==> (r.value.lastUsed.None? <==> !HasLastUsed(row) && !Truthy(row.created_at))
  {
    if !HasLastUsed(row) && Truthy(row.created_at) && IsoOfStamp(c, row.created_at).None? then None
    else
      var lastUsed :=
        if HasLastUsed(row) then row.last_used
        else if Truthy(row.created_at) then IsoOfStamp(c, row.created_at)
        else None;
      Some(Filament(
        row.id, row.name, row.brand, row.material, row.color,
        row.total_weight, row.current_weight,
        match row.price_per_kg case None => 0.0 case Some(p) => p,
        lastUsed,
        CreatedAtOf(c, row.created_at)))
  }

  /** `mapToDb`. `None` when `new Date(createdAt).toISOString()` throws: no
      `createdAt` (undefined or NaN) or one out of range. */
  function MapToDb(c: DateCodec, f: Filament): (r: Option<DbRow>)
    ensures r.None? <==> f.createdAt.None? || c.isoOfMillis(f.createdAt.value).None?
    ensures r.Some? ==> r.value.id == f.id && r.value.name == f.name && r.value.brand == f.brand
                        && r.value.material == f.material && r.value.color == f.colorHex
                        && r.value.total_weight == f.totalWeight && r.value.current_weight == f.currentWeight
                        && r.value.price_per_kg == Some(f.pricePerKg) && r.value.last_used == f.lastUsed
    ensures r.Some? ==> r.value.created_at == Text(c.isoOfMillis(f.createdAt.value).value)
  {
    match f.createdAt
    case None => None
    case Some(ms) =>
      match c.isoOfMillis(ms)
      case None => None
      case Some(iso) =>
        Some(DbRow(f.id, f.name, f.brand, f.material, f.colorHex, f.totalWeight, f.currentWeight,
                   Some(f.pricePerKg), Text(iso), f.lastUsed))
  }

  /** Writing a spool and reading it back gives the same spool, except that a
      missing or empty `lastUsed` comes back as the creation time's ISO text. */
  lemma RoundTrip(c: DateCodec, f: Filament)
    requires MapToDb(c, f).Some? && IsoRoundTrips(c, f.createdAt.value)
    ensures var g := MapFromDb(c, MapToDb(c, f).value);
      && g.Some?
      && g.value.(lastUsed := f.lastUsed) == f
      && (f.lastUsed.Some? && f.lastUsed.value != "" ==> g.value.lastUsed == f.lastUsed)
      && (!(f.lastUsed.Some? && f.lastUsed.value != "") ==> g.value.lastUsed == c.isoOfMillis(f.createdAt.value))
  {
  }

  /** After one round trip a spool is stable: writing and reading it again
      changes nothing. */
  lemma SecondTripStable(c: DateCodec, f: Filament)
    requires MapToDb(c, f).Some? && IsoRoundTrips(c, f.createdAt.value)
    ensures var g := MapFromDb(c, MapToDb(c, f).value).value;
      MapToDb(c, g).Some? && MapFromDb(c, MapToDb(c, g).value) == Some(g)
  {
    RoundTrip(c, f);
    var g := MapFromDb(c, MapToDb(c, f).value).value;
    RoundTrip(c, g);
  }
}
