/// The shared record types of the inventory: a filament spool and its material.
module Types {
  import opened JsNumber

  datatype MaterialType = PLA | PETG | ABS | TPU | ASA | RESIN | OTHER

  /** The string value of each material enumerator. */
  function MaterialName(m: MaterialType): string {
    match m
    case PLA => "PLA"
    case PETG => "PETG"
    case ABS => "ABS"
    case TPU => "TPU"
    case ASA => "ASA"
    case RESIN => "RESIN"
    case OTHER => "OTHER"
  }

  /** One spool. Weights are in grams, the price per kilogram. `lastUsed` is an
      ISO date text when set; `createdAt` is a millisecond timestamp, absent only
      when a stored record had none. */
  datatype Filament = Filament(
    id: string,
    name: string,
    brand: string,
    material: MaterialType,
    colorHex: string,
    totalWeight: real,
    currentWeight: real,
    pricePerKg: real,
    lastUsed: Option<string>,
    createdAt: Option<real>)
}
