/**
 * The three records of the inventory store: a roll of material, a
 * master (catalogue) product and an audit-log entry, plus the attribute
 * access by name that `update_roll`, `search_rolls` and `Roll.from_dict`
 * perform with `hasattr`/`getattr`/`setattr`.
 */
module Records {
  import opened Wrappers

  /** A value held in a log entry's `details` or passed as a keyword argument. */
  datatype Value = Str(s: string) | Num(r: real)

  /** One physical roll. Lengths are exact reals (the source uses floats). */
  datatype Roll = Roll(
    rollId: string,
    sku: string,
    lot: string,
    currentLength: real,
    originalLength: real,
    location: string,
    grade: string,
    dateReceived: string,
    marksNo: string,
    status: string,
    invoiceNumber: string,
    poNumber: string,
    splName: string,
    typeOfRoll: string,
    unitType: string,
    scrapQty: real,
    specification: string,
    colour: string,
    packingUnit: string)

  datatype MasterProduct = MasterProduct(sku: string, description: string, defaultLength: real, defaultGrade: string)

  datatype LogEntry = LogEntry(id: string, timestamp: string, action: string, rollId: string, details: map<string, Value>, user: string)

  /** The sort key `lambda x: x.timestamp` of the log views. */
  function Timestamp(e: LogEntry): string {
    e.timestamp
  }

  /** The attributes of a Roll, one per dataclass field. */
  datatype Attr =
    | RollId | Sku | Lot | CurrentLength | OriginalLength | Location | Grade | DateReceived | MarksNo | Status
    | InvoiceNumber | PoNumber | SplName | TypeOfRoll | UnitType | ScrapQty | Specification | Colour | PackingUnit

  /** The attributes of the ten-field Roll of storage.py. */
  const BaseAttrs: set<Attr> :=
    {RollId, Sku, Lot, CurrentLength, OriginalLength, Location, Grade, MarksNo, DateReceived, Status}

  /** The nineteen attributes of the Roll of storage2.py (`valid_fields` of `from_dict`). */
  const AllAttrs: set<Attr> := BaseAttrs +
    {InvoiceNumber, PoNumber, SplName, TypeOfRoll, UnitType, ScrapQty, Specification, Colour, PackingUnit}

  /** The attributes that must be given on construction (they have no default). */
  const RequiredAttrs: set<Attr> :=
    {RollId, Sku, Lot, CurrentLength, OriginalLength, Location, Grade, DateReceived}

  lemma AllAttrsComplete(a: Attr)
    ensures a in AllAttrs
  {
  }

  /** The Python name of an attribute. */
  function Name(a: Attr): string {
    match a
    case RollId => "roll_id"
    case Sku => "sku"
    case Lot => "lot"
    case CurrentLength => "current_length"
    case OriginalLength => "original_length"
    case Location => "location"
    case Grade => "grade"
    case DateReceived => "date_received"
    case MarksNo => "marks_no"
    case Status => "status"
    case InvoiceNumber => "invoice_number"
    case PoNumber => "po_number"
    case SplName => "spl_name"
    case TypeOfRoll => "type_of_roll"
    case UnitType => "unit_type"
    case ScrapQty => "scrap_qty"
    case Specification => "specification"
    case Colour => "colour"
    case PackingUnit => "packing_unit"
  }

  /** The attribute a keyword names, if any: the name lookup behind `hasattr`/`getattr`/`setattr`. */
  function AttrNamed(name: string): (a: Option<Attr>)
    ensures a.Some? ==> Name(a.value) == name
  {
    match name
    case "roll_id" => Some(RollId)
    case "sku" => Some(Sku)
    case "lot" => Some(Lot)
    case "current_length" => Some(CurrentLength)
    case "original_length" => Some(OriginalLength)
    case "location" => Some(Location)
    case "grade" => Some(Grade)
    case "date_received" => Some(DateReceived)
    case "marks_no" => Some(MarksNo)
    case "status" => Some(Status)
    case "invoice_number" => Some(InvoiceNumber)
    case "po_number" => Some(PoNumber)
    case "spl_name" => Some(SplName)
    case "type_of_roll" => Some(TypeOfRoll)
    case "unit_type" => Some(UnitType)
    case "scrap_qty" => Some(ScrapQty)
    case "specification" => Some(Specification)
    case "colour" => Some(Colour)
    case "packing_unit" => Some(PackingUnit)
    case _ => None
  }

  /** Every attribute is found under its own name, so no two attributes share a name. */
  lemma AttrNamedName(a: Attr)
    ensures AttrNamed(Name(a)) == Some(a)
  {
  }

  /** The attributes that hold floats; all the others hold strings. */
  predicate IsNumeric(a: Attr) {
    a == CurrentLength || a == OriginalLength || a == ScrapQty
  }

  /** Whether `v` is of the kind attribute `a` holds. */
  predicate Fits(a: Attr, v: Value) {
    if IsNumeric(a) then v.Num? else v.Str?
  }

  /** `getattr(r, Name(a))` */
  function Get(r: Roll, a: Attr): (v: Value)
    ensures Fits(a, v)
  {
    match a
    case RollId => Str(r.rollId)
    case Sku => Str(r.sku)
    case Lot => Str(r.lot)
    case CurrentLength => Num(r.currentLength)
    case OriginalLength => Num(r.originalLength)
    case Location => Str(r.location)
    case Grade => Str(r.grade)
    case DateReceived => Str(r.dateReceived)
    case MarksNo => Str(r.marksNo)
    case Status => Str(r.status)
    case InvoiceNumber => Str(r.invoiceNumber)
    case PoNumber => Str(r.poNumber)
    case SplName => Str(r.splName)
    case TypeOfRoll => Str(r.typeOfRoll)
    case UnitType => Str(r.unitType)
    case ScrapQty => Num(r.scrapQty)
    case Specification => Str(r.specification)
    case Colour => Str(r.colour)
    case PackingUnit => Str(r.packingUnit)
  }

  function PatchStr(cur: string, a: Attr, u: map<Attr, Value>): string {
    if a in u && u[a].Str? then u[a].s else cur
  }

  function PatchNum(cur: real, a: Attr, u: map<Attr, Value>): real {
    if a in u && u[a].Num? then u[a].r else cur
  }

  /**
   * The roll after `setattr` of every attribute in `u`. A value of the wrong
   * kind for its attribute is not stored (see README, Left out).
   */
  function Patched(r: Roll, u: map<Attr, Value>): Roll {
    Roll(
      PatchStr(r.rollId, RollId, u),
      PatchStr(r.sku, Sku, u),
      PatchStr(r.lot, Lot, u),
      PatchNum(r.currentLength, CurrentLength, u),
      PatchNum(r.originalLength, OriginalLength, u),
      PatchStr(r.location, Location, u),
      PatchStr(r.grade, Grade, u),
      PatchStr(r.dateReceived, DateReceived, u),
      PatchStr(r.marksNo, MarksNo, u),
      PatchStr(r.status, Status, u),
      PatchStr(r.invoiceNumber, InvoiceNumber, u),
      PatchStr(r.poNumber, PoNumber, u),
      PatchStr(r.splName, SplName, u),
      PatchStr(r.typeOfRoll, TypeOfRoll, u),
      PatchStr(r.unitType, UnitType, u),
      PatchNum(r.scrapQty, ScrapQty, u),
      PatchStr(r.specification, Specification, u),
      PatchStr(r.colour, Colour, u),
      PatchStr(r.packingUnit, PackingUnit, u))
  }

  /** Every attribute given a value of its kind holds that value after patching; every other one is unchanged. */
  lemma PatchedGet(r: Roll, u: map<Attr, Value>, a: Attr)
    ensures Get(Patched(r, u), a) == if a in u && Fits(a, u[a]) then u[a] else Get(r, a)
  {
  }

  /** The keyword arguments of a call, restricted to the attributes in `attrs` and keyed by attribute. */
  function ByAttr(kwargs: map<string, Value>, attrs: set<Attr>): (u: map<Attr, Value>)
    ensures forall a :: a in u <==> a in attrs && Name(a) in kwargs
    ensures forall a :: a in u ==> u[a] == kwargs[Name(a)]
  {
    map a | a in attrs && Name(a) in kwargs :: kwargs[Name(a)]
  }

  function TextOr(u: map<Attr, Value>, a: Attr, default: string): string
    requires a in u ==> u[a].Str?
  {
    if a in u then u[a].s else default
  }

  function NumOr(u: map<Attr, Value>, a: Attr, default: real): real
    requires a in u ==> u[a].Num?
  {
    if a in u then u[a].r else default
  }

  /** Every attribute given holds a value of its kind. */
  predicate WellKinded(u: map<Attr, Value>) {
    forall a :: a in u ==> Fits(a, u[a])
  }

  /** `Roll(**kwargs)` for keyword arguments that all name attributes. */
  function Construct(u: map<Attr, Value>): (r: Option<Roll>)
    ensures r.Some? <==> RequiredAttrs <= u.Keys && WellKinded(u)
  {
    if !(RequiredAttrs <= u.Keys && WellKinded(u)) then None
    else
      assert RollId in u && Sku in u && Lot in u && CurrentLength in u && OriginalLength in u;
      assert Location in u && Grade in u && DateReceived in u;
      Some(Roll(
        u[RollId].s, u[Sku].s, u[Lot].s,
        u[CurrentLength].r, u[OriginalLength].r,
        u[Location].s, u[Grade].s, u[DateReceived].s,
        TextOr(u, MarksNo, ""),
        TextOr(u, Status, "active"),
        TextOr(u, InvoiceNumber, ""),
        TextOr(u, PoNumber, ""),
        TextOr(u, SplName, ""),
        TextOr(u, TypeOfRoll, ""),
        TextOr(u, UnitType, "MTS"),
        NumOr(u, ScrapQty, 0.0),
        TextOr(u, Specification, ""),
        TextOr(u, Colour, ""),
        TextOr(u, PackingUnit, "")))
  }

  /** The dataclass default of an attribute that has one. */
  function Default(a: Attr): Value {
    match a
    case Status => Str("active")
    case UnitType => Str("MTS")
    case ScrapQty => Num(0.0)
    case _ => Str("")
  }

  /** A constructed roll holds every attribute given, and the default of every other one. */
  lemma ConstructGet(u: map<Attr, Value>, a: Attr)
    requires Construct(u).Some?
    ensures a in u ==> Get(Construct(u).value, a) == u[a]
    ensures a !in u ==> a !in RequiredAttrs && Get(Construct(u).value, a) == Default(a)
  {
    if a in u {
      assert Fits(a, u[a]);
    } else {
      assert a !in RequiredAttrs;
    }
  }

  /**
   * `Roll.from_dict` of storage2.py: only the nineteen attribute names are
   * passed on to the constructor; a missing required attribute makes
   * construction fail (None, where Python raises TypeError).
   */
  function FromDict(data: map<string, Value>): (r: Option<Roll>)
    ensures r.Some? <==>
      && (forall a :: a in RequiredAttrs ==> Name(a) in data)
      && (forall a :: Name(a) in data ==> Fits(a, data[Name(a)]))
  {
    Construct(ByAttr(data, AllAttrs))
  }

  /** Keys that name no attribute have no effect on `from_dict`. */
  lemma FromDictIgnoresUnknownKeys(data: map<string, Value>, extra: map<string, Value>)
    requires forall key :: key in extra ==> AttrNamed(key).None?
    ensures FromDict(data + extra) == FromDict(data - extra.Keys)
  {
    forall a ensures Name(a) !in extra {
      AttrNamedName(a);
    }
    assert ByAttr(data + extra, AllAttrs) == ByAttr(data - extra.Keys, AllAttrs);
  }

  /** Each attribute of the dictionary is taken over; an absent optional attribute takes its dataclass default. */
  lemma FromDictGet(data: map<string, Value>, a: Attr)
    requires FromDict(data).Some?
    ensures Name(a) in data ==> Get(FromDict(data).value, a) == data[Name(a)]
    ensures Name(a) !in data ==> Get(FromDict(data).value, a) == Default(a)
  {
    AllAttrsComplete(a);
    ConstructGet(ByAttr(data, AllAttrs), a);
  }
}
