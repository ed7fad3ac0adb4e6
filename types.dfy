/** The records, catalogue entities and dashboard filters of the weighing
    station (lib/types.ts). Dates are integer milliseconds; weights are
    integer kilograms. */
module Types {

  /** A value that may be absent (undefined or null). */
  datatype Option<+T> = None | Some(value: T) {
    /** The value, or `default` when absent. */
    function GetOr(default: T): T {
      match this
      case Some(v) => v
      case None => default
    }
  }

  /** The direction of a weighing: goods coming in or going out. */
  datatype RecordType = Incoming | Outgoing

  /** The string a record type has at run time. */
  function TypeName(t: RecordType): (s: string)
    ensures s == "incoming" || s == "outgoing"
    ensures s == "incoming" <==> t == Incoming
  {
    match t
    case Incoming => "incoming"
    case Outgoing => "outgoing"
  }

  datatype VendorType = Supplier | Customer
  datatype VehicleType = Truck | Trailer | Container

  datatype Item = Item(id: string, name: string, category: string, unit: string)

  datatype Vendor = Vendor(id: string, name: string, code: string, vendorType: VendorType, contact: string)

  datatype Vehicle = Vehicle(id: string, plateNumber: string, vehicleType: VehicleType, capacity: int, driver: string)

  /** One completed weighing transaction. */
  datatype WeightRecord = WeightRecord(
    id: string,
    recordType: RecordType,
    timestamp: int,
    weight: int,
    item: Item,
    vendor: Vendor,
    vehicle: Vehicle,
    grossWeight: int,
    tareWeight: int,
    netWeight: int,
    ticketNumber: string,
    operator: string,
    notes: Option<string>)

  /** An inclusive range of calendar days, given by a moment in each end day. */
  datatype DateRange = DateRange(from: int, to: int)

  /** The dashboard filters, every field optional. The select-backed
      fields hold the string the select produced, so a present but empty
      string can occur and is treated as absent by every consumer. */
  datatype DashboardFilters = DashboardFilters(
    dateRange: Option<DateRange>,
    recordType: Option<string>,
    itemId: Option<string>,
    vendorId: Option<string>,
    vehicleId: Option<string>)

  /** The filters with nothing set. */
  const NoFilters: DashboardFilters := DashboardFilters(None, None, None, None, None)
}
