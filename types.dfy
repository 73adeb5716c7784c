/**
 * The dashboard's entities (types.ts) and the sample data it starts from
 * (constants.ts). Only the fields some modelled operation reads are given
 * behaviour; the rest are carried along so that "every other field is kept"
 * can be stated.
 */
module Types {

  /** An absent or present value; `None` also stands for "nothing happens". */
  datatype Option<T> = None | Some(value: T)

  datatype Rank = HighCommand | OperationalCommand | FieldUnit

  datatype Department = Central | Army | Navy | Air | Cyber | Disaster

  datatype AlertLevel = Critical | High | Medium | Low | Safe

  datatype User = User(id: string, name: string, rank: Rank, department: Department, avatarUrl: string)

  datatype Alert = Alert(
    id: string, title: string, department: Department, level: AlertLevel,
    timestamp: string, description: string, location: string)

  datatype AssetType = Vehicle | Aircraft | Vessel | SupplyDepot

  datatype AssetStatus = Active | Maintenance | Transit | Offline

  /** The string a status is keyed and labelled by. */
  function StatusName(s: AssetStatus): string
  {
    match s
    case Active => "ACTIVE"
    case Maintenance => "MAINTENANCE"
    case Transit => "TRANSIT"
    case Offline => "OFFLINE"
  }

  datatype LogisticAsset = LogisticAsset(
    id: string, name: string, kind: AssetType, status: AssetStatus,
    location: string, capacity: int)

  /** A chat message; `id` and `timestamp` are opaque strings (clock-derived in the source). */
  datatype Message = Message(
    id: string, sender: string, content: string, timestamp: string,
    isEncrypted: bool, channel: string)

  datatype Weather = Sunny | Rainy | Storm | Cloudy

  /** A region; `riskScore` is an integer in every state the dashboard reaches. */
  datatype RegionData = RegionData(
    id: string, name: string, riskScore: int, weather: Weather, activeIncidents: int)

  // Sample data

  const CurrentUser: User :=
    User("u-001", "Cmdr. Almaz Bekele", HighCommand, Central,
         "https://picsum.photos/seed/commander/64/64")

  const MockAlerts: seq<Alert> := [
    Alert("a-1", "Heavy Rainfall Warning", Disaster, High, "10:42 AM",
          "Sustained heavy rainfall detected in Highlands region. Flood risk elevating.",
          "Northern Region"),
    Alert("a-2", "Port Logistics Delay", Navy, Medium, "09:15 AM",
          "Container processing backlog due to crane maintenance at Dry Port.",
          "Modjo Dry Port"),
    Alert("a-3", "Network Anomaly Detected", Cyber, Low, "11:00 AM",
          "Unusual traffic spike from external endpoint. Firewall auto-mitigated.",
          "Central Server Node 4"),
    Alert("a-4", "Supply Convoy Dispatch", Army, Safe, "08:30 AM",
          "Routine medical supply convoy departed for Eastern depots.",
          "Addis Ababa -> Harar")
  ]

  const MockAssets: seq<LogisticAsset> := [
    LogisticAsset("v-101", "Heavy Hauler A-1", Vehicle, Transit, "Route 4", 85),
    LogisticAsset("v-102", "Heavy Hauler A-2", Vehicle, Active, "Depot Central", 100),
    LogisticAsset("ac-301", "Cargo Wing C-1", Aircraft, Maintenance, "Bole Hangar", 0),
    LogisticAsset("ac-302", "Drone Scout D-9", Aircraft, Active, "Sector North", 100),
    LogisticAsset("dp-500", "Central Med Depot", SupplyDepot, Active, "Addis Ababa", 92)
  ]

  const MockMessages: seq<Message> := [
    Message("m-1", "Logistics Chief", "Convoy A-1 passing checkpoint Delta. Status nominal.",
            "10:55", true, "Logistics"),
    Message("m-2", "Weather Station", "Storm front moving East. Visibility dropping to 2km.",
            "11:02", false, "General"),
    Message("m-3", "Port Authority", "Clearance granted for incoming aid shipment.",
            "11:10", true, "Logistics")
  ]

  const RegionalData: seq<RegionData> := [
    RegionData("r-1", "Addis Ababa", 12, Cloudy, 0),
    RegionData("r-2", "Amhara", 45, Rainy, 2),
    RegionData("r-3", "Oromia", 25, Sunny, 1),
    RegionData("r-4", "Somali", 30, Sunny, 0),
    RegionData("r-5", "Tigray", 35, Cloudy, 1),
    RegionData("r-6", "Sidama", 15, Rainy, 0),
    RegionData("r-7", "Afar", 55, Storm, 3)
  ]
}
