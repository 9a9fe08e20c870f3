/**
 * The fields the two versions have in common, as both write them: `src/v2_2_1` and `src/v2_3_0`
 * without the fields that `Ocpi221` and `Ocpi230` spell out.
 */
module Objects {
  import opened Shapes

  /** Fields that hold plain values. */
  function Plain(presence: Presence, names: set<string>): (r: map<string, Field>)
    ensures r.Keys == names
  {
    map n | n in names :: Field(presence, Leaf)
  }

  /** The fields of an object: plain values that must be there or may be absent, and the parts. */
  function Table(required: set<string>, optional: set<string>, parts: set<string>, part: string -> Field)
    : (r: map<string, Field>)
    ensures r.Keys == required + optional + parts
  {
    map n | n in required + optional + parts ::
      if n in required then Field(Required, Leaf) else if n in optional then Field(Nullable, Leaf) else part(n)
  }

  /** Lists that may be absent. */
  function ListOf(item: Shape): Field {
    Field(Listed, Many(item))
  }

  // ---------------------------------------------------------------------------------------
  // Parts of objects
  // ---------------------------------------------------------------------------------------

  function DisplayText(): Shape {
    Record(Plain(Required, {"language", "text"}))
  }

  function GeoLocation(): Shape {
    Record(Plain(Required, {"latitude", "longitude"}))
  }

  function AdditionalGeoLocation(): Shape {
    Record(Plain(Required, {"latitude", "longitude"}) + map["name" := Field(Nullable, DisplayText())])
  }

  function Image(): Shape {
    Record(Plain(Required, {"url", "category", "type"}) + Plain(Nullable, {"thumbnail", "width", "height"}))
  }

  function BusinessDetails(): Shape {
    Record(Plain(Required, {"name"}) + Plain(Nullable, {"website"}) + map["logo" := Field(Nullable, Image())])
  }

  function RegularHours(): Shape {
    Record(Plain(Required, {"weekday", "period_begin", "period_end"}))
  }

  function ExceptionalPeriod(): Shape {
    Record(Plain(Required, {"period_begin", "period_end"}))
  }

  function Hours(): Shape {
    Record(Plain(Required, {"twentyfourseven"})
           + map["regular_hours" := ListOf(RegularHours()),
                 "exceptional_openings" := ListOf(ExceptionalPeriod()),
                 "exceptional_closings" := ListOf(ExceptionalPeriod())])
  }

  function EnergySource(): Shape {
    Record(Plain(Required, {"source", "percentage"}))
  }

  function EnvironmentalImpact(): Shape {
    Record(Plain(Required, {"category", "amount"}))
  }

  function EnergyMix(): Shape {
    Record(Plain(Required, {"is_green_energy"}) + Plain(Nullable, {"supplier_name", "energy_product_name"})
           + map["energy_sources" := ListOf(EnergySource()), "environ_impact" := ListOf(EnvironmentalImpact())])
  }

  function PublishTokenType(): Shape {
    Record(Plain(Nullable, {"uid", "type", "visual_number", "issuer", "group_id"}))
  }

  function StatusSchedule(): Shape {
    Record(Plain(Required, {"period_begin", "status"}) + Plain(Nullable, {"period_end"}))
  }

  function CdrToken(): Shape {
    Record(Plain(Required, {"country_code", "party_id", "uid", "type", "contract_id"}))
  }

  function CdrLocation(): Shape {
    Record(Plain(Required, {"id", "address", "city", "country", "evse_uid", "evse_id", "connector_id",
                            "connector_standard", "connector_format", "connector_power_type"})
           + Plain(Nullable, {"name", "postal_code", "state"})
           + map["coordinates" := Field(Required, GeoLocation())])
  }

  function ChargingPeriod(): Shape {
    Record(Plain(Required, {"start_date_time"}) + Plain(Nullable, {"tariff_id"})
           + map["dimensions" := Field(Required, Many(Record(Plain(Required, {"type", "volume"}))))])
  }

  function SignedValue(): Shape {
    Record(Plain(Required, {"nature", "plain_data", "signed_data"}))
  }

  function SignedData(): Shape {
    Record(Plain(Required, {"encoding_method"}) + Plain(Nullable, {"encoding_method_version", "public_key", "url"})
           + map["signed_values" := Field(Required, Many(SignedValue()))])
  }

  function PriceComponent(): Shape {
    Record(Plain(Required, {"type", "price", "step_size"}) + Plain(Nullable, {"vat"}))
  }

  function TariffRestrictions(): Shape {
    Record(Plain(Nullable, {"start_time", "end_time", "start_date", "end_date", "min_kwh", "max_kwh", "min_current",
                            "max_current", "min_power", "max_power", "min_duration", "max_duration", "reservation",
                            "booking"})
           + map["day_of_week" := ListOf(Leaf)])
  }

  function TariffElement(): Shape {
    Record(map["price_components" := Field(Required, Many(PriceComponent())),
               "restrictions" := Field(Nullable, TariffRestrictions())])
  }

  function EnergyContract(): Shape {
    Record(Plain(Required, {"supplier_name"}) + Plain(Nullable, {"contract_id"}))
  }

  function LocationReferences(): Shape {
    Record(Plain(Required, {"location_id"}) + map["evse_uids" := ListOf(Leaf)])
  }

  // ---------------------------------------------------------------------------------------
  // Objects
  // ---------------------------------------------------------------------------------------

  function LocationPart(name: string): Field {
    match name
    case "coordinates" => Field(Required, GeoLocation())
    case "publish_allowed_to" => ListOf(PublishTokenType())
    case "related_locations" => ListOf(AdditionalGeoLocation())
    case "directions" => ListOf(DisplayText())
    case "facilities" => ListOf(Leaf)
    case "opening_times" => Field(Nullable, Hours())
    case "energy_mix" => Field(Nullable, EnergyMix())
    case "images" => ListOf(Image())
    case _ => Field(Nullable, BusinessDetails())
  }

  function LocationFields(): map<string, Field> {
    Table({"country_code", "party_id", "id", "publish", "address", "city", "country", "time_zone",
           "last_updated"},
          {"name", "postal_code", "state", "parking_type", "charging_when_closed"},
          {"coordinates", "publish_allowed_to", "related_locations", "directions", "operator",
           "suboperator", "owner", "facilities", "opening_times", "energy_mix", "images"}, LocationPart)
  }

  function EvsePart(name: string): Field {
    match name
    case "status_schedule" => ListOf(StatusSchedule())
    case "coordinates" => Field(Nullable, GeoLocation())
    case "directions" => ListOf(DisplayText())
    case "images" => ListOf(Image())
    case _ => ListOf(Leaf)
  }

  function EvseFields(): map<string, Field> {
    Table({"uid", "status", "last_updated"},
          {"evse_id", "floor_level", "physical_reference"},
          {"status_schedule", "capabilities", "coordinates", "directions", "parking_restrictions",
           "images"}, EvsePart)
  }

  function ConnectorFields(): map<string, Field> {
    Table({"id", "standard", "format", "power_type", "max_voltage", "max_amperage", "last_updated"},
          {"max_electric_power", "terms_and_conditions"},
          {"tariff_ids"}, name => ListOf(Leaf))
  }

  function SessionPart(name: string): Field {
    match name
    case "charging_periods" => ListOf(ChargingPeriod())
    case _ => Field(Required, CdrToken())
  }

  function SessionFields(): map<string, Field> {
    Table({"country_code", "party_id", "id", "start_date_time", "kwh", "auth_method", "location_id",
           "evse_uid", "connector_id", "currency", "status", "last_updated"},
          {"end_date_time", "authorization_reference", "meter_id"},
          {"cdr_token", "charging_periods"}, SessionPart)
  }

  function CdrPart(name: string): Field {
    match name
    case "cdr_location" => Field(Required, CdrLocation())
    case "charging_periods" => Field(Required, Many(ChargingPeriod()))
    case "signed_data" => Field(Nullable, SignedData())
    case _ => Field(Required, CdrToken())
  }

  function CdrFields(): map<string, Field> {
    Table({"country_code", "party_id", "id", "start_date_time", "end_date_time", "auth_method",
           "currency", "total_energy", "total_time", "last_updated"},
          {"session_id", "authorization_reference", "meter_id", "total_parking_time", "remark",
           "invoice_reference_id", "credit", "credit_reference_id", "home_charging_compensation"},
          {"cdr_token", "cdr_location", "charging_periods", "signed_data"}, CdrPart)
  }

  function TariffPart(name: string): Field {
    match name
    case "elements" => Field(Required, Many(TariffElement()))
    case "energy_mix" => Field(Nullable, EnergyMix())
    case _ => ListOf(DisplayText())
  }

  function TariffFields(): map<string, Field> {
    Table({"country_code", "party_id", "id", "currency", "last_updated"},
          {"type", "tariff_alt_url", "start_date_time", "end_date_time"},
          {"tariff_alt_text", "elements", "energy_mix"}, TariffPart)
  }

  function TokenFields(): map<string, Field> {
    Table({"country_code", "party_id", "uid", "type", "contract_id", "issuer", "valid", "whitelist",
           "last_updated"},
          {"visual_number", "group_id", "language", "default_profile_type"},
          {"energy_contract"}, name => Field(Nullable, EnergyContract()))
  }

  function AuthorizationInfoPart(name: string): Field {
    match name
    case "location" => Field(Nullable, LocationReferences())
    case "info" => Field(Nullable, DisplayText())
    case _ => Field(Required, Record(TokenFields()))
  }

  function AuthorizationInfoFields(): map<string, Field> {
    Table({"allowed"},
          {"authorization_reference"},
          {"token", "location", "info"}, AuthorizationInfoPart)
  }

  function CredentialsFields(): map<string, Field> {
    Plain(Required, {"token", "url"})
  }

  function ClientInfoFields(): map<string, Field> {
    Plain(Required, {"party_id", "country_code", "status", "last_updated"})
  }

  function StartSessionFields(): map<string, Field> {
    Table({"response_url", "location_id"},
          {"evse_uid", "connector_id", "authorization_reference"},
          {"token"}, name => Field(Required, Record(TokenFields())))
  }

  function ReserveNowFields(): map<string, Field> {
    Table({"response_url", "expiry_date", "reservation_id", "location_id"},
          {"evse_uid", "authorization_reference"},
          {"token"}, name => Field(Required, Record(TokenFields())))
  }
}
