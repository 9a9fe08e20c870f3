/**
 * The OCPI 2.2.1 objects, with the fields that 2.3.0 changed spelled out.
 *
 * `rest` holds every other field of an object, documented or not, as it is on the wire.
 */
module Ocpi221 {
  import opened Wrappers
  import opened Json

  datatype Price = Price(exclVat: real, inclVat: Option<real>, rest: Fields)

  datatype Connector = Connector(rest: Fields)

  datatype Evse = Evse(connectors: seq<Connector>, rest: Fields)

  datatype Location = Location(evses: seq<Evse>, rest: Fields)

  datatype Tariff = Tariff(minPrice: Option<Price>, maxPrice: Option<Price>, rest: Fields)

  datatype Session = Session(totalCost: Option<Price>, rest: Fields)

  datatype Cdr = Cdr(
    tariffs: seq<Tariff>,
    totalCost: Price,
    totalFixedCost: Option<Price>,
    totalEnergyCost: Option<Price>,
    totalTimeCost: Option<Price>,
    totalParkingCost: Option<Price>,
    totalReservationCost: Option<Price>,
    rest: Fields
  )

  datatype Role = Cpo | Emsp | Hub | Nap | Nsp | Other | Scsp

  datatype CredentialsRole = CredentialsRole(
    role: Role, businessDetails: Json, partyId: string, countryCode: string, rest: Fields)

  datatype Credentials = Credentials(roles: seq<CredentialsRole>, rest: Fields)

  datatype ClientInfo = ClientInfo(role: Role, rest: Fields)
}
