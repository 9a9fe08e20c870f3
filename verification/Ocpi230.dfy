/**
 * The OCPI 2.3.0 objects, with the fields that 2.2.1 lacks or shapes differently spelled out.
 *
 * `rest` holds every other field of an object, documented or not, as it is on the wire.
 */
module Ocpi230 {
  import opened Wrappers
  import opened Json
  import Sums
  import Tariffs

  datatype TaxAmount = TaxAmount(
    name: string, accountNumber: Option<string>, percentage: Option<real>, amount: real, rest: Fields)

  function AmountOf(t: TaxAmount): real {
    t.amount
  }

  datatype Price = Price(beforeTaxes: real, taxes: seq<TaxAmount>, rest: Fields) {
    /** The amount with every tax on top of it. */
    function AfterTaxes(): real {
      beforeTaxes + Sums.SumBy(taxes, AmountOf)
    }
  }

  datatype Connector = Connector(capabilities: seq<Json>, rest: Fields)

  datatype Evse = Evse(
    connectors: seq<Connector>, parking: seq<Json>, acceptedServiceProviders: seq<Json>, rest: Fields)

  datatype Location = Location(
    evses: seq<Evse>, parkingPlaces: seq<Json>, helpPhone: Option<string>, rest: Fields)

  datatype PriceLimit = PriceLimit(beforeTaxes: real, afterTaxes: Option<real>, rest: Fields)

  datatype Tariff = Tariff(
    minPrice: Option<PriceLimit>,
    maxPrice: Option<PriceLimit>,
    preauthorizeAmount: Option<real>,
    taxIncluded: Tariffs.TaxIncluded,
    rest: Fields
  )

  datatype Session = Session(totalCost: Option<Price>, rest: Fields)

  datatype Cdr = Cdr(
    bookingId: Option<string>,
    tariffs: seq<Tariff>,
    totalCost: Price,
    totalFixedCost: Option<Price>,
    totalEnergyCost: Option<Price>,
    totalTimeCost: Option<Price>,
    totalParkingCost: Option<Price>,
    totalReservationCost: Option<Price>,
    rest: Fields
  )

  datatype Role = Cpo | Emsp | Nap | Nsp | Other | Scsp

  datatype CredentialsRole = CredentialsRole(
    role: Role, businessDetails: Json, partyId: string, countryCode: string, rest: Fields)

  datatype Credentials = Credentials(hubPartyId: Option<string>, roles: seq<CredentialsRole>, rest: Fields)

  datatype ClientInfo = ClientInfo(role: Role, rest: Fields)
}
