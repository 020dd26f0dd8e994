/**
 * JavaScript values as the TypeScript sources see them at run time.
 * Numbers are integers here; NaN, fractions and -0 are not modelled.
 */
module Js {

  /** A primitive JavaScript value, as stored in a column or read from a property. */
  datatype Value =
    | Undefined
    | Null
    | Bool(b: bool)
    | Num(n: int)
    | Str(s: string)

  /**
   * The property names the modelled code reads from untyped (`any`) objects,
   * one constructor per name (`full_name` is `FullName`).
   */
  datatype Prop =
    // contact and collaborator leads
    | FullName | Email | Phone | Company | Country | CompanySize | Referral | Status
    | Profession | Experience | Motivation | IpAddress | UserAgent
    // lead-magnet downloads
    | UserName | UserEmail | UserPhone | UserCompany | LeadMagnetId | Referrer
    | UtmSource | UtmMedium | UtmCampaign
    // company valuations
    | ContactName | CompanyName | Cif | Industry | EmployeeRange | Location | Revenue | Ebitda
    | FinalValuation | EbitdaMultipleUsed | ValuationRangeMin | ValuationRangeMax
    | YearsOfOperation | NetProfitMargin | GrowthRate | OwnershipParticipation
    | CompetitiveAdvantage | EmailSent | WhatsappSent | HubspotSent
    // tool ratings
    | EaseOfUse | ResultAccuracy | Recommendation | FeedbackComment | CompanySector

  /**
   * The properties of a plain object: reading a name the object does not
   * have yields `undefined`, so an object is a total function of the name.
   */
  type Object = Prop -> Value

  /** The object `{}`: every property reads as `undefined`. */
  function EmptyObject(): Object
  {
    (p: Prop) => Undefined
  }

  /** A value received where the code expects an object: `null`/`undefined`, or an object. */
  datatype Payload = Nullish | Props(fields: Object)

  datatype Option<T> = None | Some(value: T)

  /** The outcome of an awaited call: a value, or the message of the error it raised. */
  datatype Result<T> = Ok(value: T) | Err(message: string)

  /** JavaScript truthiness: false, 0, "", null and undefined are falsy; every other value is truthy. */
  predicate Truthy(v: Value)
  {
    match v
    case Undefined => false
    case Null => false
    case Bool(b) => b
    case Num(n) => n != 0
    case Str(s) => s != ""
  }

  /** `v || d`: the left operand when it is truthy, the right one otherwise. */
  function Or(v: Value, d: Value): Value
  {
    if Truthy(v) then v else d
  }
}
