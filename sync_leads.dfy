/**
 * The `sync-leads` edge function: it maps a tagged envelope `{type, data}`
 * to a row of the secondary store's `leads` table, inserts it, and answers
 * the HTTP request. The request body, the clock and the insert's outcome are
 * parameters; the store itself is not modelled.
 */
module SyncLeads {
  import opened Js

  /** The envelope's `type`; every value other than the four tags is `Unknown`. */
  datatype LeadKind = Contact | Collaborator | LeadMagnetDownload | CompanyValuation | Unknown

  /** The tag each known lead kind is sent with; `Classify` reads it back. */
  function TagOf(k: LeadKind): (tag: string)
    requires !k.Unknown?
    ensures Classify(Str(tag)) == k
  {
    match k
    case Contact => "contact"
    case Collaborator => "collaborator"
    case LeadMagnetDownload => "lead_magnet_download"
    case CompanyValuation => "company_valuation"
  }

  /** The `===` tests of the if/else chain: only a string equal to a known tag selects its branch. */
  function Classify(v: Value): (k: LeadKind)
    ensures !k.Unknown? <==>
      v in {Str("contact"), Str("collaborator"), Str("lead_magnet_download"), Str("company_valuation")}
  {
    if v == Str("contact") then Contact
    else if v == Str("collaborator") then Collaborator
    else if v == Str("lead_magnet_download") then LeadMagnetDownload
    else if v == Str("company_valuation") then CompanyValuation
    else Unknown
  }

  /** The fixed `source` literal of each known lead kind. */
  function SourceOf(k: LeadKind): (source: string)
    requires !k.Unknown?
    ensures |source| > 9 && source[..9] == "capittal_"
  {
    match k
    case Contact => "capittal_website"
    case Collaborator => "capittal_collaborators"
    case LeadMagnetDownload => "capittal_lead_magnets"
    case CompanyValuation => "capittal_valuations"
  }

  /** Distinct lead kinds are filed under distinct sources, so `source` identifies the kind. */
  lemma SourcesDistinct(j: LeadKind, k: LeadKind)
    requires !j.Unknown? && !k.Unknown? && j != k
    ensures SourceOf(j) != SourceOf(k)
  {
  }

  /**
   * A row of the `leads` table, one field per column any lead kind writes.
   * A column the kind's object literal does not name is `Undefined`: the
   * serialised insert carries no such property.
   */
  datatype Lead = Lead(
    leadType: Value, fullName: Value, email: Value, phone: Value, company: Value,
    country: Value, companySize: Value, referral: Value,
    profession: Value, experience: Value, motivation: Value,
    leadMagnetId: Value, referrer: Value, utmSource: Value, utmMedium: Value, utmCampaign: Value,
    cif: Value, industry: Value, employeeRange: Value, location: Value,
    revenue: Value, ebitda: Value, finalValuation: Value, ebitdaMultipleUsed: Value,
    valuationRangeMin: Value, valuationRangeMax: Value, yearsOfOperation: Value,
    netProfitMargin: Value, growthRate: Value, ownershipParticipation: Value,
    competitiveAdvantage: Value,
    status: Value, source: Value, createdAt: Value, ipAddress: Value, userAgent: Value)

  /** The object `{}` that `leadData` starts as. */
  const EmptyLead: Lead := Lead(
    Undefined, Undefined, Undefined, Undefined, Undefined,
    Undefined, Undefined, Undefined,
    Undefined, Undefined, Undefined,
    Undefined, Undefined, Undefined, Undefined, Undefined,
    Undefined, Undefined, Undefined, Undefined,
    Undefined, Undefined, Undefined, Undefined,
    Undefined, Undefined, Undefined,
    Undefined, Undefined, Undefined,
    Undefined,
    Undefined, Undefined, Undefined, Undefined, Undefined)

  /** None of the columns only a contact lead sets: `country`, `company_size`, `referral`. */
  predicate ContactColumnsUnset(r: Lead)
  {
    r.country == Undefined &&
    r.companySize == Undefined &&
    r.referral == Undefined
  }

  /** None of the columns only a collaborator lead sets: `profession`, `experience`, `motivation`. */
  predicate CollaboratorColumnsUnset(r: Lead)
  {
    r.profession == Undefined &&
    r.experience == Undefined &&
    r.motivation == Undefined
  }

  /** None of the columns only a lead-magnet download sets: `lead_magnet_id`, `referrer` and the three UTM columns. */
  predicate DownloadColumnsUnset(r: Lead)
  {
    r.leadMagnetId == Undefined &&
    r.referrer == Undefined &&
    r.utmSource == Undefined &&
    r.utmMedium == Undefined &&
    r.utmCampaign == Undefined
  }

  /** None of the columns only a company valuation sets: its company profile, figures and valuation. */
  predicate ValuationColumnsUnset(r: Lead)
  {
    r.cif == Undefined &&
    r.industry == Undefined &&
    r.employeeRange == Undefined &&
    r.location == Undefined &&
    r.revenue == Undefined &&
    r.ebitda == Undefined &&
    r.finalValuation == Undefined &&
    r.ebitdaMultipleUsed == Undefined &&
    r.valuationRangeMin == Undefined &&
    r.valuationRangeMax == Undefined &&
    r.yearsOfOperation == Undefined &&
    r.netProfitMargin == Undefined &&
    r.growthRate == Undefined &&
    r.ownershipParticipation == Undefined &&
    r.competitiveAdvantage == Undefined
  }

  /**
   * The lead row built from the properties `data` for kind `k`; `now` is the
   * server time at which it is built. An unknown kind leaves the row `{}`.
   */
  function MapLead(k: LeadKind, data: Object, now: string): (r: Lead)
    ensures k.Unknown? <==> r == EmptyLead
    ensures !k.Unknown? ==>
      && r.leadType == Str(TagOf(k))
      && Classify(r.leadType) == k
      && r.source == Str(SourceOf(k))
      && r.createdAt == Str(now)
      && r.ipAddress == data(IpAddress)
      && r.userAgent == data(UserAgent)
    ensures k == Contact ==>
      && r.status == Or(data(Status), Str("new"))
      && r.fullName == data(FullName) && r.email == data(Email) && r.phone == data(Phone)
      && r.company == data(Company) && r.country == data(Country)
      && r.companySize == data(CompanySize) && r.referral == data(Referral)
    ensures k == Collaborator ==>
      && r.status == Or(data(Status), Str("pending"))
      && r.fullName == data(FullName) && r.email == data(Email) && r.phone == data(Phone)
      && r.company == data(Company) && r.profession == data(Profession)
      && r.experience == data(Experience) && r.motivation == data(Motivation)
    ensures k == LeadMagnetDownload ==>
      && r.status == Str("new")
      && r.fullName == data(UserName) && r.email == data(UserEmail)
      && r.phone == data(UserPhone) && r.company == data(UserCompany)
      && r.leadMagnetId == data(LeadMagnetId) && r.referrer == data(Referrer)
      && r.utmSource == data(UtmSource) && r.utmMedium == data(UtmMedium)
      && r.utmCampaign == data(UtmCampaign)
    ensures k == CompanyValuation ==>
      && r.status == Str("new")
      && r.fullName == data(ContactName) && r.company == data(CompanyName)
      && r.email == data(Email) && r.phone == data(Phone) && r.cif == data(Cif)
      && r.industry == data(Industry) && r.employeeRange == data(EmployeeRange)
      && r.location == data(Location) && r.revenue == data(Revenue) && r.ebitda == data(Ebitda)
      && r.finalValuation == data(FinalValuation)
      && r.ebitdaMultipleUsed == data(EbitdaMultipleUsed)
      && r.valuationRangeMin == data(ValuationRangeMin)
      && r.valuationRangeMax == data(ValuationRangeMax)
      && r.yearsOfOperation == data(YearsOfOperation)
      && r.netProfitMargin == data(NetProfitMargin) && r.growthRate == data(GrowthRate)
      && r.ownershipParticipation == data(OwnershipParticipation)
      && r.competitiveAdvantage == data(CompetitiveAdvantage)
    ensures k != Contact ==> ContactColumnsUnset(r)
    ensures k != Collaborator ==> CollaboratorColumnsUnset(r)
    ensures k != LeadMagnetDownload ==> DownloadColumnsUnset(r)
    ensures k != CompanyValuation ==> ValuationColumnsUnset(r)
  {
    match k
    case Contact =>
      EmptyLead.(
        leadType := Str("contact"),
        fullName := data(FullName),
        email := data(Email),
        phone := data(Phone),
        company := data(Company),
        country := data(Country),
        companySize := data(CompanySize),
        referral := data(Referral),
        status := Or(data(Status), Str("new")),
        source := Str("capittal_website"),
        createdAt := Str(now),
        ipAddress := data(IpAddress),
        userAgent := data(UserAgent))
    case Collaborator =>
      EmptyLead.(
        leadType := Str("collaborator"),
        fullName := data(FullName),
        email := data(Email),
        phone := data(Phone),
        company := data(Company),
        profession := data(Profession),
        experience := data(Experience),
        motivation := data(Motivation),
        status := Or(data(Status), Str("pending")),
        source := Str("capittal_collaborators"),
        createdAt := Str(now),
        ipAddress := data(IpAddress),
        userAgent := data(UserAgent))
    case LeadMagnetDownload =>
      EmptyLead.(
        leadType := Str("lead_magnet_download"),
        fullName := data(UserName),
        email := data(UserEmail),
        phone := data(UserPhone),
        company := data(UserCompany),
        leadMagnetId := data(LeadMagnetId),
        status := Str("new"),
        source := Str("capittal_lead_magnets"),
        createdAt := Str(now),
        ipAddress := data(IpAddress),
        userAgent := data(UserAgent),
        referrer := data(Referrer),
        utmSource := data(UtmSource),
        utmMedium := data(UtmMedium),
        utmCampaign := data(UtmCampaign))
    case CompanyValuation =>
      EmptyLead.(
        leadType := Str("company_valuation"),
        fullName := data(ContactName),
        email := data(Email),
        phone := data(Phone),
        company := data(CompanyName),
        cif := data(Cif),
        industry := data(Industry),
        employeeRange := data(EmployeeRange),
        location := data(Location),
        revenue := data(Revenue),
        ebitda := data(Ebitda),
        finalValuation := data(FinalValuation),
        ebitdaMultipleUsed := data(EbitdaMultipleUsed),
        valuationRangeMin := data(ValuationRangeMin),
        valuationRangeMax := data(ValuationRangeMax),
        yearsOfOperation := data(YearsOfOperation),
        netProfitMargin := data(NetProfitMargin),
        growthRate := data(GrowthRate),
        ownershipParticipation := data(OwnershipParticipation),
        competitiveAdvantage := data(CompetitiveAdvantage),
        status := Str("new"),
        source := Str("capittal_valuations"),
        createdAt := Str(now),
        ipAddress := data(IpAddress),
        userAgent := data(UserAgent))
    case Unknown =>
      EmptyLead
  }

  /** The parsed request body: `{type, data}`. */
  datatype Envelope = Envelope(tag: Value, data: Payload)

  /** An HTTP request: its method, and what `await req.json()` yields (`None` for JSON `null`) or throws. */
  datatype Request = Request(httpMethod: string, body: Result<Option<Envelope>>)

  /** The JSON bodies the function answers with. */
  datatype ResponseBody =
    | NoBody                                      // `null`, for the preflight
    | Synced(data: Lead)                          // `{success: true, data}`
    | InsertFailed(error: string, leadData: Lead) // `{success: false, error, leadData}`
    | Failed(error: string)                       // `{success: false, error}`
  {
    /** The `success` property of a JSON body. */
    predicate Success() { Synced? }
  }

  datatype Response = Response(status: int, headers: map<string, string>, body: ResponseBody)

  const CorsHeaders: map<string, string> := map[
    "Access-Control-Allow-Origin" := "*",
    "Access-Control-Allow-Headers" := "authorization, x-client-info, apikey, content-type"]

  const JsonHeaders: map<string, string> := CorsHeaders["Content-Type" := "application/json"]

  /** The message of the TypeError raised when the body is JSON `null` and cannot be destructured. */
  const NullBodyError := "Cannot destructure property 'type' of null"

  /** The message of the TypeError raised when a known kind reads a property of a null or missing `data`. */
  const NullDataError := "Cannot read properties of null or undefined"

  /**
   * What the handler reads from the request before it touches the store:
   * the lead kind and `data`'s properties, or the message of the error that
   * parsing, destructuring or a property read of a nullish `data` raises.
   * An unknown kind never reads `data`, so a nullish `data` is harmless there.
   */
  function ReadEnvelope(body: Result<Option<Envelope>>): (r: Result<(LeadKind, Object)>)
    ensures body.Err? ==> r == Err(body.message)
    ensures body == Ok(None) ==> r == Err(NullBodyError)
    ensures body.Ok? && body.value.Some? ==>
      var e := body.value.value;
      && (r.Err? <==> !Classify(e.tag).Unknown? && e.data.Nullish?)
      && (r.Ok? ==> r.value.0 == Classify(e.tag))
      && (r.Ok? && e.data.Props? ==> r.value.1 == e.data.fields)
  {
    match body
    case Err(m) => Err(m)
    case Ok(None) => Err(NullBodyError)
    case Ok(Some(Envelope(tag, data))) =>
      var k := Classify(tag);
      if data.Nullish? then
        (if k.Unknown? then Ok((k, EmptyObject())) else Err(NullDataError))
      else Ok((k, data.fields))
  }

  /**
   * One invocation of the function. `insert` is what the secondary store
   * answers to the insert; `inserted` lists the rows handed to the store.
   */
  method Handle(req: Request, now: string, insert: Result<Lead>) returns (resp: Response, inserted: seq<Lead>)
    ensures req.httpMethod == "OPTIONS" ==> resp == Response(200, CorsHeaders, NoBody) && inserted == []
    ensures req.httpMethod != "OPTIONS" ==> resp.headers == JsonHeaders
    ensures resp.status == 200 || resp.status == 500
    ensures resp.status == 200 <==> req.httpMethod == "OPTIONS" || (inserted != [] && insert.Ok?)
    ensures resp.body.Success() <==> resp.status == 200 && req.httpMethod != "OPTIONS"
    ensures req.httpMethod != "OPTIONS" && ReadEnvelope(req.body).Err? ==>
      inserted == [] && resp.body == Failed(ReadEnvelope(req.body).message)
    ensures req.httpMethod != "OPTIONS" && ReadEnvelope(req.body).Ok? ==>
      var (k, data) := ReadEnvelope(req.body).value;
      && inserted == [MapLead(k, data, now)]
      && (insert.Ok? ==> resp.body == Synced(insert.value))
      && (insert.Err? ==> resp.body == InsertFailed(insert.message, MapLead(k, data, now)))
  {
    if req.httpMethod == "OPTIONS" {
      return Response(200, CorsHeaders, NoBody), [];
    }
    var parsed := ReadEnvelope(req.body);
    if parsed.Err? {
      return Response(500, JsonHeaders, Failed(parsed.message)), [];
    }
    var (k, data) := parsed.value;
    var leadData := EmptyLead;
    leadData := MapLead(k, data, now);
    inserted := [leadData];
    match insert
    case Err(message) =>
      resp := Response(500, JsonHeaders, InsertFailed(message, leadData));
    case Ok(row) =>
      resp := Response(200, JsonHeaders, Synced(row));
  }

  /**
   * An unrecognised `type` raises nothing: the row is `{}` and it is still
   * handed to the store, even when `data` is missing.
   */
  lemma UnknownTypeStillInserted(tag: Value, data: Payload, now: string)
    requires Classify(tag).Unknown?
    ensures ReadEnvelope(Ok(Some(Envelope(tag, data)))).Ok?
    ensures var (k, d) := ReadEnvelope(Ok(Some(Envelope(tag, data)))).value;
      MapLead(k, d, now) == EmptyLead
  {
  }
}
