/**
 * The client-side persistence of the valuation calculator: `saveValuation`
 * stores a `company_valuations` row built from the form and the computed
 * result, forwards the same row to `sync-leads`, and toasts; `saveToolRating`
 * stores a `tool_ratings` row. The browser's user agent, the IP lookup, the
 * store's answers and the forwarding call's answer are parameters; what the
 * code does with the outside world is returned as a trace of effects.
 */
module Valuation {
  import opened Js
  import SyncLeads
  import opened Ui

  /** The valuation form's data (`CompanyData`); each field holds whatever the form produced. */
  datatype CompanyData = CompanyData(
    contactName: Value, companyName: Value, cif: Value, email: Value, phone: Value,
    industry: Value, yearsOfOperation: Value, employeeRange: Value,
    revenue: Value, ebitda: Value, netProfitMargin: Value, growthRate: Value,
    location: Value, ownershipParticipation: Value, competitiveAdvantage: Value)

  /** The calculator's output (`ValuationResult`), with its nested objects flattened. */
  datatype ValuationResult = ValuationResult(
    ebitdaMultiple: Value, finalValuation: Value,
    rangeMin: Value, rangeMax: Value, ebitdaMultipleUsed: Value)

  /** A row of `company_valuations`: the object `insertData`. */
  datatype ValuationRow = ValuationRow(
    contactName: Value, companyName: Value, cif: Value, email: Value, phone: Value,
    industry: Value, yearsOfOperation: Value, employeeRange: Value,
    revenue: Value, ebitda: Value, netProfitMargin: Value, growthRate: Value,
    location: Value, ownershipParticipation: Value, competitiveAdvantage: Value,
    finalValuation: Value, ebitdaMultipleUsed: Value,
    valuationRangeMin: Value, valuationRangeMax: Value,
    ipAddress: Value, userAgent: Value,
    emailSent: bool, whatsappSent: bool, hubspotSent: bool)

  /** The text inputs that are stored as `''` when falsy, in column order. */
  function TextInputs(cd: CompanyData): seq<Value>
  {
    [cd.contactName, cd.companyName, cd.email, cd.industry, cd.employeeRange]
  }

  /** The columns that hold `TextInputs`, in the same order. */
  function TextColumns(row: ValuationRow): seq<Value>
  {
    [row.contactName, row.companyName, row.email, row.industry, row.employeeRange]
  }

  /** The inputs that are stored as `null` when falsy, in column order. */
  function OptionalInputs(cd: CompanyData, res: ValuationResult): seq<Value>
  {
    [cd.cif, cd.phone, cd.yearsOfOperation, cd.revenue, cd.ebitda, cd.netProfitMargin,
     cd.growthRate, cd.location, cd.ownershipParticipation, cd.competitiveAdvantage,
     res.finalValuation, res.ebitdaMultipleUsed, res.rangeMin, res.rangeMax]
  }

  /** The columns that hold `OptionalInputs`, in the same order. */
  function OptionalColumns(row: ValuationRow): seq<Value>
  {
    [row.cif, row.phone, row.yearsOfOperation, row.revenue, row.ebitda, row.netProfitMargin,
     row.growthRate, row.location, row.ownershipParticipation, row.competitiveAdvantage,
     row.finalValuation, row.ebitdaMultipleUsed, row.valuationRangeMin, row.valuationRangeMax]
  }

  /**
   * The row `saveValuation` inserts. A truthy input is stored as given; a
   * falsy one (including the number 0) becomes `''` for the five text
   * columns and `null` for every other one. The notification flags start false.
   */
  function InsertData(cd: CompanyData, res: ValuationResult, ipAddress: Value, userAgent: string): (row: ValuationRow)
    ensures !row.emailSent && !row.whatsappSent && !row.hubspotSent
    ensures row.ipAddress == ipAddress && row.userAgent == Str(userAgent)
  {
    ValuationRow(
      contactName := Or(cd.contactName, Str("")),
      companyName := Or(cd.companyName, Str("")),
      cif := Or(cd.cif, Null),
      email := Or(cd.email, Str("")),
      phone := Or(cd.phone, Null),
      industry := Or(cd.industry, Str("")),
      yearsOfOperation := Or(cd.yearsOfOperation, Null),
      employeeRange := Or(cd.employeeRange, Str("")),
      revenue := Or(cd.revenue, Null),
      ebitda := Or(cd.ebitda, Null),
      netProfitMargin := Or(cd.netProfitMargin, Null),
      growthRate := Or(cd.growthRate, Null),
      location := Or(cd.location, Null),
      ownershipParticipation := Or(cd.ownershipParticipation, Null),
      competitiveAdvantage := Or(cd.competitiveAdvantage, Null),
      finalValuation := Or(res.finalValuation, Null),
      ebitdaMultipleUsed := Or(res.ebitdaMultipleUsed, Null),
      valuationRangeMin := Or(res.rangeMin, Null),
      valuationRangeMax := Or(res.rangeMax, Null),
      ipAddress := ipAddress,
      userAgent := Str(userAgent),
      emailSent := false,
      whatsappSent := false,
      hubspotSent := false)
  }

  /**
   * Column by column, a truthy input is stored as given and a falsy one as
   * its default: `''` for the text columns, `null` for the others.
   */
  lemma {:induction false} FalsyInputsDefaulted(cd: CompanyData, res: ValuationResult, ipAddress: Value, userAgent: string)
    ensures var row := InsertData(cd, res, ipAddress, userAgent);
      && |TextColumns(row)| == |TextInputs(cd)|
      && forall i | 0 <= i < |TextInputs(cd)| ::
           && (Truthy(TextInputs(cd)[i]) ==> TextColumns(row)[i] == TextInputs(cd)[i])
           && (!Truthy(TextInputs(cd)[i]) ==> TextColumns(row)[i] == Str(""))
    ensures var row := InsertData(cd, res, ipAddress, userAgent);
      && |OptionalColumns(row)| == |OptionalInputs(cd, res)|
      && forall i | 0 <= i < |OptionalInputs(cd, res)| ::
           && (Truthy(OptionalInputs(cd, res)[i]) ==> OptionalColumns(row)[i] == OptionalInputs(cd, res)[i])
           && (!Truthy(OptionalInputs(cd, res)[i]) ==> OptionalColumns(row)[i] == Null)
  {
    var row := InsertData(cd, res, ipAddress, userAgent);
    forall i | 0 <= i < |TextInputs(cd)|
      ensures TextColumns(row)[i] == Or(TextInputs(cd)[i], Str(""))
    {
      assert i in {0, 1, 2, 3, 4};
    }
    forall i | 0 <= i < |OptionalInputs(cd, res)|
      ensures OptionalColumns(row)[i] == Or(OptionalInputs(cd, res)[i], Null)
    {
      assert i in {0, 1, 2, 3, 4, 5, 6, 7, 8, 9, 10, 11, 12, 13};
    }
  }

  /**
   * The only falsy values a stored row holds are the defaults: a text column
   * is truthy or `''`, every other input column is truthy or `null`; no
   * column holds `undefined`, `false` or 0.
   */
  lemma StoredFalsyValuesAreDefaults(cd: CompanyData, res: ValuationResult, ipAddress: Value, userAgent: string)
    ensures var row := InsertData(cd, res, ipAddress, userAgent);
      && (forall v | v in TextColumns(row) :: Truthy(v) || v == Str(""))
      && (forall v | v in OptionalColumns(row) :: Truthy(v) || v == Null)
  {
    var row := InsertData(cd, res, ipAddress, userAgent);
    FalsyInputsDefaulted(cd, res, ipAddress, userAgent);
    forall v | v in TextColumns(row)
      ensures Truthy(v) || v == Str("")
    {
      var i :| 0 <= i < |TextColumns(row)| && TextColumns(row)[i] == v;
    }
    forall v | v in OptionalColumns(row)
      ensures Truthy(v) || v == Null
    {
      var i :| 0 <= i < |OptionalColumns(row)| && OptionalColumns(row)[i] == v;
    }
  }

  /**
   * A revenue, EBITDA or growth rate of 0 is stored exactly as a missing one:
   * the `||` default cannot tell "zero" from "not supplied".
   */
  lemma ZeroStoredAsMissing(cd: CompanyData, res: ValuationResult, ipAddress: Value, userAgent: string)
    ensures InsertData(cd.(revenue := Num(0)), res, ipAddress, userAgent)
         == InsertData(cd.(revenue := Undefined), res, ipAddress, userAgent)
    ensures InsertData(cd.(ebitda := Num(0)), res, ipAddress, userAgent)
         == InsertData(cd.(ebitda := Undefined), res, ipAddress, userAgent)
    ensures InsertData(cd.(growthRate := Num(0)), res, ipAddress, userAgent)
         == InsertData(cd.(growthRate := Undefined), res, ipAddress, userAgent)
    ensures InsertData(cd.(revenue := Num(0)), res, ipAddress, userAgent).revenue == Null
  {
  }

  /** `insertData` seen as the `data` object of the forwarded envelope. */
  function RowObject(row: ValuationRow): Object
  {
    (p: Prop) => RowProperty(row, p)
  }

  /** The property `p` of `insertData`; the row has no property outside its columns. */
  function RowProperty(row: ValuationRow, p: Prop): Value
  {
      match p
      case ContactName => row.contactName
      case CompanyName => row.companyName
      case Cif => row.cif
      case Email => row.email
      case Phone => row.phone
      case Industry => row.industry
      case YearsOfOperation => row.yearsOfOperation
      case EmployeeRange => row.employeeRange
      case Revenue => row.revenue
      case Ebitda => row.ebitda
      case NetProfitMargin => row.netProfitMargin
      case GrowthRate => row.growthRate
      case Location => row.location
      case OwnershipParticipation => row.ownershipParticipation
      case CompetitiveAdvantage => row.competitiveAdvantage
      case FinalValuation => row.finalValuation
      case EbitdaMultipleUsed => row.ebitdaMultipleUsed
      case ValuationRangeMin => row.valuationRangeMin
      case ValuationRangeMax => row.valuationRangeMax
      case IpAddress => row.ipAddress
      case UserAgent => row.userAgent
      case EmailSent => Bool(row.emailSent)
      case WhatsappSent => Bool(row.whatsappSent)
      case HubspotSent => Bool(row.hubspotSent)
      case _ => Undefined
  }

  /** The body `{type: 'company_valuation', data: insertData}` sent to `sync-leads`. */
  function SyncEnvelope(row: ValuationRow): SyncLeads.Envelope
  {
    SyncLeads.Envelope(Str("company_valuation"), Props(RowObject(row)))
  }

  /** A row of `tool_ratings`. */
  datatype RatingRow = RatingRow(
    easeOfUse: Value, resultAccuracy: Value, recommendation: Value,
    feedbackComment: Value, userEmail: Value, companySector: Value, companySize: Value,
    ipAddress: Value, userAgent: Value)

  /** The row `saveToolRating` inserts: seven properties of the rating copied as they are, plus the client details. */
  function RatingRowOf(rating: Object, ipAddress: Value, userAgent: string): (row: RatingRow)
    ensures row.easeOfUse == rating(EaseOfUse) && row.resultAccuracy == rating(ResultAccuracy)
    ensures row.recommendation == rating(Recommendation) && row.feedbackComment == rating(FeedbackComment)
    ensures row.userEmail == rating(UserEmail) && row.companySector == rating(CompanySector)
    ensures row.companySize == rating(CompanySize)
    ensures row.ipAddress == ipAddress && row.userAgent == Str(userAgent)
  {
    RatingRow(
      rating(EaseOfUse), rating(ResultAccuracy), rating(Recommendation),
      rating(FeedbackComment), rating(UserEmail), rating(CompanySector), rating(CompanySize),
      ipAddress, Str(userAgent))
  }

  /** What the code does to the outside world, in order. */
  datatype Effect =
    | InsertValuation(row: ValuationRow)         // insert into `company_valuations`
    | InsertRating(rating: RatingRow)            // insert into `tool_ratings`
    | InvokeSync(body: SyncLeads.Envelope)       // `functions.invoke('sync-leads', {body})`
    | ShowToast(toast: Toast)

  const SavedToast := Toast(Default, "✅ Datos guardados",
    "La valoración se ha guardado correctamente en la base de datos.")

  /** The message of the error raised when the store rejects the valuation. */
  function StoreError(message: string): string
  {
    "Error de Supabase: " + message
  }

  /** The toast shown before the error `message` is raised again. */
  function FailureToast(message: string): Toast
  {
    Toast(Destructive, "❌ Error al guardar", "No se pudieron guardar los datos: " + message)
  }

  /**
   * `saveValuation`. `userAgent` is the browser's, `ipLookup` is the `ip`
   * property of the lookup's JSON answer or the error the lookup raised,
   * `insert` is the store's answer to the insert and `sync` the answer of the
   * forwarding call. A failed lookup leaves the address `''` and the save goes
   * on; a rejected insert toasts and raises; after a successful insert the row
   * is forwarded and, whatever `sync` is, the call toasts and returns the data.
   */
  method SaveValuation<T>(cd: CompanyData, res: ValuationResult, userAgent: string,
                          ipLookup: Result<Value>, insert: Result<T>, sync: Result<Value>)
    returns (outcome: Result<T>, effects: seq<Effect>)
    ensures var row := InsertData(cd, res, if ipLookup.Ok? then ipLookup.value else Str(""), userAgent);
      && |effects| >= 2
      && effects[0] == InsertValuation(row)
      && (insert.Ok? ==>
            && outcome == Ok(insert.value)
            && effects == [InsertValuation(row), InvokeSync(SyncEnvelope(row)), ShowToast(SavedToast)])
      && (insert.Err? ==>
            && outcome == Err(StoreError(insert.message))
            && effects == [InsertValuation(row), ShowToast(FailureToast(StoreError(insert.message)))])
    ensures outcome.Ok? <==> insert.Ok?
    ensures (exists e | e in effects :: e.InvokeSync?) <==> insert.Ok?
  {
    var agent := "";
    var ipAddress := Str("");
    agent := userAgent;
    match ipLookup {
      case Ok(ip) => ipAddress := ip;
      case Err(_) =>
    }
    var insertData := InsertData(cd, res, ipAddress, agent);
    effects := [InsertValuation(insertData)];
    if insert.Err? {
      var error := StoreError(insert.message);
      effects := effects + [ShowToast(FailureToast(error))];
      return Err(error), effects;
    }
    // The forwarding call's answer, error or exception is only logged.
    effects := effects + [InvokeSync(SyncEnvelope(insertData))];
    effects := effects + [ShowToast(SavedToast)];
    assert effects[1].InvokeSync?;
    outcome := Ok(insert.value);
  }

  /**
   * `saveToolRating`. Unlike `saveValuation`, a failed IP lookup raises
   * before anything is stored, and so does a nullish `rating`; otherwise the
   * row is inserted and the store's answer, data or error, is passed on.
   * The call never toasts and never forwards.
   */
  method SaveToolRating<T>(rating: Payload, userAgent: string, ipLookup: Result<Value>, insert: Result<T>)
    returns (outcome: Result<T>, effects: seq<Effect>)
    ensures ipLookup.Err? ==> outcome == Err(ipLookup.message) && effects == []
    ensures ipLookup.Ok? && rating.Nullish? ==> outcome == Err(SyncLeads.NullDataError) && effects == []
    ensures ipLookup.Ok? && rating.Props? ==>
      && effects == [InsertRating(RatingRowOf(rating.fields, ipLookup.value, userAgent))]
      && outcome == insert
    ensures forall e | e in effects :: e.InsertRating?
  {
    effects := [];
    var agent := userAgent;
    if ipLookup.Err? {
      return Err(ipLookup.message), effects;
    }
    if rating.Nullish? {
      return Err(SyncLeads.NullDataError), effects;
    }
    var row := RatingRowOf(rating.fields, ipLookup.value, agent);
    effects := effects + [InsertRating(row)];
    outcome := insert;
  }
}
