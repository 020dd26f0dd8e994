/**
 * How `sync-leads` reads the valuation row `saveValuation` forwards to it:
 * the forwarded envelope is classified as a company valuation, and the lead
 * built from it carries the stored row's values.
 */
module ValuationForwarding {
  import opened Js
  import opened Valuation
  import SyncLeads

  /** `sync-leads` reads the forwarded row as a company valuation whose `data` is the row itself. */
  lemma ForwardedRowIsValuation(row: ValuationRow)
    ensures SyncLeads.ReadEnvelope(Ok(Some(SyncEnvelope(row)))) == Ok((SyncLeads.CompanyValuation, RowObject(row)))
  {
  }

  /**
   * The lead `sync-leads` builds from the forwarded row carries the stored
   * row's values: contact and company under `full_name` and `company`, and
   * the figures, the range and the client details unchanged.
   */
  lemma ForwardedRowBecomesLead(row: ValuationRow, now: string)
    ensures var lead := SyncLeads.MapLead(SyncLeads.CompanyValuation, RowObject(row), now);
      && lead.fullName == row.contactName && lead.company == row.companyName
      && lead.email == row.email && lead.phone == row.phone && lead.cif == row.cif
      && lead.industry == row.industry && lead.employeeRange == row.employeeRange
      && lead.location == row.location && lead.yearsOfOperation == row.yearsOfOperation
      && lead.revenue == row.revenue && lead.ebitda == row.ebitda
      && lead.netProfitMargin == row.netProfitMargin && lead.growthRate == row.growthRate
      && lead.ownershipParticipation == row.ownershipParticipation
      && lead.competitiveAdvantage == row.competitiveAdvantage
      && lead.finalValuation == row.finalValuation
      && lead.ebitdaMultipleUsed == row.ebitdaMultipleUsed
      && lead.valuationRangeMin == row.valuationRangeMin
      && lead.valuationRangeMax == row.valuationRangeMax
      && lead.ipAddress == row.ipAddress && lead.userAgent == row.userAgent
  {
    RowObjectReadsContact(row);
    RowObjectReadsCompany(row);
    RowObjectReadsClient(row);
    RowObjectReadsProfile(row);
    RowObjectReadsFigures(row);
    RowObjectReadsValuation(row);
  }

  /** Reading a contact column's property name from the forwarded object yields that column. */
  lemma RowObjectReadsContact(row: ValuationRow)
    ensures var data := RowObject(row);
      && data(ContactName) == row.contactName && data(CompanyName) == row.companyName
      && data(Email) == row.email && data(Phone) == row.phone
  {
  }

  /** Reading a client column's property name from the forwarded object yields that column. */
  lemma RowObjectReadsClient(row: ValuationRow)
    ensures var data := RowObject(row);
      && data(Cif) == row.cif && data(IpAddress) == row.ipAddress && data(UserAgent) == row.userAgent
  {
  }

  /** Reading a company column's property name from the forwarded object yields that column. */
  lemma RowObjectReadsCompany(row: ValuationRow)
    ensures var data := RowObject(row);
      && data(Industry) == row.industry && data(EmployeeRange) == row.employeeRange
      && data(Location) == row.location
  {
  }

  /** Reading a profile column's property name from the forwarded object yields that column. */
  lemma RowObjectReadsProfile(row: ValuationRow)
    ensures var data := RowObject(row);
      && data(YearsOfOperation) == row.yearsOfOperation
      && data(OwnershipParticipation) == row.ownershipParticipation
      && data(CompetitiveAdvantage) == row.competitiveAdvantage
  {
  }

  /** Reading a financial figure's property name from the forwarded object yields that column. */
  lemma RowObjectReadsFigures(row: ValuationRow)
    ensures var data := RowObject(row);
      && data(Revenue) == row.revenue && data(Ebitda) == row.ebitda
      && data(NetProfitMargin) == row.netProfitMargin && data(GrowthRate) == row.growthRate
  {
  }

  /** Reading a valuation figure's property name from the forwarded object yields that column. */
  lemma RowObjectReadsValuation(row: ValuationRow)
    ensures var data := RowObject(row);
      && data(FinalValuation) == row.finalValuation
      && data(EbitdaMultipleUsed) == row.ebitdaMultipleUsed
      && data(ValuationRangeMin) == row.valuationRangeMin
      && data(ValuationRangeMax) == row.valuationRangeMax
  {
  }
}
