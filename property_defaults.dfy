/**
 * The preset projects and property types of the application, as worked
 * examples of the cost buildup.
 */
module PropertyDefaults {
  import opened Wrappers
  import opened Calculations

  const RetailType: PropertyType := PropertyType("retail", "Retail")
  const OfficeType: PropertyType := PropertyType("office", "Office")
  const HotelType: PropertyType := PropertyType("hotel", "Hotel")

  /** The four suites of the retail preset. */
  const RetailTenants: seq<Tenant> := [
    Tenant("Suite 1", 2800.0, 47.0, 35.0),
    Tenant("Suite 2", 1200.0, 47.0, 35.0),
    Tenant("Suite 3", 2500.0, 45.0, 35.0),
    Tenant("Suite 4", 2500.0, 45.0, 35.0)
  ]

  /** The office preset; it has no tenant list. */
  const OfficeDefaults: ProjectData := ProjectData(
    grossSquareFeet := 12000.0,
    rentablePercent := 97.5,
    useablePercent := 90.0,
    landAcres := 2.33,
    officeTIPerSF := 60.0,
    tenants := None)

  /** Every retail suite is improved at 35 per square foot over 9,000 leased square feet. */
  lemma RetailTenantsTI()
    ensures TotalSqft(RetailTenants) == 9000.0
    ensures SumTI(RetailTenants) == 35.0 * 9000.0 == 315000.0
  {
    SumTIUniformRate(RetailTenants, 35.0);
  }

  /** Any project carrying the retail suites, priced as retail or with no type chosen, has a TI total of 315,000. */
  lemma RetailDefaultTI(p: ProjectData, selectedType: Option<PropertyType>)
    requires p.tenants == Some(RetailTenants)
    requires selectedType == Some(RetailType) || selectedType == None
    ensures CalculateProForma(p, selectedType).Success?
    ensures CalculateProForma(p, selectedType).value.totalTI == 315000.0
  {
    RetailTenantsTI();
  }

  /** The office preset, priced as an office. */
  lemma OfficeDefaultsProForma()
    ensures CalculateProForma(OfficeDefaults, Some(OfficeType)) == Success(ProForma(11700.0, 10800.0, 101494.8, 720000.0))
  {
  }

  /** The office preset has no tenants, so pricing it as any other type fails. */
  lemma OfficeDefaultsOtherType(selectedType: Option<PropertyType>)
    requires selectedType in {None, Some(RetailType), Some(HotelType)}
    ensures CalculateProForma(OfficeDefaults, selectedType) == Failure(TenantsMissing)
  {
  }
}
