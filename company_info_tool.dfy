/** The company tool (src/tools/company_info.tool.ts): a check of the company id
    bound when the tool is created against the single internal company record. */
module CompanyInfoTool {
  import opened Lookup

  /** The company record; `annualBudget` is a JavaScript number, only copied. */
  datatype Company = Company(
    companyName: string,
    companyId: string,
    division: string,
    procurementAgent: string,
    agentId: string,
    defaultPaymentTerms: string,
    annualBudget: real,
    primaryLocation: string,
    industryFocus: string,
    erpSystem: string)

  const MockCompany: Company := Company(
    "Stellar Manufacturing Corp.",
    "SMC-HQ-3001",
    "Advanced Materials Procurement",
    "David Chen",
    "DC-88-PA",
    "Net 45 Days",
    45000000.0,
    "1450 Innovation Drive, Suite 200, Indianapolis, IN, 46204, USA",
    "Precision Engineering & Robotics",
    "SAP S/4HANA (MM)")

  function CompanyIdOf(c: Company): string
  {
    c.companyId
  }

  /** The body of the `get_company_info` tool bound to `companyId`: the company
      record when the ids are equal, the not-found text otherwise. */
  function GetCompanyInfo(companyId: string): (r: LookupResult<Company>)
    ensures r.Found? <==> companyId == "SMC-HQ-3001"
    ensures r.Found? ==> r.record == MockCompany
    ensures r.NotFound? ==> r.message == "Company ID: " + companyId + " not found"
  {
    if MockCompany.companyId != companyId then NotFound(NotFoundMessage("Company", companyId))
    else Found(MockCompany)
  }

  /** `createGetCompanyInfoTool`: the id is captured at creation and the tool takes
      no argument, so every call gives the same answer. */
  function CreateGetCompanyInfoTool(companyId: string): (tool: () -> LookupResult<Company>)
    ensures tool().Found? <==> companyId == MockCompany.companyId
    ensures tool() == GetCompanyInfo(companyId)
  {
    () => GetCompanyInfo(companyId)
  }

  /** The equality check is the shared first-match lookup over the one-record
      table holding the company. */
  lemma CompanyCheckIsLookup(companyId: string)
    ensures GetCompanyInfo(companyId) == LookupById([MockCompany], CompanyIdOf, "Company", companyId)
  {
    LookupSingleton(MockCompany, CompanyIdOf, "Company", companyId);
  }
}
