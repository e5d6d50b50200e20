/** The supplier tool (src/tools/supplier_info.tool.ts): a lookup over the
    inline supplier table by a supplier id bound when the tool is created. */
module SupplierInfoTool {
  import opened Wrappers
  import opened Lookup

  datatype Supplier = Supplier(
    supplierName: string,
    supplierId: string,
    primaryContact: string,
    phone: string,
    email: string,
    address: string,
    certification: string,
    paymentTermsAccepted: string,
    productFocus: string,
    description: string)

  /** The tool's own table: a single supplier. */
  const MockSuppliers: seq<Supplier> := [
    Supplier(
      "ChemCore Solutions Inc.",
      "CCSI-910-S",
      "Sarah Johnson (Sales Director)",
      "+1 (555) 301-4567",
      "sjohnson@chemcoresolutions.com",
      "22 East Harbor Blvd, Houston, TX, 77002, USA",
      "ISO 9001:2015, REACH Compliant",
      "Net 30/60 Days",
      "Custom chemical formulations, bulk industrial solvents, and polymer intermediates.",
      "Well-established, mid-sized chemical manufacturer known for on-time delivery and flexible ordering. Stellar's preferred domestic supplier for specialty resins.")
  ]

  function SupplierIdOf(s: Supplier): string
  {
    s.supplierId
  }

  /** The body of the `get_supplier_info` tool bound to `supplierId`: the first
      supplier with that id, or the not-found text. */
  function GetSupplierInfo(supplierId: string): (r: LookupResult<Supplier>)
    ensures r.Found? <==> exists i :: 0 <= i < |MockSuppliers| && MockSuppliers[i].supplierId == supplierId
    ensures r.Found? ==> r.record.supplierId == supplierId && r.record in MockSuppliers
    ensures r.Found? ==> Find(MockSuppliers, SupplierIdOf, supplierId) == Some(r.record)
    ensures r.NotFound? ==> r.message == "Supplier ID: " + supplierId + " not found"
  {
    LookupById(MockSuppliers, SupplierIdOf, "Supplier", supplierId)
  }

  /** `createGetSupplierInfoTool`: the id is captured at creation and the tool
      takes no argument, so every call answers the lookup of that id. */
  function CreateGetSupplierInfoTool(supplierId: string): (tool: () -> LookupResult<Supplier>)
    ensures tool().Found? ==> tool().record.supplierId == supplierId
    ensures tool() == GetSupplierInfo(supplierId)
  {
    () => GetSupplierInfo(supplierId)
  }

  /** Over the inline table exactly one id is found. */
  lemma GetSupplierInfoInlineTable(supplierId: string)
    ensures GetSupplierInfo(supplierId).Found? <==> supplierId == "CCSI-910-S"
    ensures GetSupplierInfo(supplierId).Found? ==> GetSupplierInfo(supplierId).record == MockSuppliers[0]
  {
    LookupSingleton(MockSuppliers[0], SupplierIdOf, "Supplier", supplierId);
  }
}
