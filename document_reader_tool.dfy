/** The `read_document` stub (src/tools/document_reader.tool.ts): given content
    is returned as it is, a given path yields a fixed sample request for
    quotation, and with neither the tool answers an error text. */
module DocumentReaderTool {
  import opened Wrappers

  /** The sample document returned for any file path (already trimmed). */
  const SampleRfq: string := @"REQUEST FOR QUOTATION (RFQ)

Date: January 15, 2024
RFQ Number: RFQ-2024-001

From: ABC Manufacturing Corp
To: XYZ Steel Suppliers

Dear Supplier,

We are requesting a quotation for the following items:

Product: Steel Pipes (Grade A)
Quantity: 1,000 units
Specifications:
- Diameter: 50mm
- Length: 6 meters
- Material: Carbon Steel
- Standard: ASTM A53

Delivery Requirements:
- Delivery Location: ABC Manufacturing Plant, Industrial Zone
- Required Delivery Date: Within 30 days from order confirmation
- Packaging: Standard industrial packaging

Payment Terms:
- 50% advance payment upon order confirmation
- 50% payment upon delivery and inspection
- Payment method: Bank transfer

Quality Requirements:
- Quality certificates required
- Material test certificates (MTC) required
- Inspection allowed before shipment

Please provide your best quotation including:
1. Unit price
2. Total price
3. Delivery timeline
4. Warranty terms
5. Payment terms confirmation

Quotation Deadline: January 25, 2024

Contact Person: John Smith
Email: john.smith@abcmanufacturing.com
Phone: +1-555-0123

Best regards,
ABC Manufacturing Corp"

  const NoInputError: string := "Error: No file path or content provided"

  /** Truthy content wins whatever the path; otherwise a truthy path gives the
      sample; otherwise the error text. The answer is never empty. */
  function ReadDocument(filePath: Option<string>, fileContent: Option<string>): (r: string)
    ensures Truthy(fileContent) ==> r == fileContent.value
    ensures !Truthy(fileContent) && Truthy(filePath) ==> r == SampleRfq
    ensures !Truthy(fileContent) && !Truthy(filePath) ==> r == NoInputError
    ensures r != ""
  {
    if Truthy(fileContent) then fileContent.value
    else if Truthy(filePath) then SampleRfq
    else NoInputError
  }

  /** The path matters only through whether it is truthy. */
  lemma ReadDocumentPathTruthinessOnly(p1: Option<string>, p2: Option<string>, fileContent: Option<string>)
    requires Truthy(p1) == Truthy(p2)
    ensures ReadDocument(p1, fileContent) == ReadDocument(p2, fileContent)
  {
  }
}
