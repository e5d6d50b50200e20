# Procurement agent: conversation status and lookup tools

A Dafny model of the logic inside a procurement chat assistant built around an
external language-model agent library. The library, its prompts and the HTTP
server are not modelled. What is modelled is the code the repository itself
owns:

- **Conversation status tracking** (`src/core/agent.core.ts`,
  `src/types/conversation.types.ts`). `DeepProcurmentAgentService` keeps a
  `TestSchema` record: three ids, a `ConversationStatus` and an optional note.
  `updateStatus` always overwrites the status. It overwrites the note only when
  the given note is truthy in JavaScript (present and non-empty). `getConfig`
  returns a copy of the record. The class keeps the source's spelling of its
  name.
- **The `update_conversation_status` tool** (`src/tools/conversation_status.tool.ts`).
  The argument schema admits only the seven status strings. The handler calls
  the update callback and returns a confirmation text, with `. Note: …` added
  for a truthy note. If the callback throws, it returns a failure text instead.
  The model proves that the confirmation text can be read back into the status
  and note it reports (`DecodeSuccess`).
- **Id lookup tools** (`src/tools/product_info.tool.ts`, `supplier_info.tool.ts`,
  `company_info.tool.ts`). These share one generic first-match lookup,
  `Lookup.Find`, with a `<Kind> ID: <id> not found` text when nothing matches.
  The product lookup takes its id as an argument. The supplier and company
  tools are closures over an id bound when the tool is made. The company tool
  is an equality test, proved equal to the generic lookup over a one-record
  table. `list_all_products` is an order-preserving projection to summaries.
- **The `read_document` stub** (`src/tools/document_reader.tool.ts`). Truthy
  content is returned as is. Otherwise a truthy path yields a fixed sample RFQ
  text. Otherwise the tool returns an error text.

JavaScript truthiness of an optional string is modelled once, as
`Wrappers.Truthy`. Successful lookups return the record itself (`Found(record)`)
rather than its JSON text.

## Model

| member | source | states |
|---|---|---|
| `Wrappers.Truthy` | src/core/agent.core.ts:79 | the JavaScript truthiness of an optional string: true exactly when the string is present and has at least one character |
| `ConversationTypes.Parse` | src/types/conversation.types.ts:4-12 | a string is accepted iff it is the value of some status, and the accepted status has exactly that value |
| `ConversationTypes.ParseName` | src/types/conversation.types.ts:5-11 | parsing the value of a status gives that status back |
| `ConversationTypes.NameInjective` | src/types/conversation.types.ts:5-11 | distinct statuses have distinct string values |
| `ConversationTypes.ExactlySevenStatuses` | src/types/conversation.types.ts:4-12 | the status list has seven entries, contains every status and has no repeats |
| `ConversationTypes.Name` | src/types/conversation.types.ts:5-11 | the string value of each status (its own name) is non-empty and contains no full stop |
| `AgentCore.ApplyUpdate` | src/core/agent.core.ts:77-82 | after an update the status is the given one, the note is the given note if it is truthy and the old note otherwise, and the three ids are unchanged |
| `AgentCore.ApplyUpdateIdempotent` | src/core/agent.core.ts:77-82 | applying the same update twice gives the same record as applying it once |
| `AgentCore.LastNoteIsLastTruthy` | src/core/agent.core.ts:79-81 | the note kept after a series of updates is the original note when no given note is truthy, and otherwise the last truthy note given |
| `AgentCore.ApplyAllLast` | src/core/agent.core.ts:77-82 | after a non-empty series of updates the status is the last one given, the note is the last truthy note (or the original one) and the ids are the original ones |
| `AgentCore.ApplyAllAppend` | src/core/agent.core.ts:77-82 | applying one series of updates and then another equals applying their concatenation |
| `AgentCore.NotePersists` | src/core/agent.core.ts:79-81 | a truthy note given with one update survives a following update whose note is absent or empty, for every record and pair of statuses |
| `AgentCore.DeepProcurmentAgentService.constructor` | src/core/agent.core.ts:19-20 | right after construction the stored record is the one supplied |
| `AgentCore.DeepProcurmentAgentService.GetConfig` | src/core/agent.core.ts:70-72 | returns a value equal to the current record and changes no state |
| `AgentCore.DeepProcurmentAgentService.UpdateStatus` | src/core/agent.core.ts:77-82 | the new record is `ApplyUpdate` of the old one: status overwritten, note overwritten only by a truthy note, ids unchanged |
| `ConversationStatusTool.SuccessMessage` | src/tools/conversation_status.tool.ts:16-18 | the confirmation starts with the success prefix, and it extends past the prefix and status value iff the note is truthy |
| `ConversationStatusTool.HandlerResult` | src/tools/conversation_status.tool.ts:14-21 | the handler always yields a string: the confirmation when the callback returns, the failure prefix followed by the error message when it throws |
| `ConversationStatusTool.SuccessMessageDecodes` | src/tools/conversation_status.tool.ts:16-18 | the confirmation text decodes back to its status, and to its note exactly when that note is truthy |
| `ConversationStatusTool.DecodeExact` | src/tools/conversation_status.tool.ts:16-18 | conversely, any text that decodes as a confirmation is exactly the confirmation of the status and note it decodes to, and a decoded note is truthy |
| `ConversationStatusTool.FailureIsNotSuccess` | src/tools/conversation_status.tool.ts:19-21 | a failure text never has the success prefix and never decodes as a confirmation |
| `ConversationStatusTool.ParseArguments` | src/tools/conversation_status.tool.ts:36-42 | the schema accepts exactly the seven status values, keeping the note as given, and otherwise reports the rejected string |
| `ConversationStatusTool.UpdateConversationStatus` | src/tools/conversation_status.tool.ts:13-21 | wired to the service, the handler's effect is one `updateStatus(status, note)`, and its message decodes to the status now stored |
| `ConversationStatusTool.InvokeTool` | src/tools/conversation_status.tool.ts:36-42 | a status outside the enum is rejected before the handler runs and leaves the state unchanged; any other call updates the state and returns the confirmation |
| `Lookup.Find` | src/tools/product_info.tool.ts:37 | finds a record iff some record has the key, and then returns the first such record, whose key equals the requested id |
| `Lookup.NotFoundMessage` | src/tools/product_info.tool.ts:40 | the not-found text starts with `<Kind> ID: `, ends with ` not found`, and holds exactly the id in between |
| `Lookup.NotFoundMessageInjective` | src/tools/supplier_info.tool.ts:50 | two not-found texts of one kind are equal only for the same id |
| `Lookup.LookupById` | src/tools/product_info.tool.ts:37-43 | found exactly when `Find` finds, with `Find`'s record, otherwise the `<Kind> ID: <id> not found` text |
| `Lookup.LookupSingleton` | src/tools/company_info.tool.ts:45-49 | over a one-record table the lookup is an equality test on that record's key |
| `ProductInfoTool.GetProductInfo` | src/tools/product_info.tool.ts:36-43 | found iff a product has the requested id, returning the first such product; otherwise `Product ID: <id> not found` |
| `ProductInfoTool.GetProductInfoInlineTable` | src/tools/product_info.tool.ts:17-30 | over the inline table exactly the id `APR-200-P-0421` is found, yielding the table's product |
| `ProductInfoTool.Summarize` | src/tools/product_info.tool.ts:60-65 | a summary copies the product's id, name and category, and takes `costPerKG` from `standardCostPerKG` |
| `ProductInfoTool.ListProducts` | src/tools/product_info.tool.ts:60-65 | one summary per product, in table order, copying id, name and category, with `costPerKG` taken from `standardCostPerKG` |
| `ProductInfoTool.ListAllProducts` | src/tools/product_info.tool.ts:59-68 | the listing has one summary per inline product, in table order |
| `ProductInfoTool.FoundProductIsListed` | src/tools/product_info.tool.ts:36-65 | every product the lookup finds appears in the listing under the requested id |
| `SupplierInfoTool.GetSupplierInfo` | src/tools/supplier_info.tool.ts:46-53 | found iff a supplier has the bound id, returning the first match; otherwise `Supplier ID: <id> not found` |
| `SupplierInfoTool.CreateGetSupplierInfoTool` | src/tools/supplier_info.tool.ts:44-47 | the tool takes no argument and always answers the lookup of the id bound at creation |
| `SupplierInfoTool.GetSupplierInfoInlineTable` | src/tools/supplier_info.tool.ts:23-38 | over the inline table exactly the id `CCSI-910-S` is found, yielding the table's supplier |
| `CompanyInfoTool.GetCompanyInfo` | src/tools/company_info.tool.ts:43-49 | the company record is returned iff the bound id is `SMC-HQ-3001`, otherwise `Company ID: <id> not found` |
| `CompanyInfoTool.CreateGetCompanyInfoTool` | src/tools/company_info.tool.ts:41-50 | the tool takes no argument, and every call gives the answer for the id bound at creation |
| `CompanyInfoTool.CompanyCheckIsLookup` | src/tools/company_info.tool.ts:23-49 | the equality check equals the generic first-match lookup over the one-record table holding the company |
| `DocumentReaderTool.ReadDocument` | src/tools/document_reader.tool.ts:36-96 | truthy content is returned unchanged whatever the path; else a truthy path gives the sample RFQ; else the error text; the answer is never empty |
| `DocumentReaderTool.ReadDocumentPathTruthinessOnly` | src/tools/document_reader.tool.ts:40-42 | the answer depends on the path only through whether it is truthy |

## Left out

- The agent runtime: `createDeepAgent`, the chat model, the in-memory store, the system prompt text and the async `processQuery`/`streamQuery` (src/core/agent.core.ts:21-64, 90-116). These are calls into an external library.
- The HTTP server in src/index.ts, the sub-agent definitions, the prompt file, src/types/subagent.types.ts and the two context schema files. They are transport code, configuration objects or types without logic.
- The mock data files under src/mocks/. The tools use their own inline tables, and those tables are modelled.
- `JSON.stringify` output: a successful lookup is modelled as `Found(record)`, not as its JSON text.
- Numbers (`standardCostPerKG`, `manufacturingLeadTime`, `annualBudget`) are `real` values that are copied and never computed with. Floating point is not modelled.
- `createGetProductInfoTool`: agent.core.ts imports it, but product_info.tool.ts does not define it. The model follows the `getProductInfo` handler, which takes the id as an argument.
- The code has no `list_all_suppliers`, no keyword search, no rule choosing between an explicit id and a context id, and no missing-identifier error. None of these is modelled.
- `updateStatus` returns nothing and accepts any status. Only the tool's argument schema (`ParseArguments`) rejects strings that are not status values. The handler, not `updateStatus`, builds the message.
- Locking and concurrent updates: the source is single-threaded JavaScript and has no locking.
- AgentCore.DeepProcurmentAgentService.constructor: the source stores a reference to the caller's record, so later updates are visible through the caller's object too. This aliasing is not modelled: the record is a Dafny value.
- ConversationStatusTool.UpdateConversationStatus: Dafny has no method-valued parameters here, so the handler is wired directly to the service's `UpdateStatus`. The callback cannot throw then. The throwing branch is modelled separately by `HandlerResult` over a `CallbackOutcome`. "Exactly once" is stated as the state being one application of `ApplyUpdate`. Because updates are idempotent, the state alone cannot tell one call from two.
- ConversationStatusTool.HandlerResult: a thrown value that is not an `Error` (where `error.message` would be `undefined`) is not modelled.
- ConversationStatusTool.ParseArguments: the text of the schema library's rejection is not modelled. A rejection is `InvalidStatus(value)`.
- That a lookup never modifies its table holds by construction: tables are immutable Dafny sequences. No separate statement is made.
