# Result registry service: a verified model

This project models the core of a small result service for academic records (student, course,
semester, grade). The service writes each result to a Sui ledger contract, `result_registry_v2`,
and keeps a local mirror in a MongoDB collection. The model covers three source files:

- `src/utils/suiClient.ts`, the ledger client. Six domain operations map to a fixed invocation: an
  entry point, an ordered typed argument list, and a submission mode (signed execute or read-only
  dev-inspect). Module `SuiClient` states the schema as `Build`. It also covers the bech32/hex/base64
  dispatch that turns the private key into the signer. The ledger itself is an oracle: a pair of
  functions from invocation to "returned a value" or "threw an error".
- `src/models/resultModel.ts`, the mirror's document. Module `ResultModel` gives the record, its
  required string fields (Mongoose rejects an empty string for them), the defaults of `timestamp`
  and `updatedAt`, and the pre-save hook that resets `updatedAt` when a document is created.
- `src/controllers/resultController.ts`, the four handlers. Module `MirrorQueries` holds the
  collection queries they issue, as functions on a `seq<Record>` in insertion order. Module
  `ResultController` defines the handlers:
  - `addResult` and `updateResult` are methods of class `ResultService`. The class holds the mirror
    and a ghost trace of effects, which shows that the ledger is called first and the mirror is
    written only after the ledger returns. Each method is proved equal to a specification function
    (`AddStep`, `UpdateStep`).
  - `getResult` and `listTxHashes` are pure functions.
  - Every handler answers with an HTTP status and a tagged JSON body.

  Module `ControllerProperties` relates a write to later reads: the receipt index, the listing, the
  fallback lookup, and a lookup after an update.

Inputs the model takes as parameters rather than computing:

- the ledger's answers (the `execute` and `inspect` functions of a `Client`);
- whether the storage engine is reachable for this request (`StoreStatus`);
- the clock readings: `constructedAt` for schema defaults, `savedAt` for the pre-save hook, `now`
  for an update;
- the SDK's key decoders (`Decoders`) and the keypair-to-address function.

Where the code and the system's design disagree, the model follows the code:

- A mirror failure after a successful ledger write is answered with 500. It is not reported as a
  success with a warning.
- No operation checks for duplicate keys.
- A point lookup returns the first record with the key.

## Model

| member | source | states |
|---|---|---|
| `SuiClient.Build` | src/utils/suiClient.ts:52-218 | Target is `<package>::result_registry_v2::<entry>`. Signed execute exactly for add, verify and update-grade; dev-inspect with the signer's address for the other three. State-changing calls start with capability then registry and end with clock `0x6`, the domain strings between them. Read-only calls are exactly registry plus the key strings. |
| `SuiClient.AddResultArguments` | src/utils/suiClient.ts:52-63 | add_result_entry takes exactly [institution cap, registry, studentId, courseCode, grade, semester, clock 0x6] in that order. |
| `SuiClient.UpdateGradeArguments` | src/utils/suiClient.ts:145-156 | update_grade_entry takes exactly [institution cap, registry, studentId, courseCode, semester, newGrade, clock 0x6]. |
| `SuiClient.VerifyResultArguments` | src/utils/suiClient.ts:112-122 | verify_result_entry takes exactly [institution cap, registry, studentId, courseCode, semester, clock 0x6]. |
| `SuiClient.ReadOnlyArguments` | src/utils/suiClient.ts:86-94 | get_result, result_exists (lines 179-187) and is_result_verified (lines 205-213) take exactly [registry, studentId, courseCode, semester] and are dev-inspected as the signer's address. |
| `SuiClient.GradePosition` | src/utils/suiClient.ts:57-60 | In add the grade is argument 4 and the semester argument 5; in update-grade (lines 150-153) the semester is argument 4 and the new grade argument 5. |
| `SuiClient.CapabilityAndClockOnlyOnWrites` | src/utils/suiClient.ts:55-61 | When the registry is a different object from the clock and the capability: the clock and the capability appear exactly in state-changing invocations (lines 115, 120, 148, 154), and those alone use signed execute. |
| `SuiClient.Execute` | src/utils/suiClient.ts:65-79 | A state-changing call submits its built invocation once, in signed mode, and returns the ledger's outcome as is; a thrown error is rethrown unchanged. |
| `SuiClient.Inspect` | src/utils/suiClient.ts:96-105 | A read-only call dev-inspects its built invocation with the signer's address as sender and returns the outcome as is. |
| `SuiClient.Classify` | src/utils/suiClient.ts:23-34 | The `suiprivkey1` prefix is tested first (bech32, whole key). Otherwise a `0x` prefix means hex of exactly the key with its first two characters removed. Otherwise base64 of the whole key. |
| `SuiClient.InitKeypair` | src/utils/suiClient.ts:22-39 | Corrected initialisation: succeeds exactly when the chosen decoder succeeds, giving its keypair. Every failure, an unset key included, is the single "Invalid SUI_PRIVATE_KEY format" error. |
| `SuiClient.InitKeypairAsWritten` | src/utils/suiClient.ts:35-38 | As written: an unset key throws the TypeError from `substring` in the catch block. A set key behaves like `InitKeypair`. |
| `SuiClient.UnsetKeyEscapesAsTypeError` | src/utils/suiClient.ts:37-38 | For an unset key, the as-written initialisation fails with an error other than the intended one, which the corrected one gives. |
| `SuiClient.Connect` | src/utils/suiClient.ts:17-39 | The client exists exactly when the keypair initialises, and its sender is that keypair's address. Otherwise start-up fails with the invalid-key error. |
| `ResultModel.SchemaPaths` | src/models/resultModel.ts:3-10 | The schema declares exactly six paths, including the four required fields; `txHash` is not among them. |
| `ResultModel.MissingPaths` | src/models/resultModel.ts:4-7 | Lists exactly the required paths whose value is the empty string. It is empty iff every required value is present. |
| `ResultModel.WithDefaults` | src/models/resultModel.ts:8-9 | A new document's `timestamp` and `updatedAt` default to the construction time. |
| `ResultModel.PreSave` | src/models/resultModel.ts:13-16 | The pre-save hook sets `updatedAt` to the save time and changes nothing else. |
| `ResultModel.Create` | src/models/resultModel.ts:3-16 | Creation succeeds iff studentId, courseCode, grade and semester are all non-empty. The stored record keeps those fields and `txHash`, with `timestamp` = construction time and `updatedAt` = save time. A failure is the validation error naming the missing paths. |
| `ResultModel.StrictCast` | src/models/resultModel.ts:3-10 | The stored paths are exactly the written paths that the schema declares. |
| `ResultModel.TxHashDroppedAsDeclared` | src/models/resultModel.ts:3-10 | As declared, `txHash` is written on create and on update (resultController.ts lines 21, 101) but never stored. |
| `ResultModel.CorrectedSchemaPaths` | src/models/resultModel.ts:3-10 | With `txHash` declared, every path the controller writes, on create and on update, is stored. |
| `MirrorQueries.ForStudent` | src/controllers/resultController.ts:39 | `find({studentId})` holds exactly the mirror's records with that studentId. |
| `MirrorQueries.ForStudentAppend` | src/controllers/resultController.ts:121 | Appending a record extends a student's `find` result by that record exactly when it is theirs, and leaves it unchanged otherwise. |
| `MirrorQueries.InsertByUpdatedDesc` | src/controllers/resultController.ts:39 | Inserting into a newest-first sequence keeps it newest-first and adds exactly that record. |
| `MirrorQueries.SortByUpdatedDesc` | src/controllers/resultController.ts:39 | `sort({updatedAt: -1})` returns a permutation of its input ordered by `updatedAt`, newest first. |
| `MirrorQueries.FirstMatch` | src/controllers/resultController.ts:99-102 | Index of the first record with the (studentId, courseCode, semester) key: it matches and no earlier record does. None iff no record matches. |
| `MirrorQueries.FindOne` | src/controllers/resultController.ts:67 | `findOne` finds a record iff some record has the key, and what it finds is a mirror record with that key. |
| `MirrorQueries.TxHashes` | src/controllers/resultController.ts:122 | `map(txHash).filter(Boolean)` keeps exactly the truthy hashes: every result is non-empty and comes from some record, and every truthy record hash is in it. |
| `MirrorQueries.TxHashesAppend` | src/controllers/resultController.ts:122 | Appending a record appends its hash to the result exactly when the hash is truthy. |
| `MirrorQueries.FirstMatchAppend` | src/controllers/resultController.ts:67 | After an append, `findOne` still returns an earlier record with the key if there is one. The appended record is found only when it is the first with its key. |
| `ResultController.TxHashOf` | src/controllers/resultController.ts:18 | `txHash` is the receipt's digest when that is a non-empty string, otherwise null. |
| `ResultController.AddStep` | src/controllers/resultController.ts:5-31 | If the ledger throws: 500 with its message, mirror unchanged. If the ledger returns, creation validates first: a missing required field gives 500 with the validation error, mirror unchanged, whether or not the store is up. A valid record with the store down gives 500 with the store's error, mirror unchanged. Otherwise 200 with the receipt and `txHash`, and exactly one record {studentId, courseCode, grade, semester, txHash} appended. Old records never change; 200 iff the mirror grew by one. |
| `ResultController.Patch` | src/controllers/resultController.ts:99-102 | The update sets grade, `updatedAt` and `txHash`, and keeps the key fields and `timestamp`. |
| `ResultController.UpdateStep` | src/controllers/resultController.ts:84-112 | A ledger throw or a store failure gives 500 with the mirror unchanged. Otherwise 200 with the receipt and `txHash`. Only the first record with the key is patched; all others are unchanged; no match leaves the mirror unchanged and still answers 200. Length, keys and `timestamp` of every record stay the same. |
| `ResultController.GetResult` | src/controllers/resultController.ts:33-82 | Fields count as present when truthy. studentId alone: 404 if the student has no records, else 200 with that student's records newest-first and count = length. Full key: the ledger value if the ledger returns, otherwise the first mirror record with the key, or 404. Any other combination: 404. A store failure: 500. |
| `ResultController.ListTxHashes` | src/controllers/resultController.ts:114-131 | 400 when studentId is falsy, even with the store down. Otherwise 200 with that student's truthy hashes in collection order and count = length, or 500 if the store fails. |
| `ResultController.ResultService.constructor` | src/controllers/resultController.ts:1-3 | The service starts with the given client and mirror and an empty effect trace. |
| `ResultController.ResultService.AddResult` | src/controllers/resultController.ts:5-31 | The new mirror and response are those of `AddStep`. The trace gains exactly one ledger submission of the add invocation, followed by a mirror create only when the ledger returned. |
| `ResultController.ResultService.UpdateResult` | src/controllers/resultController.ts:84-112 | The new mirror and response are those of `UpdateStep`. The trace gains one update-grade submission, then a find-one-and-update only when the ledger returned. |
| `ControllerProperties.AddedTxHashIsIndexed` | src/controllers/resultController.ts:18-26 | After a successful add, the `txHash` in the response is the last entry of that student's `listTxHashes` result (lines 121-122), when truthy. |
| `ControllerProperties.AddedRecordIsListed` | src/controllers/resultController.ts:38-49 | After a successful add, a student-only `getResult` answers 200. It includes the new record and counts one more than the student had before. |
| `ControllerProperties.FallbackAfterAdd` | src/controllers/resultController.ts:63-72 | After a successful add, with the ledger read failing, the fallback returns the new record (with the added grade) if the key was new. Otherwise it returns the older duplicate. |
| `ControllerProperties.UpdatedRecordIsFound` | src/controllers/resultController.ts:99-102 | After a ledger-successful update of an existing key, `findOne` on the key returns a record with the new grade, update time and `txHash`. |
| `ControllerProperties.FirstMatchSame` | src/controllers/resultController.ts:99-102 | Mirrors whose records agree, position by position, on matching the key have the same first match. |
| `ControllerProperties.UpdateKeepsListingShape` | src/controllers/resultController.ts:99-102 | An update never changes how many records any student has. |
| `ControllerProperties.ForStudentSameKeys` | src/controllers/resultController.ts:39 | Mirrors with the same studentIds, position by position, give equally long student listings. |
| `ControllerProperties.ListingIgnoresLedger` | src/controllers/resultController.ts:38-49 | A student-only listing does not depend on the ledger. |
| `ControllerProperties.LedgerReadIgnoresMirror` | src/controllers/resultController.ts:53-62 | When the ledger read returns, the response does not depend on the mirror or the store. |
| `ControllerProperties.PartialKeyNotFound` | src/controllers/resultController.ts:78 | studentId and courseCode without semester answers 404 "Result not found", whatever the mirror holds. |
| `ControllerProperties.ValidationPrecedesStore` | src/controllers/resultController.ts:21 | After a ledger write, an empty grade with the store unreachable answers 500 with the validation error, not the store's, and leaves the mirror unchanged. |

## Left out

- HTTP transport: the Express request and response objects become input fields and a (status, body) value. A body field that is missing or not a string is not modelled; add and update take the four fields as strings.
- Routing (`src/routes/resultRoutes.ts`): only three handlers are routed, and `listTxHashes` is not. The model treats it as a plain function.
- Process bootstrap (`src/index.ts`): CORS, the health endpoint, the database connection, `dotenv` and all `console.error` logging are not part of this model.
- Configuration: the environment's object ids are taken as given strings. An unset package or object id, for which the source uses `!` and would embed `undefined`, is not modelled. `SUI_ADMIN_CAP_ID` is read but used by no operation, and it is not modelled.
- Sui SDK internals: transaction construction, BCS encoding, signing, RPC and the key decoders. The ledger is the `execute` and `inspect` oracles; the decoders are opaque functions.
- Ledger state across requests: an oracle is a function of the invocation, so one handler sees one answer. How the registry's state evolves from one request to the next (a read after a write returning the written grade) is not modelled.
- A dev-inspect that the contract aborts still returns a value. The model's `Inspection` is opaque, so such an answer is a 200 "from blockchain" like any other, as in the source.
- Mongoose internals: casting, `_id` and `__v`, the query engine. Strict-mode dropping of undeclared paths is modelled only as the schema-path finding below; the mirror stores records of the corrected shape.
- The exact text of Mongoose's validation error follows Mongoose's "Result validation failed: p: Path `p` is required." format; it is not checked against the library.
- `MirrorQueries.SortByUpdatedDesc`: records with equal `updatedAt` keep collection order. MongoDB does not promise an order for ties, so the contract states only the ordering and the permutation.
- `find` and `findOne` return records in insertion order; a storage engine's natural order may differ.
- Time: `new Date()` and `Date.now` are parameters. The schema defaults and the pre-save hook get separate readings.
- Failures: a reachable or unreachable store is decided once per request. Every handler makes at most one store call, so this loses no case. In `addResult` that call comes after validation, which fails without touching the store.
- Concurrency between requests: races on one key and duplicate inserts under concurrency are not modelled. Handlers run one at a time.
- Behaviour described for the system but absent from the code is not modelled: a mirror failure downgraded to a warning, argument validation before building calls, a reconciliation queue, and typed error kinds beyond a thrown error and its message.

## Findings

| source | as written | input that shows it | evidently intended | confidence | as-written member | corrected member |
|---|---|---|---|---|---|---|
| src/utils/suiClient.ts:37 | The catch block calls `substring` on the private-key variable, so when that variable is unset a TypeError escapes instead of the intended error. | `SUI_PRIVATE_KEY` unset | start-up fails with "Invalid SUI_PRIVATE_KEY format. Please check your private key." | medium, not executed | `SuiClient.InitKeypairAsWritten` (shown by `SuiClient.UnsetKeyEscapesAsTypeError`) | `SuiClient.InitKeypair` (used by `SuiClient.Connect`) |
| src/models/resultModel.ts:3-10 | The schema declares no `txHash` path, so Mongoose's default strict mode drops the `txHash` the controller writes on create and on update, and `listTxHashes` finds none. | an add whose ledger receipt has digest "0xabc" | the mirror record stores `txHash` "0xabc" | medium, not executed (relies on Mongoose's default strict mode) | `ResultModel.TxHashDroppedAsDeclared` | `ResultModel.CorrectedSchemaPaths` (the `Record` type the rest of the model stores) |
