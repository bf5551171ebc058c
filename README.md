# ContractGuardAI contract pipeline — a Dafny model

This project models the core of ContractGuardAI, a service that watches a Box
folder of contracts. For every new contract it asks a language model to
classify the contract into one of nine categories and to write three
deliverables: a mirror contract, a redline comparison and a negotiation
guide. It uploads them into a per-contract mirror folder. It also sweeps all
contracts for dated action items, filters the urgent ones, and alerts the
user through an SNS topic.

Three source files are modelled, one Dafny module each, with shared helpers:

- `common.dfy` (module `Common`): `Option`, `Result` and the Python exceptions the code raises or catches (`Failure`).
- `text.dfy` (module `Text`): the `str` operations the code relies on (`lower`, `upper`, `strip`, `endswith`, `in`, decimal digits).
- `calendar.dfy` (module `Calendar`): proleptic Gregorian dates, `strptime(.., '%Y-%m-%d')` and the `.days` of a `datetime` difference.
- `box_service.dfy` (module `BoxService`): `BoxContractService` of box_contract_service.py. This covers the folder resolver `find_or_create_folder` with its 409-conflict recovery, `list_folder_items` and `find_file_in_folder`.
- `action_items.dfy` (module `ActionItems`): `ActionItemDetector` of action_item_detector.py. This covers the parser of the model's action-item reply, the urgency filter, the alert message and the notification guards.
- `contract_processor.dfy` (module `Processor`) and `contract_rules.dfy` (module `ContractRules`): `ContractProcessor` of contract_processor.py. `ContractRules` holds the pure rules: which files are contracts, contract names and ledger keys, classification, the analysis prompt, the ledger over a run of passes, and the sweep counter. `Processor` holds the class with its processing ledger `processedContracts`, its category-folder dict and the polling loop.

The Box SDK, the language model, SNS and the clock are never called. Each
reply they would give is an input instead:

- a listing;
- the outcome of a folder creation or an upload;
- the content of a file;
- a model reply;
- the e-mail Box reports;
- the current instant.

A processor method receives a `Services` value holding these replies as
functions.

Stateful code is modelled as classes whose methods change their fields:

- `BoxContractService.connected`;
- the detector's `snsReady`, `userEmail` and `snsTopicArn`;
- the processor's ledger, category dict and folder ids.

Each method is proved against a specification function, and the properties
are lemmas about those functions.

The comment at contract_processor.py:250 says a contract is marked as
processed "only on success". The code at contract_processor.py:251 and :257
adds the key on success and on failure alike. The model follows the code:
`TakeUp` adds the key in both branches, and every ledger lemma relies on
that.

## Model

| member | source | states |
|---|---|---|
| Text.Lower | contract_processor.py:175 | `str.lower()` keeps the length and yields only lower-case letters |
| Text.Strip | action_item_detector.py:136 | `str.strip()` yields a piece of the input that neither starts nor ends with whitespace |
| Text.StripChar | contract_processor.py:171 | `str.strip(c)` yields a piece of the input that neither starts nor ends with `c` |
| Calendar.ParseIsoDate | action_item_detector.py:142 | every date `strptime(.., '%Y-%m-%d')` accepts is a valid calendar date |
| Calendar.IsoDateRoundTrip | action_item_detector.py:139-142 | a valid date written as `YYYY-MM-DD` is matched by the due-date pattern and parsed back to itself |
| Calendar.YearLength | action_item_detector.py:145 | a leap year has 366 days and any other year 365 |
| Calendar.NextDayOrdinal | action_item_detector.py:145 | the day after any date has the next day number, across months, years and leap days |
| Calendar.DaysUntilCalendar | action_item_detector.py:145 | `(due - now).days` is the calendar difference at midnight and one less at any later moment of the day |
| Calendar.DaysUntilMonotone | action_item_detector.py:145 | a later `now` never gives more days until the same due date |
| BoxService.KindOf | box_contract_service.py:247-248 | an entry is reported as a file exactly when its SDK type is FILE; folders and web links are both folders |
| BoxService.FirstFolderItem | box_contract_service.py:96-99 | the id of the first listed folder with exactly that name, or none when no folder has it |
| BoxService.FirstEntry | box_contract_service.py:121-124 | the id of the first raw entry of the given type and exact name, or none when there is none |
| BoxService.FirstFolderItemIsChild | box_contract_service.py:93-99 | a folder found in a listing is one of the parent's children with that name |
| BoxService.FirstEntryIsChild | box_contract_service.py:223-225 | an entry found in a listing is one of the parent's children of that type and name |
| BoxService.RecoverIsChild | box_contract_service.py:194-207 | the id recovered by re-listing after a conflict-like error is a child with the requested name |
| BoxService.ResolvedIdIsChild | box_contract_service.py:81-211 | when the SDK replies agree with the parent's children, every id `find_or_create_folder` returns is a child with the requested name |
| BoxService.ExistingFolderReused | box_contract_service.py:93-99 | when the first listing holds a folder of that name, its id is returned whatever the create request would have done |
| BoxService.CreateOutcomes | box_contract_service.py:133-192 | the id extracted from a create result is returned; a result without one raises ValueError; a 409 with a conflict id returns it; any other SDK status raises the SDK error again |
| BoxService.UnresolvedConflictRaises | box_contract_service.py:156-189 | a 409 without a conflict id, whose re-listing does not find the folder, raises ValueError |
| BoxService.GuardsComeFirst | box_contract_service.py:85-88 | an empty or "None" parent id raises ValueError, and an unconnected client raises RuntimeError, before any SDK reply is used |
| BoxService.BoxContractService.constructor | box_contract_service.py:41-42 | a new service has no client |
| BoxService.BoxContractService.Initialize | box_contract_service.py:44-73 | missing credentials raise ValueError and a failing OAuth raises its error, both leaving the service unconnected; otherwise it is connected |
| BoxService.BoxContractService.ListFolderItems | box_contract_service.py:233-260 | the id guard, the client guard, the file/folder mapping of every entry, and listing errors raised again |
| BoxService.BoxContractService.FindFileInFolder | box_contract_service.py:213-231 | the first file of exactly that name, and None when the listing fails |
| BoxService.BoxContractService.FindOrCreateFolder | box_contract_service.py:81-211 | its result is the resolver `ResolveFolder` over the replies of the call |
| BoxService.BoxContractService.ResolveConflict | box_contract_service.py:154-192 | the `except BoxSDKError` handler: conflict id, then re-listing, then ValueError; other statuses raised again |
| BoxService.BoxContractService.RecoverFromError | box_contract_service.py:194-207 | the generic handler: a conflict-like error message leads to a re-listing, and anything else is raised again |
| BoxService.UseCreateResult | box_contract_service.py:110-152 | what a returned create result leads to: error dict, conflict lookup, id extraction |
| BoxService.FindFolderItem | box_contract_service.py:96-99 | the loop finds what `FirstFolderItem` specifies |
| BoxService.FindEntry | box_contract_service.py:121-124 | the loop finds what `FirstEntry` specifies |
| ActionItems.MarkerLength | action_item_detector.py:122 | an `ACTION ITEM\s*\d+:` marker found at the start of a text is at least 13 characters long and fits in the text |
| ActionItems.SkipUnmarked | action_item_detector.py:122 | text in which no marker starts only extends the current piece of the split |
| ActionItems.NoMarkerNoSegments | action_item_detector.py:122-124 | a reply without a marker has no segments after the first piece |
| ActionItems.PreambleIgnored | action_item_detector.py:122-124 | text before the first marker never becomes a segment: prefixing it leaves the segments unchanged |
| ActionItems.ReadSegment | action_item_detector.py:125-184 | a segment gives an item exactly when it has a type and a description and no unparsable `Due Date:`; an unparsable ISO date is exactly the raising case; every item given is well formed |
| ActionItems.ItemsFrom | action_item_detector.py:124-186 | at most one item per segment, each with the file name as its contract, a lower-case type and priority, stripped texts, and a day count that matches its due date |
| ActionItems.ItemsFromConcat | action_item_detector.py:124-184 | segments are read independently: the items of two runs of segments are the items of each, in order |
| ActionItems.BadSegmentSkipped | action_item_detector.py:178-184 | a segment missing a field, or raising on its date, yields nothing and does not change the items of the others |
| ActionItems.PreambleYieldsNothing | action_item_detector.py:118-124 | the items of a reply do not depend on the text before its first marker |
| ActionItems.DueDateDays | action_item_detector.py:139-163 | with an ISO `Due Date:`, the day count is the floored day difference from now, whatever else the reply says; without one, there is no day count and the due date is the free-text fallback, if any |
| ActionItems.UrgencyWindows | action_item_detector.py:196-210 | an item is urgent exactly when it has a day count within its kind's window (expiration 10, audit_due 5, payment_due 14, renewal 10, notice_period 7, otherwise 5); any count of at most 5, even negative, is urgent |
| ActionItems.UrgentIsSubsequence | action_item_detector.py:190-215 | the urgent items are an order-preserving subsequence of the input |
| ActionItems.UrgentMembership | action_item_detector.py:192-213 | an item is kept exactly when it is in the input and urgent |
| ActionItems.EntryNumbering | action_item_detector.py:294-304 | the k-th item is written as block number k, right after the blocks of the items before it |
| ActionItems.ActionItemDetector.constructor | action_item_detector.py:25-47 | topic and e-mail come from the environment; the SNS client exists unless creating it failed |
| ActionItems.ActionItemDetector.AnalyzeContractForActionItems | action_item_detector.py:99-112 | a failing model call gives no items; otherwise the items are the parse of the reply |
| ActionItems.ActionItemDetector.ParseActionItems | action_item_detector.py:114-186 | "no action items found" in any case gives nothing; otherwise the loop over segments gives `ParsedItems` |
| ActionItems.ActionItemDetector.FilterUrgentActionItems | action_item_detector.py:188-215 | the loop keeps exactly `UrgentItems` |
| ActionItems.ActionItemDetector.BuildEmailMessage | action_item_detector.py:286-312 | header with the count, the numbered blocks, then the footer |
| ActionItems.ActionItemDetector.SendNotification | action_item_detector.py:240-284 | False without a client or an e-mail; True without publishing for an empty list; otherwise publishes subject and message to the topic, and returns True unless there is no topic or publishing fails |
| ActionItems.ActionItemDetector.GetUserEmailFromBox | action_item_detector.py:217-238 | an e-mail already set is returned unchanged; otherwise Box's e-mail is stored with the topic defaulted, or nothing changes |
| ContractRules.EndsWithAny | contract_processor.py:213 | `any(name.endswith(ext) ...)` holds exactly when one of the suffixes ends the name |
| ContractRules.ContractFileRule | contract_processor.py:203-213 | a file is a contract exactly when it does not end in `.instructions`, does not start with `.`, and its lower-cased name ends in `.pdf`, `.doc`, `.docx` or `.txt` |
| ContractRules.ContractExtensionAccepted | contract_processor.py:212-213 | any casing of the four extensions makes a non-hidden name a contract |
| ContractRules.Stem | contract_processor.py:197 | `Path(name).stem` is a prefix of the name that drops at most one final dotted suffix |
| ContractRules.StemOfExtended | contract_processor.py:197 | the stem of `base.ext` is `base` |
| ContractRules.ContractNameRoundTrip | contract_processor.py:194-201 | `base.ext` and the instructions file `base.instructions` both name the contract `base`, and the instructions file is not a contract |
| ContractRules.ContractNameDropsOneSuffix | contract_processor.py:194-201 | after the extension, exactly one `.instructions` is removed, and only when the stem ends with it |
| ContractRules.KeySeparator | contract_processor.py:231 | in a key `name_id` whose id has no underscore, the last underscore separates name and id |
| ContractRules.KeyInjective | contract_processor.py:231 | two keys with underscore-free ids are equal only for the same name and id |
| ContractRules.CategoriesIncomparable | contract_processor.py:39-49 | no lower-cased category name contains another |
| ContractRules.CategoriesDistinct | contract_processor.py:39-49 | the nine category names are pairwise distinct |
| ContractRules.FirstMatch | contract_processor.py:174-181 | the first category, in list order, equal to the reply, containing it or contained in it, ignoring case; none when no category matches |
| ContractRules.ClassifyAmong | contract_processor.py:162-192 | the category chosen is always one of the list |
| ContractRules.Classify | contract_processor.py:162-192 | `classify_contract` always returns one of the nine categories, also when the model call raises |
| ContractRules.OnlyOwnCategory | contract_processor.py:174-181 | a reply equal to one category's name, ignoring case, matches no other category |
| ContractRules.FirstMatchIs | contract_processor.py:174-181 | the first matching category is the one chosen |
| ContractRules.ClassifyFirstMatch | contract_processor.py:168-181 | after stripping whitespace and quotes, the first category in list order that matches is returned |
| ContractRules.ClassifyDefault | contract_processor.py:183-192 | a failing model call, or a reply matching no category, gives the first category |
| ContractRules.ClassifyEmptyReply | contract_processor.py:168-181 | a reply that strips to nothing is contained in every name and so gives the first category |
| ContractRules.ClassifyExact | contract_processor.py:168-177 | a reply equal to a category, ignoring case and surrounding quotes and whitespace, returns that category |
| ContractRules.PromptGuidance | contract_processor.py:485-529 | the guidance header appears exactly when interests or instructions are given; each section appears exactly when its text is non-empty; the priority note appears exactly with instructions, right after them; the contract excerpt is always included |
| ContractRules.Deliverables | contract_processor.py:409-465 | three documents; each is the model's reply when the call succeeds |
| ContractRules.FallbacksKeepContext | contract_processor.py:559-641 | every fallback document names the category; the mirror and redline fallbacks excerpt the start of the contract; the mirror and guide fallbacks show the same interests, or the no-interests text |
| ContractRules.NewContractsMembers | contract_processor.py:223-239 | a candidate is taken up exactly when a listed file is a contract with that name and id and its key is not in the ledger |
| ContractRules.NotTakenUpTwice | contract_processor.py:229-239 | after the keys of a pass's candidates are added, the same listing yields none of them again |
| ContractRules.SecondPassFindsNothing | contract_processor.py:215-258 | every candidate of a pass is new, and a second pass over the same listing finds no candidate |
| ContractRules.LedgerGrows | contract_processor.py:242-258 | the ledger only grows over a run of passes |
| ContractRules.TakenUpAtMostOnce | contract_processor.py:229-258 | two different passes never take up the same contract key |
| ContractRules.FloorDivIsFloor | contract_processor.py:683 | `a // b` is Python's floor division |
| ContractRules.CounterAt | contract_processor.py:685-695 | after k full rounds of `perSweep` passes and r more, the counter is r |
| ContractRules.SweepCadence | contract_processor.py:683-695 | with at least one pass per sweep, pass p sweeps exactly when p is a multiple of it; with none (a zero or negative quotient), every pass sweeps |
| ContractRules.CounterNonPositive | contract_processor.py:693-695 | with a quotient below 1 the counter is reset on every pass |
| Processor.LoadedTextIsStored | contract_processor.py:99-136 | loaded interests or instructions are the content of a file of exactly that name in the folder |
| Processor.Lookup | contract_processor.py:358 | `dict.get`: the value of the first pair with that key, none when no pair has it |
| Processor.CategoryFolderChoice | contract_processor.py:357-361 | a category uses its own folder when it has a non-empty id, otherwise the dict's first; with an empty dict `process_contract` raises |
| Processor.UploadAll | contract_processor.py:643-674 | at most three uploads, in order, with the fixed file names into one folder; success exactly when all three were made; a failure is the failing upload's error |
| Processor.ContractRun | contract_processor.py:330-384 | `process_contract` uploads at most three files with the fixed names, all into one folder, and succeeds exactly when all three were uploaded; without a Box client it raises RuntimeError and uploads nothing |
| Processor.UploadsGoToMirrorFolder | contract_processor.py:341-378 | uploads happen only after the contract was read and its category folder found, and go to the `<name>_mirror` folder inside it |
| Processor.DeliverablesUploaded | contract_processor.py:409-474 | the k-th upload holds the model's reply to the k-th request, or a fallback of the same category when that call failed |
| Processor.ContractActionItems | contract_processor.py:286-312 | the action items of one listed file name that file as their contract; non-contracts and failures give none |
| Processor.SweptItemsNameTheirContract | contract_processor.py:285-312 | every item a sweep collects comes from a listed contract file and names it |
| Processor.UrgentItemsComeFromContracts | contract_processor.py:285-324 | every urgent item reported is urgent and comes from a listed contract file |
| Processor.CategoryLoop | contract_processor.py:80-86 | the category dict is filled in category order with the folder each name resolved to, and stops at the first call that raises |
| Processor.CategoryFoldersAreChildren | contract_processor.py:79-86 | every category folder id recorded is a child of the protect folder with that category's name |
| Processor.LedgerAfterPassesIsLedgerAfter | contract_processor.py:685-690 | the loop's ledger after n passes is the ledger after the run of the n listings it saw |
| Processor.CategoryLoopStops | contract_processor.py:81-86 | once a category folder call raises, the remaining categories are not visited |
| Processor.ContractProcessor.constructor | contract_processor.py:51-56 | an empty ledger, an empty category dict, no folder ids, an unconnected Box service, and a detector that holds it |
| Processor.ContractProcessor.Initialize | contract_processor.py:58-61 | missing credentials and a failing OAuth raise, leaving the processor and the connection as they were; otherwise the service is connected and the ledger kept; on success the three folder ids are the ones the resolver gives and the category dict is what the category loop recorded with no error |
| Processor.ContractProcessor.EnsureFoldersExist | contract_processor.py:63-97 | folders are resolved in source order; the first error is raised; the folder attributes change only when all succeeded; the category dict keeps what its loop recorded |
| Processor.ContractProcessor.FillCategoryFolders | contract_processor.py:80-86 | the loop records what `CategoryLoop` specifies |
| Processor.ContractProcessor.GetUserInterests | contract_processor.py:99-117 | the text of `MY_INTERESTS.txt` in the interests folder, or None |
| Processor.ContractProcessor.GetPerContractInstructions | contract_processor.py:119-136 | the text of `<name>.instructions` in the contracts folder, or None |
| Processor.ContractProcessor.LoadFile | contract_processor.py:101-117 | the shared lookup-then-read of the two loaders |
| Processor.ContractProcessor.ProcessContract | contract_processor.py:330-384 | what `ContractRun` specifies; on success exactly three uploads |
| Processor.ContractProcessor.UploadOutputFiles | contract_processor.py:643-674 | what `UploadAll` specifies |
| Processor.ContractProcessor.ProcessNewContracts | contract_processor.py:215-261 | the contracts taken up are the new ones of the listing, and the ledger becomes the old ledger plus all their keys, whether processing succeeded or raised |
| Processor.ContractProcessor.CollectNewContracts | contract_processor.py:221-239 | the loop collects what `NewContracts` specifies |
| Processor.ContractProcessor.ProcessCandidates | contract_processor.py:242-258 | the ledger grows by exactly the keys of the candidates |
| Processor.ContractProcessor.TakeUp | contract_processor.py:243-258 | the key is added whether `process_contract` succeeded or raised |
| Processor.ContractProcessor.CheckAllContractsForActionItems | contract_processor.py:263-328 | returns the urgent items of the sweep over its own listing, or none when the listing fails; notifies exactly when there are urgent items and a client, an e-mail and a topic; the e-mail and topic are refreshed from Box first, and stay as they were when no e-mail is set and Box gives none |
| Processor.ContractProcessor.RefreshUserEmail | contract_processor.py:268-278 | an e-mail already set is kept; otherwise Box's e-mail is stored and a missing topic defaulted; otherwise nothing changes |
| Processor.ContractProcessor.SweepContracts | contract_processor.py:283-312 | the loop collects what `SweepItems` specifies |
| Processor.ContractProcessor.AnalyzeItem | contract_processor.py:286-312 | one item of the sweep: what `ContractActionItems` specifies |
| Processor.ContractProcessor.MonitoringPass | contract_processor.py:686-697 | one pass updates the ledger as one pass of `process_new_contracts` does; the sweep reads a listing of its own |
| Processor.ContractProcessor.RunContinuousMonitoring | contract_processor.py:676-704 | a zero check interval raises ZeroDivisionError before any pass; otherwise the sweeps follow the counter's schedule and the ledger is the ledger after the listings seen; every reply of the outside world may differ from pass to pass |
| Processor.ContractProcessor.Monitor | contract_processor.py:685-704 | the loop keeps the counter, the sweep schedule and the ledger of the passes made so far |

## Left out

- OAuth, token storage and the Box client object (box_contract_service.py:44-73): `Initialize` takes the credentials and the outcome of the OAuth exchange as inputs.
- `read_file`, `upload_text_file`, `upload_document_file` and their byte handling: a read or an upload is a function from ids and names to a result, in `Services`.
- `get_current_user_email`: the e-mail Box reports is an input.
- `ask_ai_about_file` and the Bedrock call: every model reply is an input, looked up by file id and question.
- The wording of all prompts, including the classification prompt and its 3000-character excerpt. Only the sections of the analysis prompt and their presence are modelled.
- The bodies of the three fallback documents: only what they carry (category, contract excerpt, interests) is modelled.
- SNS client creation and `publish` (action_item_detector.py:32-47, 260-266): whether creation fails and whether publishing fails are inputs.
- Logging, `asyncio.sleep`, `time.time`, `last_action_item_check` and the `KeyboardInterrupt` exit: `RunContinuousMonitoring` runs a given finite number of passes of the `while True` loop.
- Regular-expression field extraction inside a segment (type, description, ISO date, free-text dates, priority, action required): a parameter `extract` gives the raw captures of each segment. The split on `ACTION ITEM\s*\d+:` itself is modelled on the text.
- Case mapping covers ASCII letters only; Unicode case folding and non-ASCII digits are not modelled.
- `checked_contracts` is never read by the source and is not modelled.
- document_generator.py, ppt_generator.py, bedrock_service.py and the debug, test and upload scripts are not part of this model.
- Processor.ContractProcessor.ProcessNewContracts: does not return what each `process_contract` call uploaded, since the source discards it. `ProcessContract` and `ContractRun` state it.
- Processor.ContractProcessor.MonitoringPass: states only the ledger. What a sweep does to the detector is stated by `CheckAllContractsForActionItems`. A sweep uses one instant for all its contracts, while the source reads the clock once per dated segment (action_item_detector.py:145), so a sweep that crosses midnight can give some items a day count one higher than the source would.
- Processor.ContractProcessor.Monitor: states the counter's schedule and the ledger, not the detector's fields after the last sweep. The listings, replies, Box e-mail, clock and SNS outcome are functions of the pass; within one sweep the instant is fixed, as for `MonitoringPass`.
- ActionItems.ItemsFrom: one instant `now` serves every segment of a reply, whereas the source calls `datetime.now()` for each dated segment.
- Processor.ContractProcessor.Initialize: the errors raised while setting up folders are not restated here. `EnsureFoldersExist` states them.
- ContractRules.Stem: follows `PurePath.stem` for names without '/', which Box does not allow in a file name; a name holding '/' is not modelled as a path.
