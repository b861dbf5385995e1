# Partner report webhooks and distribution, in Dafny

This project models the decision logic of a Flask backend that requests
management reports from a partner bank's API and distributes them. The
upstream answers a report request with 202 and later posts a webhook
callback carrying a download URL. Each report route serves both legs on
one POST: a *trigger* leg that asks for the report, and a *callback* leg
that downloads and shapes the file.

The model covers:

- **Payload classification.** Each controller's dispatch between the two
  legs, its URL extraction and its status codes are total functions. They
  take the request (JSON or not, and the parsed body) and the outcomes of
  the service calls. The two `Logger` helpers are modelled the same way.
  Python's dynamic behaviour is written out: truthiness, `in` on dicts,
  lists and strings, `.get` on non-dicts, and dict-key equality of `True`
  and `1`.
- **Record shaping and directory lookup.** This covers the custody expiry
  filter, the first-wins consolidation, grouping by client and by advisor,
  and the desk and advisor mails. It also covers the two account → CGE →
  advisor lookups with their miss conventions, the commissions
  accumulator whose state persists across callbacks, and the pending-order
  filter.
- **Small arithmetic and state machines.** This covers the monthly
  reference period, recipient parsing, the URL validation gate, and the
  IMF-fixdate expiry header (section 7.1.1.1 of RFC 7231). It also covers
  both access-token caches: the core one expires at `now >= expires_at`
  and the older one only when `now > expires_at`.

Network calls, file decoding and email sends are parameters: the model
receives their outcome (a status, a body, a decoded table, or an
exception). "Now" and "today" are parameters too. A Python exception is
`Raised` in an `Eval` result.

Modules, one per concept:

| file | contents |
|---|---|
| py_json.dfy | the `Json` value, `Eval`, truthiness, indexing, `.get`, equality and dict keys |
| text.dfy | `strip`, `split`/`join`, zero padding, digit parsing |
| http.dfy | requests, replies, the trigger leg and the `"response" in data` dispatch |
| rows.dfy | delimited-file rows and tables |
| report_controller.dfy | the abstract report controller |
| standard_controllers.dfy | the pre-operations, CRA-CRI, credit-card and TIR controllers |
| custody_controller.dfy, fixed_income_controllers.dfy, commissions_controller.dfy, btg_controllers.dfy, stock_orders_controller.dfy | the controllers with their own conventions |
| loggers.dfy | `utils/logging_requests.py` and `utils/logging.py` |
| calendar.dfy, http_date.dfy, url_parse.dfy | dates, HTTP-dates and the part of `urlsplit` that the gate uses |
| lookup.dfy, advisor_directory.dfy | data files and the two directory utilities |
| grouping.dfy | filter, first-wins consolidation and group-by, with their laws |
| upstream.dfy, report_services.dfy | the report-request rule and the monthly report services |
| shared_instance.dfy | the `_instance` that `TokenService.__new__` shares with its subclasses, and when a `ConfigService()` skips its own `__init__` |
| custody_service.dfy, commissions_service.dfy, stock_orders_service.dfy, email_service.dfy, token_service.dfy | the services |

## Model

| member | source | states |
|---|---|---|
| RequestLogger.ExtractUrl | utils/logging_requests.py:32-38 | the URL is the first truthy one of `result.url`, `response.url` and top-level `url`, an empty value falling through to the next; when every level it reads is a dict it never raises and is truthy exactly when some level holds a truthy URL |
| RequestLogger.ExtractErrorInfo | utils/logging_requests.py:40-46 | a missing or falsy `errors` gives ("Unknown error", "Unknown code"); otherwise message and code come from the first element, each defaulting when absent; only a dict body gets an answer |
| RequestLogger.ProcessPayload | utils/logging_requests.py:48-75 | a non-empty list is answered as its first element; the answer is 200 or 400; a found URL gives 200 `{"status":"success","message":"Event processed","url":url}`; no URL gives 400 `{"status":code,"message":message}` from the first error |
| RequestLogger.LogAndRespond | utils/logging_requests.py:77-95 | never raises: an absent or falsy body is 200 `{"status":"success","message":event}` and never 400; a processing exception is 500 "Internal server error"; otherwise the processed reply |
| RequestLogger.NonDictFirstElementIsServerError | utils/logging_requests.py:52-95 | a list body whose first element is a scalar makes `.get` raise, answered with 500 |
| EventLogger.LogAndRespond | utils/logging.py:15-81 | an unparseable body is 500; a falsy body (null, `{}`, `[]`) is 400 "No JSON payload found"; a dict with `result.url` is 200 with that URL; only truthy bodies reach 200; a dict without `result` or `errors` is 400 with both defaults |
| EventLogger.ResponseUrlIgnored | utils/logging.py:42-46 | a payload carrying its URL only under `response.url` is 400 here while the request logger answers 200 with that URL |
| Http.TriggerLeg | adapters/controllers/management_reports/abstract_report_controller.py:66-84 | the trigger leg calls the service once when the method exists; a truthy answer is 202 "Requisição aceita…", a falsy one is 500 with the controller's failure text, and a raise propagates |
| Http.GuardedIsCallback | adapters/controllers/management_reports/abstract_report_controller.py:57-58 | `data and "response" in data` raises exactly on a truthy number or `True`; otherwise it holds exactly when the body is truthy and names `"response"` as a key, list element or substring |
| Http.UnguardedIsCallback | adapters/controllers/management_reports/base_btg_controller.py:22-24 | `"response" in data` without the guard raises on `None`, numbers and booleans, and otherwise is key, element or substring membership |
| Http.GuardedDispatch | adapters/controllers/management_reports/abstract_report_controller.py:53-61 | a non-JSON request and every body in which `"response"` is not named take the trigger leg; a truthy number or `True` raises; every other body takes the callback leg with the parsed body |
| ReportController.ExtractCsvUrl | adapters/controllers/management_reports/abstract_report_controller.py:114-122 | the URL is `response.url` only; it raises exactly when the body, or its `response`, is not a dict; it is truthy exactly when `response.url` is |
| ReportController.Handle | adapters/controllers/management_reports/abstract_report_controller.py:47-134 | at most one service call; the trigger leg is taken by a non-JSON body and by every body in which `"response" in data` is false: falsy scalars, strings without that substring, lists not containing the string `"response"`, dicts without that key; it answers 202 on a truthy answer and 500 with the failure text on a falsy one; `process_csv_from_url` is called exactly with a truthy `response.url`; falsy data is 204 with the no-data text and truthy data is 200 unchanged; a dict `response` without a URL is 400 "CSV URL not found." with no call; every exception is 500 "Internal server error" |
| MonthlyTirController.HandleAsWritten | adapters/controllers/management_reports/abstract_report_controller.py:77 | the TIR service has no `generate_report`, so every trigger request is the generic 500 with no upstream call |
| MonthlyTirController.TriggerAlwaysFailsAsWritten | adapters/controllers/management_reports/monthly_tir_controller.py:7-19 | a plain POST to the TIR route never starts a report |
| MonthlyTirController.Handle | core/services/management_reports/monthly_tir_service.py:13-31 | with the trigger leg calling `get_monthly_tir_report`, a truthy answer is 202 and a falsy one is 500 "Falha ao iniciar a requisição de relatório gerencial TIR mensal."; an empty data list is 204 with the TIR no-data text |
| PreOperationsController.Handle | adapters/controllers/operations/pre_operations_controller.py:27-113 | a non-JSON request triggers once; falsy trigger answer is 500 with the pre-operations text, truthy is 202; a 400 makes no call; with a `response.url` the data is 200, 204 with the pre-operations no-data text, or 500 when the service raises |
| CraCriController.Handle | adapters/controllers/fixed_income_reports/cra_cri_controller.py:24-109 | the same rules with the CRA-CRI texts |
| CreditCardController.Handle | adapters/controllers/banking/credit_card_controller.py:27-112 | the same rules with the credit-card texts |
| CustodyController.Handle | adapters/controllers/custody/custody_controller.py:24-108 | never 204; a dict body without a `"response"` key (a `result`-only callback included) takes the trigger leg: 202 on a truthy `get_custody`, 500 with the custody text on a falsy one; the expiration check is called exactly with `response.url`, else `result.url`; its success is 200 "Relatório processado e e-mails enviados." and its failure the custody-specific 500; a 400 exactly when neither URL is found on readable members |
| FixedIncomeController.Handle | adapters/controllers/fixed_income_reports/fixed_income_controller.py:27-128 | the trigger leg answers 202/500 from `get_fixed_income_report`; the service is called exactly with the top-level `url`, else `response.url`; a raising service is 500 "Erro ao processar CSV", falsy data 204, truthy data 200; no URL on a dict `response` is 400 |
| DebenturesController.HandleAsWritten | adapters/controllers/fixed_income_reports/debentures_controller.py:27-114 | `data.values()` runs first, so every list body reaching the callback is the generic 500 with no call; the service is called exactly with the top-level `url`; `{"response":{"url":u}}` alone is 400 "CSV URL not found."; data gives 200 or 204 |
| DebenturesController.ListPayloadRefusedAsWritten | adapters/controllers/fixed_income_reports/debentures_controller.py:74-86 | the list callback `["response", {"url": "u"}]`, which the list branch was written for, is refused with 500 |
| DebenturesController.Handle | adapters/controllers/fixed_income_reports/debentures_controller.py:76-91 | with the list branch reachable, a list of two or more is served from its second element, a one-element list holding a non-dict and a string body are 400 "Invalid payload", and dict bodies are answered as before |
| DebenturesController.ListPayloadServed | adapters/controllers/fixed_income_reports/debentures_controller.py:76-82 | with the list branch reachable, `["response", {"url": "u"}]` hands "u" to the service |
| CommissionsController.Handle | adapters/controllers/management_reports/commissions_controller.py:27-113 | the trigger leg answers 202/500 from `get_commissions_report`; the service is called exactly with `response.url`; 204 only when it returns `None`, any other result is 200 `{"message":"Relatório de Comissões gerado."}` without the data; a raising service is the generic 500; 400 exactly when a dict `response` has no URL |
| BaseBtgController.Run | adapters/controllers/management_reports/base_btg_controller.py:16-86 | the unguarded dispatch: a JSON body that is missing, `null`, a number or a boolean is the generic 500 with no call; every other body without `"response"` and every non-JSON request triggers (202 or 500 with the failure text); the service is called exactly with `response.url`; truthy data is 200, falsy 204; 400 exactly when a dict `response` has no URL |
| BaseBtgController.Handle | adapters/controllers/management_reports/base_btg_controller.py:20-80 | the Base BTG texts: a falsy trigger answer is 500 "Falha ao iniciar a requisição de relatório gerencial Base BTG.", a `None` result is 204 "Nenhuma foram encontrados dados para Base BTG." |
| AccountAdvisorsController.HandleAsWritten | adapters/controllers/relationship/account_advisors_controller.py:35 | the trigger calls a method the service does not define, so every trigger request is the generic 500 with no call and no request is ever accepted |
| AccountAdvisorsController.Handle | core/services/relationship/account_advisors_service.py:13-55 | with the trigger calling `get_account_advisors_link`, a truthy answer is 202 and a falsy one 500 "Falha ao iniciar a requisição de contas vinculadas."; a callback whose service returns `True` is 200 `true`, one returning `None` is 204 "Nenhuma conta vinculada encontrada." |
| StockOrdersController.Handle | adapters/controllers/stock_orders_controller.py:17-44 | one service call per POST; 200 with the rows exactly for a non-empty list, 204 exactly for `None` or `[]`, the generic 500 exactly when the service raised |
| Rows.RowsJson | adapters/controllers/stock_orders_controller.py:36 | a list of rows becomes a JSON array of the same length whose elements are the rows as objects, in order |
| CustodyService.ProcessCsv | core/services/custody/custody_service.py:39-54 | the rows of all archive members concatenated in archive order after a 200 whose archive reads; `[]` for a non-200, a request error or a failure while reading |
| CustodyService.FilterProductsToExpire | core/services/custody/custody_service.py:56-59 | raises exactly when a row lacks `fixingDate`; otherwise an order-preserving subsequence holding exactly the rows whose `fixingDate` is today as `dd-mm-yyyy` |
| CustodyService.KeptRowsAreToday | core/services/custody/custody_service.py:58-59 | every kept row's `fixingDate` parses back to today, and no kept row carries any other valid date's stamp |
| CustodyService.ConsolidateOperations | core/services/custody/custody_service.py:61-70 | raises exactly when a row lacks one of the four key columns; otherwise an order-preserving subsequence with pairwise distinct keys, the same key set as the input, and each kept row the first of its key |
| CustodyService.ConsolidateIdempotent | core/services/custody/custody_service.py:61-70 | consolidating consolidated rows changes nothing |
| CustodyService.GroupByClient | core/services/custody/custody_service.py:72-80 | raises exactly when a row lacks `accountNumber`; otherwise one group per account in order of first appearance holding exactly that account's rows in input order, sizes summing to the input length |
| CustodyService.SectionsAsWrittenRaise | core/services/custody/custody_service.py:87-112 | the client block indexes `'accountName'` into the account-number string, so building the body raises exactly when there is at least one group |
| CustodyService.DeskMail | core/services/custody/custody_service.py:82-92 | the desk mail is built exactly when grouping by client succeeds and every group has a client block; it goes to `NOTIFY_EMAIL` with the dated subject, and its body is the desk header followed by one block per client in first-appearance order |
| CustodyService.ProductLines | core/services/custody/custody_service.py:89-90 | the product lines are written exactly when every product has `referenceAsset` and `nomeDoProduto`, and then are the `* Ativo: … | Produto: …` lines of the products, in order |
| CustodyService.Section | core/services/custody/custody_service.py:87-90 | one client block is the `Cliente: name (Conta: number)` line followed by the product lines of that client, in order; it fails exactly when the client lacks a name or number or a product lacks a listed field |
| CustodyService.Sections | core/services/custody/custody_service.py:87-90 | the body after the header is the blocks of the groups concatenated in group order, and is written exactly when every block can be |
| CustodyService.EveryProductListed | core/services/custody/custody_service.py:86-90 | every product given to the desk mail appears as a product line in the block of its own client |
| Grouping.GroupsOfCover | core/services/custody/custody_service.py:72-80 | after grouping, every element lies in the group whose key is its own key |
| CustodyService.Products | core/services/custody/custody_service.py:101 | the routed products in order, one per routed entry |
| CustodyService.AdvisorEmailAsWritten | core/services/custody/custody_service.py:99 | the four-way unpack succeeds only on a complete lookup, and then yields that lookup's email; a miss (a 3-tuple) raises |
| CustodyService.AdvisorEmail | core/services/custody/custody_service.py:99-100 | a miss reads as "no email"; a non-`None` email comes from a complete lookup; wherever the unpack as written succeeds the two agree |
| CustodyService.RouteProducts | core/services/custody/custody_service.py:97-101 | raises exactly when a lookup raises or a truthy email cannot key a dict; otherwise exactly the products with a truthy email, each tagged with it, as an order-preserving subsequence |
| CustodyService.GroupProductsByAdvisor | core/services/custody/custody_service.py:95-102 | the routed products grouped by email in input order, one group per distinct email, sizes summing to the number routed |
| CustodyService.AdvisorMissRaisesAsWritten | core/services/custody/custody_service.py:95-102 | one product whose account has no complete advisor entry makes the grouping as written raise, because a miss is a 3-tuple and the unpacking expects 4 |
| CustodyService.AdvisorMail | core/services/custody/custody_service.py:104-116 | an advisor's mail is built exactly when that advisor's products group by client and every block can be written; it goes to that advisor's email with the dated subject, and its body is the advisor header followed by one block per client of that advisor's products |
| CustodyService.SendAdvisorMails | core/services/custody/custody_service.py:104-116 | the i-th mail sent is exactly the mail built for the i-th advisor group; all but the last attempted were delivered; a completed loop sent one delivered mail per advisor |
| CustodyService.AdvisorMailsAddressed | core/services/custody/custody_service.py:104-116 | the i-th advisor mail is addressed to the i-th advisor of the grouping |
| CustodyService.Run | core/services/custody/custody_service.py:118-124 | a mail is sent exactly when filtering, consolidation and the desk mail succeed; the first mail is the desk mail; a failed desk send ends the run; after a delivered desk mail, a grouping that raises ends the run and a grouping that succeeds is followed by the advisor mails in group order, one for every group when the run completes; advisor addresses are distinct |
| CustodyService.ExecuteAsWritten | core/services/custody/custody_service.py:82-124 | as written, a day with expiring products raises before any mail; a day without sends exactly one header-only desk mail and no advisor mail; a failing filter or consolidation sends nothing |
| CustodyService.Execute | core/services/custody/custody_service.py:118-124 | with the block read from the client row and misses skipped: the first mail is exactly the desk mail; no advisor mail follows a failed desk send; once the desk mail is delivered, mail i goes to the i-th key of the advisor grouping, and a completed run has mailed every key exactly once |
| CustodyService.ExpiringDayFailsCallback | adapters/controllers/custody/custody_controller.py:77-85 | as written, a custody callback on a day with expiring products is the custody-specific 500 |
| SearchAdvisorEmail.Scan | utils/search_advisor_email.py:70-73 | the `.get` scan finds the first dict entry whose field equals the value; no match among dicts gives no position; a non-dict entry before any match raises |
| SearchAdvisorEmail.FindByAccount | utils/search_advisor_email.py:68-80 | the requested field (`sgCGE` or `clientName`) of the first entry with that account (`None` when the field is absent), `None` for an unknown account, an exception exactly when a non-dict entry comes first |
| SearchAdvisorEmail.FindAdvisorEmailAndName | utils/search_advisor_email.py:82-87 | `(email, advisorName)` of the first advisor with that code, `(None, None)` when there is none |
| SearchAdvisorEmail.GetClientAndAdvisorInfo | utils/search_advisor_email.py:89-104 | a 4-tuple only when the code, the email and the name are all present, built from the scans; otherwise the 3-tuple with the client name; raises exactly when a scan it performs raises |
| SearchAdvisorEmail.UnreadableFilesMiss | utils/search_advisor_email.py:55-66 | a missing or undecodable accounts file leaves an empty table, so every lookup is the 3-tuple `(None, None, None)` |
| MapAdvisorInfo.AdvisorIndex | utils/map_client_advisor_info.py:24 | the dict comprehension succeeds iff every advisor has a code; its keys are exactly the codes; each code maps to the last advisor carrying it |
| MapAdvisorInfo.Resolve | utils/map_client_advisor_info.py:30-38 | an indexed code gives the client name with the advisor's name, email and phone; an unindexed one gives the account's own `nome_assessor` with no email or phone; a missing key raises |
| MapAdvisorInfo.MapAccountsToAdvisors | utils/map_client_advisor_info.py:22-41 | a malformed advisor table raises even for an unknown account; the first account entry that matches decides; no match gives four `None`s |
| MapAdvisorInfo.UnreadableFilesUnknown | utils/map_client_advisor_info.py:9-20 | unreadable data files give empty tables and every account maps to four `None`s |
| MapAdvisorInfo.LaterAdvisorWins | utils/map_client_advisor_info.py:24 | of two advisors sharing a code, the later one is reported |
| Calendar.MonthsBefore | core/services/management_reports/closed_commissions_service.py:25-31 | stepping back n months lands exactly n calendar months earlier, on the same day or the last day of a shorter month; it raises exactly when the year would fall below 1 |
| Calendar.DayStampRoundTrip | core/services/custody/custody_service.py:58-59 | a `%d-%m-%Y` stamp reads back as the date it was written from |
| Calendar.DayStampInjective | core/services/custody/custody_service.py:58-59 | two valid dates with equal stamps are equal, so the string comparison compares dates |
| Calendar.ReferenceYear | core/services/management_reports/closed_commissions_service.py:25-31 | the reference date falls in the current year exactly when the current month is later than the months stepped back |
| Calendar.ReferencePeriodAsWritten | core/services/management_reports/closed_commissions_service.py:23-37 | as written, the period names the reference month with the current year: 12 months later than the reference date whenever the step crosses January |
| Calendar.ReferencePeriod | core/services/management_reports/monthly_nnm_service.py:24-38 | the corrected period names exactly the month one (from day 8) or two (up to day 7) months before today |
| Calendar.ReferencePeriodAgreesWithinYear | core/services/management_reports/monthly_nnm_service.py:34-36 | the written and corrected periods agree iff the reference month lies in the current year |
| Calendar.TenthOfJanuary | core/services/management_reports/closed_commissions_service.py:34-35 | on 10 January 2025 the written code asks for December 2025; the corrected one asks for December 2024 |
| Lookup.LoadJson | utils/search_advisor_email.py:55-66 | a decoded file gives its entries; a missing or undecodable file reads as the empty list |
| Lookup.FirstMatch | utils/map_client_advisor_info.py:27-28 | the scan returns the first entry the test accepts after passing over all before it, no entry when it passes over all, and raises exactly when the test raises on an entry before any match |
| Lookup.FirstMatchIsFirst | utils/map_client_advisor_info.py:27-28 | any accepted entry preceded only by rejected ones is the one the scan returns |
| CommissionsService.Load | core/services/management_reports/commissions_service.py:21-29 | construction succeeds exactly when the configuration and email service can be built and both data files decode (this `load_json` re-raises), with the two tables as read |
| CommissionsService.AccountScan | core/services/management_reports/commissions_service.py:93-100 | the first entry whose `account` text equals the account number text is found; when every entry has another account there is none |
| CommissionsService.AdvisorScan | core/services/management_reports/commissions_service.py:107-114 | the first advisor whose code equals the account entry's `sgCGE` is found; a hit needs the entry to have an `sgCGE` |
| CommissionsService.Resolve | core/services/management_reports/commissions_service.py:91-127 | the advisor of the first matching account, when its first matching advisor has all three fields; nothing when no account matches |
| CommissionsService.GetAdvisorInfo | core/services/management_reports/commissions_service.py:85-132 | a found advisor leaves the state unchanged; every miss or failed lookup answers `None` and adds the account text to the unprocessed set |
| CommissionsService.NumberAndTextAgree | core/services/management_reports/commissions_service.py:89 | an account number and its decimal text give the same answer and the same state |
| CommissionsService.ProcessRow | core/services/management_reports/commissions_service.py:143-155 | a row without `nr_conta` raises and changes nothing; a routed row is appended under its `name_code` key; an unrouted one is recorded as unprocessed |
| CommissionsService.MembersInsert | core/services/management_reports/commissions_service.py:150-154 | appending under one key extends that key's list by the row and leaves every other key's list unchanged |
| CommissionsService.ProcessRowsRaises | core/services/management_reports/commissions_service.py:134-167 | processing raises exactly when some row lacks `nr_conta`; the unprocessed set never shrinks |
| CommissionsService.ProcessRowsFiles | core/services/management_reports/commissions_service.py:143-155 | without an exception, each advisor's list grows by exactly the rows routed to it, in row order |
| CommissionsService.ProcessRowsCount | core/services/management_reports/commissions_service.py:139-161 | without an exception, the stored record total grows by the number of routed rows |
| CommissionsService.ProcessRowsUnprocessed | core/services/management_reports/commissions_service.py:101-132 | without an exception, the unprocessed set grows by exactly the account texts of the rows that did not route |
| CommissionsService.ProcessRowsAccumulate | core/services/management_reports/commissions_service.py:24-25 | state kept on the instance makes two callbacks equal to one callback over the concatenated rows |
| CommissionsService.FreshInstanceFiles | core/services/management_reports/commissions_service.py:24-25 | from a fresh instance each advisor's list is exactly its routed rows and the unprocessed set is exactly the unrouted accounts |
| CommissionsService.ProcessCsv | core/services/management_reports/commissions_service.py:67-83 | `None` exactly on a request error; raises exactly on a non-200 download, a decoding failure or a row without an account; the state moves only for a 200 download that decodes |
| CommissionsService.CommissionsCallback | adapters/controllers/management_reports/commissions_controller.py:27-113 | the callback answers "generated" exactly for a decodable 200 download whose rows all carry an account, the no-data reply exactly for a request error, the generic 500 otherwise |
| EmailService.New | core/services/email_service.py:27-46 | construction succeeds exactly when the key variable is set and non-empty, and keeps that key |
| EmailService.Clean | core/services/email_service.py:59-60 | the cleaned list is no longer than the input and holds only stripped, non-empty addresses |
| EmailService.CleanIsFilterOfStripped | core/services/email_service.py:59-60 | the comprehension equals stripping every item and then dropping the empty ones |
| EmailService.CleanOfClean | core/services/email_service.py:59-60 | a list of stripped, non-empty addresses is left as it is |
| EmailService.ParseAddresses | core/services/email_service.py:48-60 | a string is split on commas and cleaned; a list succeeds iff every element is a string, and then yields exactly the cleaned list of those strings; any other value raises; every result is stripped and non-empty |
| EmailService.ListParsesAsFilter | core/services/email_service.py:56-60 | a list of strings parses to its stripped items with the empty ones dropped, in order |
| EmailService.ReparseUnchanged | core/services/email_service.py:48-60 | parsing is idempotent: a parsed list passed back in comes out unchanged |
| EmailService.CommaJoinedRoundTrip | core/services/email_service.py:58-59 | clean addresses joined with commas parse back to the same list |
| EmailService.ContentType | core/services/email_service.py:87 | HTML content is `text/html`, any other `text/plain` |
| EmailService.SendEmail | core/services/email_service.py:130-160 | a message goes to the provider exactly when parsing yields a non-empty list, with the fixed sender, the parsed recipients and the content type; the call succeeds exactly on a 2xx status |
| EmailService.NoRecipientsNoCall | core/services/email_service.py:131-134 | an unset recipient variable or one holding only commas and blanks fails without calling the provider |
| HttpDate.Weekday | core/services/token_service.py:137-142 | the weekday number is below 7 and indexes the day names |
| HttpDate.EpochThursday | core/services/token_service.py:137-142 | 1 January 1970 is day zero of the count and a Thursday |
| HttpDate.NextDay | core/services/token_service.py:137-142 | the day after a valid date is a valid date |
| HttpDate.OrdinalNext | core/services/token_service.py:137-142 | the day after a date is one further in the day count |
| HttpDate.WeekdayNext | core/services/token_service.py:137-142 | the day after a date falls on the next weekday, Sunday wrapping to Monday |
| HttpDate.Format | core/services/token_service.py:137-142 | an IMF-fixdate is always 29 characters |
| HttpDate.Parse | core/services/token_service.py:137-142 | a parsed date is always a real calendar date and time of day |
| HttpDate.TimestampWithinDay | core/services/token_service.py:141-142 | within one day, the timestamp order is the order of the times of day |
| HttpDate.ParseFormat | core/services/token_service.py:137-142 | a formatted moment parses back to itself |
| HttpDate.ParseIgnoresDayName | core/services/token_service.py:137-142 | two dates differing only in a valid day name parse alike |
| HttpDate.WeekdayNotChecked | core/services/token_service.py:137-142 | a date carrying the wrong day name parses to the same moment |
| TokenService.FloatOf | core/services/token_service.py:34 | numbers and booleans convert to their value, a string converts iff it is a non-empty digit run, `None`, lists and dicts raise |
| TokenService.FloatOfWritten | core/services/token_service.py:152-157 | the expiry a cache file holds, as a number or as its decimal text, converts back to itself |
| TokenService.FromDict | core/services/token_service.py:30-35 | a token is built iff the value is a dict with both keys and a convertible expiry, and it holds exactly those two values |
| TokenService.LoadCachedToken | core/services/token_service.py:163-181 | a missing, unreadable or undecodable file gives no token; a decoded file of the wrong shape raises; a token is returned only when it decodes and has not expired, and a decoded unexpired token is never dropped |
| TokenService.SaveToCache | core/services/token_service.py:149-161 | a successful write leaves a file that decodes to the saved token; a failed write is swallowed and leaves the file as it was |
| TokenService.SaveLoadRoundTrip | core/services/token_service.py:149-181 | a saved token loads back as itself while the clock is before its expiry, and as nothing from the expiry instant on |
| TokenService.Construct | core/services/token_service.py:53-61 | constructing the service hands out the one shared instance reset to uninitialized and without a token, whatever an earlier holder had |
| TokenService.Initialize | core/services/token_service.py:63-80 | an initialized service is left alone; otherwise it raises exactly without `AUTH_BASE64` or on a malformed cache file, and on success holds what the cache file gives |
| TokenService.InitializeIdempotent | core/services/token_service.py:65-67 | a second initialization, in any environment, changes nothing |
| TokenService.MissingAuthRaises | core/services/token_service.py:72-74 | a fresh service without `AUTH_BASE64` raises and stays uninitialized |
| TokenService.ProcessResponse | core/services/token_service.py:127-147 | a token is produced iff both headers are truthy and the expiry is a valid HTTP-date; it carries the header token and the date's UTC timestamp |
| TokenService.ProcessFormattedExpiry | core/services/token_service.py:137-144 | an expiry header written as an IMF-fixdate yields exactly that moment's timestamp |
| TokenService.FetchNewToken | core/services/token_service.py:104-125 | the call always asks the endpoint; it succeeds iff the status is 200 and the headers process; success holds, caches and returns the new token; failure changes nothing |
| TokenService.Prepare | core/services/token_service.py:93-97 | initialization and the cache reload raise exactly as their parts do; a held token is kept; a token read from the cache has not expired |
| TokenService.GetToken | core/services/token_service.py:91-102 | the endpoint is asked exactly when no token is held after preparation or the held one has expired; otherwise the held token is returned and the cache file is untouched |
| TokenService.FetchStoresBoth | core/services/token_service.py:118-122 | a successful fetch with a writable cache leaves the same token in memory and in the file, and returns it |
| TokenService.FetchedTokenReused | core/services/token_service.py:91-102 | until its expiry a fetched token is returned again without a request, by the same instance and by a reconstructed one through the cache file |
| TokenService.ExpiryInstantFetches | core/services/token_service.py:25-28 | at its expiry instant a held token counts as expired and a new one is fetched; the cache file no longer yields it |
| LegacyTokenService.IsTokenExpired | services/token_service.py:48-49 | the check succeeds iff the cached value is a dict with a numeric `expires_at`, and then says expired iff the clock is strictly past it |
| LegacyTokenService.Fetch | services/token_service.py:32-46 | succeeds iff the status is 200, the body has both keys with a numeric `expires` and the file can be written; then returns the body's token and caches it with expiry request time plus `expires` |
| LegacyTokenService.GetToken | services/token_service.py:26-46 | asks the endpoint exactly when there is no cache file, or its content is falsy or expired; an undecodable file raises without a request; otherwise returns the cached `access_token` |
| LegacyTokenService.ReusedUntilExpiry | services/token_service.py:27-30 | a cached entry is reused exactly up to and including its expiry instant |
| LegacyTokenService.FetchedTokenReused | services/token_service.py:26-46 | a fetched token is reused without a request until `expires` seconds after the fetch |
| LegacyTokenService.ExpiryInstantDiffers | services/token_service.py:48-49 | both versions write the same cache entry, yet at its expiry instant the core version fetches while the older one returns the cached token |
| Upstream.RequestReport | core/services/custody/custody_service.py:24-37 | a report request raises exactly when building the headers fails (outside the `RequestException` handler); otherwise it answers `True` exactly on a 202 and `None` on any other status or a request error |
| Upstream.ConfigAttribute | core/services/config_service.py:5-27 | an attribute can be read exactly when a configuration instance carries it; `_base_url` is the fixed API host |
| SharedInstance.InstanceOf | core/services/token_service.py:53-56 | `cls._instance` is the class's own registered object if it has one, else the nearest ancestor's, else unset |
| SharedInstance.Construct | core/services/token_service.py:53-56 | a class with no instance in reach gets a new object of its own, registered on it and initialised; otherwise the object in reach is handed back and `__init__` runs exactly when it is an instance of the class called |
| SharedInstance.ConstructRegistered | core/services/token_service.py:53-56 | every object registered on a class stays one of that class |
| SharedInstance.Attribute | core/services/config_service.py:5-9 | a configuration object reads the configuration's attributes; a bare token service can read only the attributes `TokenService.__init__` sets |
| SharedInstance.ConfigAfterTokenLacksBaseUrl | core/services/config_service.py:5-9 | once a `TokenService()` exists, `ConfigService()` and `StockOrdersService()` hand back that token service without running their `__init__`, and `_base_url` cannot be read |
| SharedInstance.ConfigCarriesBaseUrl | core/services/config_service.py:5-9 | `ConfigService()` yields an object with `_base_url` exactly when a configuration is already registered on `ConfigService` or no `TokenService()` was ever built |
| Upstream.ReportUrlAsWritten | core/services/custody/custody_service.py:26 | as written, reading `base_url` from the configuration always raises, since only `_base_url` exists |
| Upstream.RequestReportAsWritten | core/services/management_reports/monthly_tir_service.py:13-31 | as written, every report request raises before anything is sent, whatever the upstream would answer |
| Upstream.ReportUrl | core/services/stock_orders_service.py:18-19 | with `_base_url`, the URL is the API host followed by the endpoint |
| Upstream.RequestReportFixed | core/services/management_reports/monthly_tir_service.py:18-31 | with `_base_url`, a header failure raises and otherwise the 202 rule alone decides the result |
| Upstream.TriggerFailsAsWritten | adapters/controllers/management_reports/abstract_report_controller.py:47-134 | as written, every trigger request of a standard controller ends in the generic 500 after the trigger was attempted |
| Upstream.TriggerAcceptedOn202 | adapters/controllers/management_reports/abstract_report_controller.py:47-134 | with `_base_url`, a trigger request is accepted exactly on an upstream 202; a header failure is the generic 500; any other answer carries the controller's own failure text |
| MonthlyReports.RequestMonthly | core/services/management_reports/monthly_nnm_service.py:19-53 | the call returns exactly when the reference period can be computed and the headers can be built; the period names the month one or two months back; the result is truthy exactly on a 202 |
| MonthlyReports.Process | core/services/management_reports/monthly_nnm_service.py:55-73 | `None` on a request error; raises exactly on a non-200 download or a decoding failure (the `except` catches request errors only); otherwise the shaped table |
| MonthlyReports.ProcessClosedCommissions | core/services/management_reports/closed_commissions_service.py:56-74 | a 200 download gives the DataFrame's column labels, which is what iterating it yields; a request error gives `None`; another status raises |
| MonthlyReports.ProcessNnm | core/services/management_reports/monthly_nnm_service.py:55-73 | a 200 download gives the records in file order; a request error gives `None`; another status raises |
| MonthlyReports.NnmCallback | core/services/management_reports/monthly_nnm_service.py:55-73 | through a standard callback: 200 with the records exactly for a non-empty decoded file, the generic 500 exactly for a failed download |
| MonthlyReports.ProcessTir | core/services/management_reports/monthly_tir_service.py:41-66 | a falsy or invalid URL answers `None` before any download; a valid one behaves as the NNM download |
| MonthlyReports.InvalidUrlNotDownloaded | core/services/management_reports/monthly_tir_service.py:44-46 | the answer for an invalid URL does not depend on what the server would have sent |
| MonthlyReports.TirCallbackWithoutScheme | core/services/management_reports/monthly_tir_service.py:41-46 | a TIR callback whose URL is a bare host name is the no-data reply |
| UrlParse.StripC0Left | core/services/management_reports/monthly_tir_service.py:36 | the result is a suffix of the input that does not start with a control character or space |
| UrlParse.RemoveUnsafe | core/services/management_reports/monthly_tir_service.py:36 | no tab, CR or LF remains and no character is added |
| UrlParse.Find | core/services/management_reports/monthly_tir_service.py:36 | the position found holds the character and none before it does; no position means the character is absent |
| UrlParse.NetlocEnd | core/services/management_reports/monthly_tir_service.py:36 | the network location ends at the first `/`, `?` or `#` after its start, or at the end |
| UrlParse.SchemeEnd | core/services/management_reports/monthly_tir_service.py:36 | a scheme is found only at a `:` preceded by a valid scheme |
| UrlParse.ValidateUrl | core/services/management_reports/monthly_tir_service.py:33-39 | an accepted value is a string containing `:`; non-strings are rejected |
| UrlParse.WellFormedAccepted | core/services/management_reports/monthly_tir_service.py:33-39 | `scheme://host` followed by nothing or by a path, query or fragment is accepted |
| UrlParse.NoColonRejected | core/services/management_reports/monthly_tir_service.py:33-39 | a URL without `:` has no scheme and is rejected |
| UrlParse.HostPortRejected | core/services/management_reports/monthly_tir_service.py:33-39 | `host:port` without `//` has no network location and is rejected |
| StockOrdersService.ResultUrl | core/services/stock_orders_service.py:46-47 | the URL is truthy exactly when the body's `result` holds a truthy `url`, and then it is that URL |
| StockOrdersService.Pending | core/services/stock_orders_service.py:62-67 | the filter succeeds iff every row has a `status`; it keeps exactly the rows with an empty status, in order |
| StockOrdersService.CollectPending | core/services/stock_orders_service.py:60-67 | the nested loop over members and rows gives exactly the pending filter of all rows, member after member |
| StockOrdersService.GetStockOrders | core/services/stock_orders_service.py:17-82 | the window is the fixed day; a header failure raises; a request error, a non-202, an empty or non-JSON body, a download error or a non-200 archive give `None`; a missing URL raises; otherwise the pending orders, mailed once exactly when there are some |
| StockOrdersService.OrdersRoute | adapters/controllers/stock_orders_controller.py:17-44 | the route answers 200 with the orders exactly when pending orders were found and their mail went out, and the generic 500 exactly when the service raised |
| Text.Strip | core/services/email_service.py:59-60 | the result has no whitespace at either end and is a contiguous slice of the input with only whitespace around it |
| Text.TrimsUnique | core/services/email_service.py:59-60 | any whitespace-free-ended slice with only whitespace around it is the stripped text, so the contract of `Strip` determines it |
| Text.StripIdempotent | core/services/email_service.py:59-60 | stripping twice is stripping once |
| Text.Split | core/services/email_service.py:59 | a split always has at least one piece and no piece contains the separator |
| Text.JoinSplit | core/services/email_service.py:59 | joining the pieces of a split gives back the original text |
| Text.SplitJoin | core/services/email_service.py:59 | splitting a join of separator-free pieces gives back the pieces |
| Text.Pad2RoundTrip | core/services/custody/custody_service.py:58 | a two-digit field reads back as its number |
| Text.NatToStringRoundTrip | core/services/custody/custody_service.py:58 | a year's decimal text reads back as the year |
| PyJson.HashKeyIsPyEq | utils/map_client_advisor_info.py:24-33 | two hashable values are the same dict key exactly when they compare equal |
| Grouping.Filter | core/services/custody/custody_service.py:59 | the filtered list is no longer than the input and every kept element satisfies the test |
| Grouping.FilterKeeps | core/services/custody/custody_service.py:59 | the filtered list is a subsequence of the input containing every element that satisfies the test |
| Grouping.FilterIdempotent | core/services/custody/custody_service.py:59 | filtering twice is filtering once |
| Grouping.DedupFirstWins | core/services/custody/custody_service.py:61-70 | consolidation keeps a subsequence of the input, each element the first of its key |
| Grouping.DedupIdempotent | core/services/custody/custody_service.py:61-70 | consolidating twice is consolidating once |
| Grouping.Consolidate | core/services/custody/custody_service.py:61-70 | the loop with a seen-set computes exactly the first-of-each-key list |
| Grouping.GroupByGroups | core/services/custody/custody_service.py:72-80 | grouping puts every element under its key, in first-appearance order of keys and input order within a group |
| Grouping.GroupBySizes | core/services/custody/custody_service.py:72-80 | the group sizes add up to the input length |

## Left out

- Flask routing, `jsonify` and app wiring are left out. Handlers are functions from the request to a `(status, body)` reply.
- Outbound HTTP, SendGrid and the OAuth request are left out. Their outcomes are parameters.
- Upstream.RequestReportFixed: assumes the configuration object ran `ConfigService.__init__`. The source does not guarantee it, because a subclass inherits `TokenService._instance`; `SharedInstance` models when that fails. The report services do not thread the class registry through their calls.
- Building the report URL and headers is left out. Only the attribute the URL reads and a header-building failure are modelled. A header failure is not a `RequestException`, so it escapes the request handler and ends as the generic 500.
- Zip, delimited-text and pandas decoding are left out. A download gives an already decoded table, or a decoding exception.
- Excel and attachment generation, directory writes and attachment reading are left out. The model covers `send_email` without attachments and not `send_commissions_report`, which writes Excel files.
- The database, migrations, schedulers and `time.sleep` are left out: they are persistence and timers.
- Log and `print` output is left out: it does not affect any reply.
- Times are whole seconds, not Python floats. Each call reads the clock once (`now`).
- Request-id generation (`uuid4`) and the header dicts are left out: they are randomness and formatting that no decision reads.
- Response headers are matched case-sensitively. `requests` matches them case-insensitively.
- `strptime` leniencies are left out: one-digit fields, surrounding whitespace, and other zone names that `%Z` accepts. The expiry parser accepts exactly the 29-character IMF-fixdate with `GMT` or `UTC`.
- TokenService.FloatOf: converts only numbers, booleans and non-empty digit strings. Python's `float()` also accepts signs, decimals, surrounding whitespace, exponents, `inf` and `nan`.
- A failed cache write that leaves a truncated file is not modelled. A failed write leaves the file as it was.
- A cache file that is not UTF-8 is treated as unreadable.
- `str()` of lists and dicts, and equality between containers that hold `True`/`1` mixes, are simplified. Containers compare structurally and render as a fixed marker.
- Data files whose top level is not a JSON list are left out. Every file is a list of entries or fails to load.
- Short rows in `csv.DictReader` (missing trailing cells read as `None`) are left out. A row maps every header it has to a string.
- `strftime("%Y")` padding for years below 1000 is left out. The year's decimal digits are written without padding.
- `urlsplit` is modelled only as far as scheme and network location. IPv6 bracket validation beyond the one-bracket check, NFKC normalisation and port parsing are left out.
- An email recipient passed as a dict (iterated by key) is left out. Strings and lists are modelled; other values raise.
- The thin pass-through services and controllers (suitability, registration data, life insurance, recommended equities, positions and account base) are left out. Each is one upstream call and a status check.

## Findings

| source | as written | input that shows it | evidently intended | confidence | as-written member | corrected member |
|---|---|---|---|---|---|---|
| core/services/custody/custody_service.py:26 | the report URL reads `self.config_service.base_url`, but the configuration only sets `_base_url` (core/services/config_service.py:8); the same read is in the commissions, closed-commissions, NNM and TIR services | any trigger request, for example a POST without a JSON body to the custody route | read `_base_url`, as the stock-orders service does; on its own this holds only for a configuration whose `__init__` ran, which a `ConfigService()` built after any `TokenService()` is not (see `SharedInstance`) | high (not executed) | Upstream.RequestReportAsWritten | Upstream.RequestReportFixed |
| core/services/management_reports/closed_commissions_service.py:35 | `refYear` is the current year even when the reference month lies in the previous year (the same in monthly_nnm_service.py:36) | today = 10 January 2025 gives `{"refMonth": "12", "refYear": "2025"}` | the year of the reference date, `"2024"` | high (not executed) | Calendar.ReferencePeriodAsWritten | Calendar.ReferencePeriod |
| adapters/controllers/management_reports/abstract_report_controller.py:77 | the trigger leg calls `generate_report`, which the TIR service does not define | any POST without `"response"` to the TIR route | call `get_monthly_tir_report` | high (not executed) | MonthlyTirController.HandleAsWritten | MonthlyTirController.Handle |
| adapters/controllers/relationship/account_advisors_controller.py:35 | the trigger calls `get_account_advisors_relationship`, but the service defines `get_account_advisors_link` | any POST without `"response"` to the account-advisors route | call `get_account_advisors_link` | high (not executed) | AccountAdvisorsController.HandleAsWritten | AccountAdvisorsController.Handle |
| adapters/controllers/fixed_income_reports/debentures_controller.py:74 | `data.values()` is logged before the list check, so a list body raises and the list branch below never runs | the callback `["response", {"url": "u"}]` is answered 500 | log after unwrapping, so the list branch serves the second element | medium (not executed) | DebenturesController.ListPayloadRefusedAsWritten | DebenturesController.ListPayloadServed |
| core/services/custody/custody_service.py:88 | the desk mail indexes `'accountName'` into the grouping key, which is the account-number string | a callback day with one expiring product | read the name and number from the client's first product row | high (not executed) | CustodyService.ExecuteAsWritten | CustodyService.Execute |
| core/services/custody/custody_service.py:99 | the four-way unpack expects a 4-tuple, but a lookup miss returns a 3-tuple | one expiring product whose account is not in the directory | treat a miss as "no email" and skip the product | high (not executed) | CustodyService.AdvisorMissRaisesAsWritten | CustodyService.AdvisorEmail |
