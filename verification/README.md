# Neostrada registrar module for WHMCS, in Dafny

This project models the Neostrada registrar module for WHMCS. The module has
three layers:

- **`Http`** is a small HTTP client. It builds each request from a verb, a
  URI relative to a base URI and a payload, adds the configured header lines
  and hands the request to curl.
- **`Client`** wraps the Neostrada REST API. It covers holders, domains,
  nameservers, DNS records, extensions, countries and orders. The country,
  extension and holder lists are cached in the client's fields.
- **The module functions** (`neostrada_RegisterDomain`,
  `neostrada_SaveDNS`, `neostrada_Sync` and the rest) are what WHMCS calls.
  Each makes a fresh client and calls it. Each turns the replies into the
  result array WHMCS expects: `['success' => true]`, `['error' => ...]` or a
  data array.

The model keeps that structure:

| file | module | what it holds |
|---|---|---|
| `php.dfy` | `Php` | PHP values (null, booleans, integers, strings, ordered arrays); `empty()`; array reads, writes and `unset`; the string built-ins the module uses (`trim`, `strtoupper`, `strpos`, `str_ireplace`, `explode($sep, $s, 2)`) |
| `transport.dfy` | `Wire` | the wire: a `Transport` object that records every request and answers the k-th one with the k-th reply of a fixed script |
| `http.dfy` | `Http` | the `Http` class and the pure functions that shape a request |
| `client_model.dfy` | `ClientModel` | every `Client` operation as a function from the client state (the three caches and the calls made so far) to the new state and the result |
| `client.dfy` | `Neostrada` | the `Client` class; each method is proved to leave exactly the state and return exactly the result of its `ClientModel` function |
| `reconcile.dfy` | `Reconcile` | the value rules of the module functions: result arrays, nameserver slots, DNS rows, the delete/update/add diff of a DNS save, the contact name and phone heuristic, holders built from WHMCS details, renewal decisions |
| `registrar_model.dfy` | `RegistrarModel` | each module function as a function of its parameters and the reply script |
| `registrar.dfy` | `Registrar` | each module function as an imperative method over a `Client`, statement by statement; each is proved to send exactly the requests its `RegistrarModel` function lists and to return its result |

A module function's outcome is determined by its parameters and the replies
the API gives. Every `Registrar` method is stated against the transport's
log: the log grows by exactly the requests of the calls the matching
`RegistrarModel` function lists, in order, and nothing else.

## Model

| member | source | states |
|---|---|---|
| Http.UriArg | neostrada/Http.php:43 | the uri is the first argument when it is a string, else '' |
| Http.PayloadArg | neostrada/Http.php:44 | the payload is the second argument when it is an array, else the empty array |
| Http.UpperStrings | neostrada/Http.php:128 | a name is in the list exactly when some string entry of the array upper-cases to it |
| Http.IsMethodOf | neostrada/Http.php:122-138 | a string matches the current method when its upper case equals it; an array matches when one of its string entries does; anything else never matches |
| Http.RenderHeaders | neostrada/Http.php:91-102 | one `Key: Value` line per header, in insertion order |
| Http.RequestTests | neostrada/Http.php:63-73 | `isMethod('get')` holds exactly for GET; `isMethod(['post', 'patch', 'delete'])` holds exactly for POST, PATCH and DELETE |
| Http.PayloadPlacement | neostrada/Http.php:58-79 | a GET carries no body and gets a query string only for a non-empty payload, after any trailing '?' is dropped; POST, PATCH and DELETE carry the payload as the body; the header lines are the configured ones |
| Http.JoinUrlPlain | neostrada/Http.php:60 | with no trailing '/' on the base and no leading whitespace on the uri, the URL is base + '/' + uri |
| Http.JoinUrlIgnoresTrailingSlash | neostrada/Http.php:60 | a trailing '/' on the base URI does not change the URL |
| Http.JoinUrlKeepsLeadingSlash | neostrada/Http.php:60 | a leading '/' on the uri is kept, so the URL then has two slashes in a row |
| Http.Http.constructor | neostrada/Http.php:24-27 | the base URI and headers are taken from the options; the current method starts empty |
| Http.Http.ParseOptions | neostrada/Http.php:107-116 | `base_uri` is taken when set; `headers` is taken when it is an array; each field is otherwise left as it was |
| Http.Http.Call | neostrada/Http.php:34-50 | an accepted verb, in any letter case, becomes the current method and sends exactly one request, answered by the next reply; any other name sends nothing and returns null |
| Http.Http.Request | neostrada/Http.php:58-86 | appends to the wire exactly the request built from the current method, URL, body and header lines, and returns the reply to it |
| Http.Http.GetHeaders | neostrada/Http.php:91-102 | the header lines are the rendering of the configured headers |
| Wire.Transport.Send | neostrada/Http.php:67-85 | the request is appended to the log; the reply is the script entry at the request's position |
| ClientModel.HttpOptionsRead | neostrada/Client.php:53-59 | the options carry the API endpoint as `base_uri` and the Accept and Bearer-token headers |
| ClientModel.CallNamesAccepted | neostrada/Http.php:16 | the four verbs the client calls are all verbs `__call` accepts |
| ClientModel.LoggedRequest | neostrada/Http.php:58-86 | with the client's options, the request `Http` builds for a call is the one the client model logs for it |
| ClientModel.LoggedStep | neostrada/Http.php:34-50 | one more call puts one more request on the wire, after the earlier ones |
| ClientModel.GetResult | neostrada/Client.php:598-607 | a result exists exactly when the status is 200 and the decoded body is truthy, and it is that body |
| ClientModel.CacheRules | neostrada/Client.php:68-83 | for holders, extensions and countries alike: a non-empty cache is served without a request unless a refresh is asked for; otherwise exactly one GET goes out, its `results` are returned, and only a non-null result replaces the cache; the other two caches are untouched |
| ClientModel.CachesServeRepeats | neostrada/Client.php:68-83 | after a getter returned a non-empty list, asking again without a refresh returns the same list and sends nothing (holders, extensions and countries alike) |
| ClientModel.MatchHolderFirst | neostrada/Client.php:124-141 | the id found is the `holder_id` of the first holder whose seven identity fields equal the candidate |
| ClientModel.MatchHolderNone | neostrada/Client.php:119-145 | when no holder has that identity, no id is found |
| ClientModel.IdentityFields | neostrada/Client.php:127-137 | changing one of the seven identity fields to a different value changes the identity; changing any other field does not |
| ClientModel.HolderPayload | neostrada/Client.php:95-101 | the `holders/add` payload adds `country_id` and `is_module`, drops a set but empty `company`, and keeps every other field |
| ClientModel.MatchCountryFirst | neostrada/Client.php:520-534 | the id found is the `country_id` of the first country that has the code and an id; none is found exactly when no country has both |
| ClientModel.CreateHolderNeedsCountry | neostrada/Client.php:91-111 | for an unknown country code, no holder is created and only the country list may be fetched |
| ClientModel.CreateHolderRequests | neostrada/Client.php:91-111 | after the country lookup: an unknown country gives null and sends nothing more; a known one sends exactly one `holders/add` POST carrying `HolderPayload` of the holder and that country id, leaves the caches as the lookup left them, and returns `results.holder_id` of the reply to that POST |
| ClientModel.NameserverIds | neostrada/Client.php:257-259 | for a list, each nameserver becomes `['record_id' => its id]` under its own key, in order; a non-array gives no entries |
| ClientModel.DeleteCurrentNameserversSends | neostrada/Client.php:252-267 | with no nameservers nothing is deleted; otherwise one DELETE carries one `record_id` per nameserver, holding that nameserver's id, in order |
| ClientModel.ExcludeTypesMembers | neostrada/Client.php:288-292 | a record is kept exactly when it was fetched and its upper-cased type is not excluded |
| ClientModel.ExcludeTypesAppend | neostrada/Client.php:289-291 | the filter keeps the fetched order: it distributes over concatenation |
| ClientModel.GetDnsRecordsExclusion | neostrada/Client.php:276-297 | with the default exclusions no SOA or NS record, in any letter case, comes back; with none, the fetched records come back unfiltered |
| ClientModel.WrapRecordIds | neostrada/Client.php:359-361 | each record id is wrapped as `['record_id' => id]` under the same key |
| ClientModel.DnsScopedRequests | neostrada/Client.php:179-194 | a `dns_id`-scoped call first looks up the domain; if the domain does not resolve nothing more is sent, else exactly one request goes to the resolved `dns_id` |
| ClientModel.Available | neostrada/Client.php:438-441 | a domain is available exactly when the whois result's `available` is truthy |
| ClientModel.MatchExtensionFirst | neostrada/Client.php:480-485 | the extension returned is the first item whose `extension` equals the name |
| ClientModel.MatchExtensionNone | neostrada/Client.php:472-489 | when no item has that extension, none is returned |
| ClientModel.YearsSent | neostrada/Client.php:552-554 | a term that is not an array is always sent as 1; any term is sent as 1 or as the list [1, 2, 3] |
| ClientModel.OrderPayload | neostrada/Client.php:557-567 | the order carries the extension id, the domain, the holder id and the term; `authcode` is present exactly when the auth code is non-empty |
| ClientModel.OrderRequests | neostrada/Client.php:545-577 | an unknown extension places no order; a known one sends exactly one `orders/add/` POST after the lookup, whose `year` is 1 for any term that is not an array and is kept when the term is the list [1, 2, 3] |
| Neostrada.Client.constructor | neostrada/Client.php:51-60 | the client starts with empty caches, no calls, and an `Http` client set up for the endpoint and key |
| Neostrada.Client.Call | neostrada/Http.php:34-50 | one call through `__call` extends the state and the wire by exactly that call and returns the next reply |
| Neostrada.Client.GetHolders | neostrada/Client.php:68-83 | the new caches, calls and result are those of `ClientModel.GetHolders` |
| Neostrada.Client.CreateHolder | neostrada/Client.php:91-111 | as `ClientModel.CreateHolder`: country lookup, then `holders/add` only for a known country |
| Neostrada.Client.FindHolderId | neostrada/Client.php:119-145 | as `ClientModel.FindHolderId`: the first holder whose identity matches |
| Neostrada.Client.UpdateDomainHolders | neostrada/Client.php:154-171 | as `ClientModel.UpdateDomainHolders`: a PATCH to the resolved domain id |
| Neostrada.Client.GetNameservers | neostrada/Client.php:179-194 | as `ClientModel.GetNameservers` |
| Neostrada.Client.AddNameservers | neostrada/Client.php:203-220 | as `ClientModel.AddNameservers` |
| Neostrada.Client.DeleteNameservers | neostrada/Client.php:229-244 | as `ClientModel.DeleteNameservers` |
| Neostrada.Client.DeleteCurrentNameservers | neostrada/Client.php:252-267 | as `ClientModel.DeleteCurrentNameservers` |
| Neostrada.Client.GetDnsRecords | neostrada/Client.php:276-297 | as `ClientModel.GetDnsRecords`, type filter included |
| Neostrada.Client.AddDnsRecords | neostrada/Client.php:304-319 | as `ClientModel.AddDnsRecords` |
| Neostrada.Client.UpdateDnsRecords | neostrada/Client.php:328-343 | as `ClientModel.UpdateDnsRecords` |
| Neostrada.Client.DeleteDnsRecords | neostrada/Client.php:352-371 | as `ClientModel.DeleteDnsRecords`, ids wrapped as `record_id` |
| Neostrada.Client.GetDomain | neostrada/Client.php:379-390 | as `ClientModel.GetDomain` |
| Neostrada.Client.DeleteDomain | neostrada/Client.php:398-409 | as `ClientModel.DeleteDomain` |
| Neostrada.Client.Whois | neostrada/Client.php:417-430 | as `ClientModel.Whois` |
| Neostrada.Client.IsAvailable | neostrada/Client.php:438-441 | as `ClientModel.IsAvailable` |
| Neostrada.Client.GetExtensions | neostrada/Client.php:449-464 | as `ClientModel.GetExtensions`, cache included |
| Neostrada.Client.GetExtension | neostrada/Client.php:472-489 | as `ClientModel.GetExtension`: the first matching item, dots trimmed from the name |
| Neostrada.Client.GetCountries | neostrada/Client.php:497-512 | as `ClientModel.GetCountries`, cache included |
| Neostrada.Client.GetCountryId | neostrada/Client.php:520-534 | as `ClientModel.GetCountryId`: the first country with that code and an id |
| Neostrada.Client.Order | neostrada/Client.php:545-577 | as `ClientModel.Order`: the extension lookup, then one order with the payload of `ClientModel.OrderPayload` |
| Php.ContainsIff | neostrada/neostrada.php:223 | `strpos(...) !== false` holds exactly when the needle occurs at some position |
| Php.RemoveCIAbsent | neostrada/neostrada.php:226 | `str_ireplace` leaves a string with no case-insensitive occurrence of the needle unchanged, and any string for the empty needle |
| Php.RemoveCIFirst | neostrada/neostrada.php:226 | `str_ireplace` keeps the text before the leftmost case-insensitive occurrence, drops the occurrence and goes on after it; with `Php.RemoveCIAbsent` this fixes the result for every input |
| Php.RemoveCIShrinks | neostrada/neostrada.php:223-226 | a first name `strpos` finds is removed: the name gets shorter by at least the first name's length |
| Php.RemoveCISinglePass | neostrada/neostrada.php:226 | the removal is one left-to-right pass: "aAbB" minus "ab" is "aB", which still holds "ab" case-insensitively |
| Php.SplitFirstAt | neostrada/neostrada.php:244 | `explode('.', $s, 2)` splits at the first dot |
| Php.NatToStringInjective | neostrada/neostrada.php:168-170 | different keys give different `ns` slot names |
| Reconcile.Filtered | neostrada/neostrada.php:79 | `array_filter`: exactly the truthy values, each under its position; the result is empty exactly when every value is empty |
| Reconcile.SetField | neostrada/neostrada.php:224 | the field is set to the value and every other field is unchanged |
| Reconcile.SlotsOfList | neostrada/neostrada.php:167-171 | for a list of nameservers the slots are ns1 .. nsN, in order, each holding the `content` of its nameserver |
| Reconcile.RowFields | neostrada/neostrada.php:402-409 | a DNS row carries the record's id as `recid`, its name, content and prio as `hostname`, `address` and `priority`, and has no `id` of its own |
| Reconcile.Prio | neostrada/neostrada.php:445 | 'N/A' becomes '' and any other priority is kept |
| Reconcile.Step | neostrada/neostrada.php:439-460 | one desired record yields at most one operation; one with a record id but no host name or no address yields none |
| Reconcile.DiffOps | neostrada/neostrada.php:439-461 | the update batch is one update per updating record, in order; the add batch is one add per record without a record id, in order |
| Reconcile.DiffDeletes | neostrada/neostrada.php:433-461 | the delete set is the remote ids minus the `id` of each updating record; each id left keeps its value |
| Reconcile.AtMostOneOp | neostrada/neostrada.php:439-460 | there are never more update and add operations together than desired records |
| Reconcile.DeleteSeedKeyed | neostrada/neostrada.php:433-437 | every remote id is stored under itself |
| Reconcile.DeleteSeedKeys | neostrada/neostrada.php:433-437 | the delete set starts with exactly the keys of the remote ids |
| Reconcile.ResavedRecordsStayDeleted | neostrada/neostrada.php:439-450 | rows as `neostrada_GetDNS` lists them have no `id`, so an update removes only the key '' from the delete set |
| Reconcile.StripCountryCode | neostrada/neostrada.php:243-247 | a number without a dot is unchanged; a changed number is the non-empty text after its first dot |
| Reconcile.TakeFirstName | neostrada/neostrada.php:223-227 | when the holder's first name occurs in the name, the contact gets that first name and the name left is the name with every case-insensitive occurrence of it removed, then trimmed; otherwise nothing changes; no other field changes and the name still to explain never grows |
| Reconcile.TakeLastName | neostrada/neostrada.php:229-240 | when the shorter of the name and the holder's last name occurs in the longer, the contact gets that last name; otherwise nothing changes; no other field and not the name changes |
| Reconcile.StripPhone | neostrada/neostrada.php:243-247 | only `phone` may change: a truthy number loses its country code, an empty one stays |
| Reconcile.ScanStep | neostrada/neostrada.php:222-248 | one holder never lengthens the name still to explain; what it does to the contact is stated by `Reconcile.ScanStepFields` and `Reconcile.ScanStepNames` |
| Reconcile.ScanStepFields | neostrada/neostrada.php:242-247 | one holder changes no field but the names and the phone, and a truthy phone loses its country code |
| Reconcile.ScanStepNames | neostrada/neostrada.php:223-240 | one holder: the first name is taken exactly when it occurs in the name, and the name left is then the trimmed `str_ireplace` of it; else the name and first name stay; the last name is taken exactly when it and the name left after removing the first name contain one another, else it stays |
| Reconcile.PhoneStrippedPerHolder | neostrada/neostrada.php:242-247 | the phone loses one country code per holder on the account, whatever the names |
| Reconcile.NamesFromHolders | neostrada/neostrada.php:222-241 | the first and last name end as they were or as those of some holder of the account |
| Reconcile.StripAfterFirstDot | neostrada/neostrada.php:244-246 | a number written as a dot-free country code, a dot and a usable rest comes back as that rest |
| Reconcile.PhoneAfterDot | neostrada/neostrada.php:335-338 | the phone number sent is the text after the first dot, or '' without a dot |
| Reconcile.IdentityPrefix | neostrada/neostrada.php:321-340 | a holder that starts with the seven identity fields has exactly those as its identity, whatever follows |
| Reconcile.RenewalAction | neostrada/neostrada.php:559-572 | cancel exactly when auto-renew is off on an active domain; reactivate exactly when it is on for an inactive one; otherwise keep |
| RegistrarModel.TransferIsRegistration | neostrada/neostrada.php:102-144 | a transfer sends the very requests a registration sends |
| RegistrarModel.NameserversBecomeAuthCode | neostrada/neostrada.php:79-86 | the order carries `authcode` exactly when one of ns1..ns3 is given, and then it is the list of the given ones |
| RegistrarModel.RegistrationHolderMatches | neostrada/neostrada.php:57-72 | the holder created for a registration has exactly the identity `findHolderId` searched for |
| RegistrarModel.GetNameserversSlots | neostrada/neostrada.php:152-176 | a failed lookup gives the error, an empty list gives success, and a list gives ns1 .. nsN in order |
| RegistrarModel.SaveNameserversOutcome | neostrada/neostrada.php:184-204 | with no nameserver given nothing is sent and the error is returned; success means the add went through |
| RegistrarModel.UsableContactKeepsFields | neostrada/neostrada.php:217-252 | only a contact's first name, last name and phone are changed |
| RegistrarModel.ScanKeepsFields | neostrada/neostrada.php:222-248 | the holder scan leaves every field but the names and the phone as it was |
| RegistrarModel.ContactDetailsFetchHoldersOnce | neostrada/neostrada.php:260-309 | when the first holder fetch yields a list, the three contacts cost exactly that one `holders` GET after the domain lookup, the cache serving the other two; otherwise at most three requests follow; a failed lookup sends nothing more |
| RegistrarModel.GetOrCreateHolderCreates | neostrada/neostrada.php:319-348 | a match creates nothing; a created holder has the searched identity and the phone number after the first dot |
| RegistrarModel.SaveContactDetailsNeedsAllHolders | neostrada/neostrada.php:356-382 | success needs all three holder ids; without all three the domain is not updated |
| RegistrarModel.SaveDnsNothingToDo | neostrada/neostrada.php:423-476 | when the fetch yields no records and no desired record updates or adds, nothing is sent after the fetch |
| RegistrarModel.NoOps | neostrada/neostrada.php:439-461 | records that neither update nor add give no operations and remove no ids |
| RegistrarModel.ResavedRecordsAreDeleted | neostrada/neostrada.php:433-450 | saving back the rows `neostrada_GetDNS` listed deletes every remote record with a non-empty id |
| RegistrarModel.SingleRequests | neostrada/neostrada.php:484-514 | fetching the EPP code and deleting a domain each send exactly one request, for the named domain |
| RegistrarModel.SyncDecisions | neostrada/neostrada.php:542-591 | once the domain and its expiry are read, cancelling sends exactly one delete after the lookup and any other decision sends nothing more; when the decision goes through, the report says active exactly when auto-renew is on and the expiry has not passed, and expired exactly when it has passed |
| Registrar.GetUsableContact | neostrada/neostrada.php:217-252 | the holder loop leaves the client and returns the contact as `RegistrarModel.UsableContact` computes |
| Registrar.ScanHolders | neostrada/neostrada.php:222-248 | the loop over the holders computes the contact `Reconcile.ScanAll` gives from the contact's full name |
| Registrar.CompareHolder | neostrada/neostrada.php:222-248 | one pass of the loop body is `Reconcile.ScanStep` |
| Registrar.GetOrCreateHolder | neostrada/neostrada.php:319-348 | the search, then the creation, leave the client and return the id as `RegistrarModel.GetOrCreateHolder` computes |
| Registrar.RegistrationHolderId | neostrada/neostrada.php:57-72 | the holder search, then the creation, as `RegistrarModel.RegistrationHolderId` |
| Registrar.HolderThenOrder | neostrada/neostrada.php:74-93 | the holder then the order, with the error messages of `RegistrarModel.HolderThenOrder` |
| Registrar.Slots | neostrada/neostrada.php:167-171 | the loop fills the slots `Reconcile.NameserverSlots` lists |
| Registrar.Rows | neostrada/neostrada.php:402-410 | the loop builds one row per record, in order |
| Registrar.DeleteSet | neostrada/neostrada.php:433-437 | the loop builds `Reconcile.DeleteSeed` of the remote records |
| Registrar.Classify | neostrada/neostrada.php:439-461 | the loop builds the three batches of `Reconcile.Diff` |
| Registrar.RegisterDomain | neostrada/neostrada.php:53-94 | the wire and the result are those of `RegistrarModel.RegisterDomain` |
| Registrar.TransferDomain | neostrada/neostrada.php:102-144 | the wire and the result are those of `RegistrarModel.TransferDomain` |
| Registrar.GetNameservers | neostrada/neostrada.php:152-176 | the wire and the result are those of `RegistrarModel.GetNameservers` |
| Registrar.SaveNameservers | neostrada/neostrada.php:184-204 | the wire and the result are those of `RegistrarModel.SaveNameservers` |
| Registrar.GetContactDetails | neostrada/neostrada.php:260-309 | the wire and the result are those of `RegistrarModel.GetContactDetails` |
| Registrar.SaveContactDetails | neostrada/neostrada.php:356-382 | the wire and the result are those of `RegistrarModel.SaveContactDetails` |
| Registrar.GetDns | neostrada/neostrada.php:390-415 | the wire and the result are those of `RegistrarModel.GetDns` |
| Registrar.SaveDns | neostrada/neostrada.php:423-476 | the wire and the result are those of `RegistrarModel.SaveDns`: the fetch, then the delete, update and add batches, each only when non-empty |
| Registrar.GetEppCode | neostrada/neostrada.php:484-495 | the wire and the result are those of `RegistrarModel.GetEppCode` |
| Registrar.RequestDelete | neostrada/neostrada.php:503-514 | the wire and the result are those of `RegistrarModel.RequestDelete` |
| Registrar.Sync | neostrada/neostrada.php:542-591 | the wire and the result are those of `RegistrarModel.Sync` |
| Registrar.TransferSync | neostrada/neostrada.php:601-617 | the wire and the result are those of `RegistrarModel.TransferSync` |

## Left out

- curl, the raw HTTP reply and `parse_response` are not modelled. The `Transport` answers the k-th request with the k-th reply of a script. A reply carries its status and the value its body decodes to (`json_decode` is not modelled).
- `http_build_query` is modelled as a flat `key=value` join that skips null values and writes booleans as 1 and 0, with no percent-encoding and no nested arrays. A request body is kept as the payload array, not as its form encoding.
- The model follows PHP 8 semantics: `strpos` finds the empty needle at position 0, and `"" == 0` is false (`Reconcile.LooseZero`). PHP 8 raises a TypeError when the API answers with something other than an array where a list is expected: a truthy nameserver list that is not an array, reaching `array_map` in `deleteCurrentNameservers`, or a non-null `results` that is not an array, reaching `array_filter` in `getDnsRecords`. There the model instead yields the empty array (`ClientModel.NameserverIds`, so the delete request goes out with no ids) or null (`ClientModel.GetDnsRecords`).
- Floating-point numbers and objects are not PHP values here. Loose `==` between values is structural equality. One case of this matters: `findHolderId` compares the seven identity fields with `==`, and PHP's `null == ""` is true, so a remote holder whose `company` is null matches a WHMCS contact whose company is `''`; `ClientModel.MatchHolder` does not match them. Numeric strings are not turned into integer array keys.
- `Reconcile.SlotName`: a string key `k` gives the slot `ns` + `k`. PHP's string increment (`'a'++` is `'b'`) is not modelled. The API returns nameserver lists, whose keys are integers.
- `Reconcile.SetField`: setting a field on a value that is not an array makes it an array holding that field. PHP raises an error for a non-empty string.
- `Reconcile.LooseZero`: `$x == 0` covers null, false, 0 and "0". Other numeric spellings of zero ("0.0", " 0") are not modelled.
- `getDomainDetails` and WHMCS `localAPI` are not part of this model. `neostrada_Sync` receives the domain details as a parameter.
- `DateTime::createFromFormat(DateTime::ATOM, ...)` and `new DateTime()` are not modelled. `neostrada_Sync` and `neostrada_TransferSync` receive the `paid_until` parser and the current time as parameters.
- `Client::reactivateDomain` is called by `neostrada_Sync` but is not defined in `neostrada/Client.php`. Its outcome is a boolean parameter of `Sync`, and it sends no request.
- Exceptions (`BadResponseException`, PHP errors) are not modelled. A failed call is a reply whose status is not 200.
- `neostrada_MetaData`, `neostrada_getConfigArray` and `neostrada_RenewDomain` are constant or out-of-scope module functions and are not modelled.
- The DNS save removes updated records from the delete set by their `id` field, as the code does, not by `recid`. The rows WHMCS sends back have no `id`, so resaved records are deleted as well (`RegistrarModel.ResavedRecordsAreDeleted`).
- `order` tests the term against `[[1, 2, 3]]`, as the code does, so a numeric term is always sent as 1 (`ClientModel.YearsSent`).
- `neostrada_SaveContactDetails` sends the registrant under the key `registrar`, as the code does.
- `neostrada_RegisterDomain` passes the filtered nameserver list as `order`'s auth code, as the code does. `neostrada_TransferDomain` passes the transfer secret as a fifth argument, which `order` does not take, so the secret is never sent (`RegistrarModel.TransferIsRegistration`).
- `neostrada_GetEPPCode` keeps its error message as written: "Could not fetch EPP ode".
