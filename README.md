# SicsthSense core, modelled in Dafny

SicsthSense is an IoT data platform. Resources are polled over HTTP, CoAP or
CoAPs, their responses are parsed into streams of data points, and every poll
or post is recorded in a resource log. This project models the core of that
system and proves properties of the model. The core covers:

- the engine's poller actor (`Poller`): rebuilding its URI and its DTLS
  client from storage, probing by scheme, and applying every stream parser
  to what it fetched;
- the engine's CoAP endpoints for resources, streams, stream data and
  users: splitting the Uri-Query options into a map, the parameter rules,
  the dispatch on the number of parameters, the antecedent filtering and the
  dependency and trigger inserts of a stream POST, the plan of a data read,
  and the token check of a user PUT;
- the web application's resource log (`ResourceLog`): clipping fields to
  their columns, save and update, and create-or-update keyed by resource and
  direction;
- the coap controller's parser synthesis from a JSON sample, its routing by
  content type, the defaults of a simply added resource, and the
  tail / last / since selector of a data read;
- virtual files (`Vfile`), text data points (`DataPointString`) and the
  proposed `Source` model with its polling schedule and access token.

Java's `null` is `Option`. A `NullPointerException` or another exception the
code really reaches is an explicit outcome (`threw`, `Threw`, `Crashed`), not
a precondition. Storage is a small class holding the rows, or a trace of
writes, that the methods update. The network, the clock, random tokens and
code outside the core (JSON parsing, `ParseData.apply`, `User.update`) are
parameters.

Module layout: `Wrappers` (Option), `JavaText` (the `java.lang.String` and
`Long` behaviour the core relies on), `CoapCodes`, `QueryParams` (the
query-map loop that the four CoAP endpoints repeat) and one module per core
Java file.

## Model

| member | source | states |
|---|---|---|
| JavaText.Show | engine/src/main/java/se/sics/sicsthsense/core/Poller.java:242 | string concatenation writes the text of a present string and "null" for a null one |
| JavaText.Prefix | engine/src/main/java/se/sics/sicsthsense/core/Poller.java:176-180 | the synopsis is a prefix of the data, of length min(100, length) |
| JavaText.Trim | cloud/app/models/ResourceLog.java:247 | `trim` never lengthens, leaves no blank (≤ U+0020) at either end, and leaves a trimmed string as it is |
| JavaText.TrimRemovesOnlyBlanks | cloud/app/models/ResourceLog.java:247 | what `trim` removes is a run of blanks at the front and a run at the back, and the rest is kept in place |
| JavaText.TrimIdempotent | cloud/app/models/ResourceLog.java:247 | trimming twice is trimming once |
| JavaText.IndexOf | engine/src/main/java/se/sics/sicsthsense/resources/coap/ResourceCoapResource.java:84 | `indexOf` is -1 exactly when the char is absent; otherwise it is the first position of the char |
| JavaText.ParseLong | engine/src/main/java/se/sics/sicsthsense/resources/coap/ResourceCoapResource.java:89 | `Long.parseLong` accepts only values in the 64-bit range |
| JavaText.ParseInt | engine/src/main/java/se/sics/sicsthsense/resources/coap/StreamDataCoapResource.java:85 | `Integer.parseInt` accepts only values in the 32-bit range |
| JavaText.LongText | cloud/app/models/DataPointString.java:89 | the decimal text of a long is non-empty, and it starts with '-' exactly for negative values |
| JavaText.LongTextRoundTrip | engine/src/main/java/se/sics/sicsthsense/resources/coap/StreamDataCoapResource.java:75 | parsing the decimal text of any long gives the long back |
| CoapCodes.ResponseCode.Number | engine/src/main/java/se/sics/sicsthsense/resources/coap/ResourceCoapResource.java:91 | each response code has its c.dd number; class 2 holds exactly the success codes |
| QueryParams.Get | engine/src/main/java/se/sics/sicsthsense/resources/coap/ResourceCoapResource.java:89 | `map.get` is null exactly for an absent key |
| QueryParams.Put | engine/src/main/java/se/sics/sicsthsense/resources/coap/ResourceCoapResource.java:85 | `put` on a LinkedHashMap sets the key's value and leaves every other key's value alone; an existing key keeps its place and a new one is added |
| QueryParams.SplitQuery | engine/src/main/java/se/sics/sicsthsense/resources/coap/ResourceCoapResource.java:84-85 | an item is split at its first '=' and rebuilt from the two halves; an item without '=' throws |
| QueryParams.ParamsOf | engine/src/main/java/se/sics/sicsthsense/resources/coap/ResourceCoapResource.java:81-86 | the loop throws exactly when some item has no '='; otherwise the map has distinct keys and at most one entry per item |
| QueryParams.ParamsOfLastWins | engine/src/main/java/se/sics/sicsthsense/resources/coap/ResourceCoapResource.java:83-86 | each key maps to the value of the last item with that key |
| QueryParams.ParamsOfKeys | engine/src/main/java/se/sics/sicsthsense/resources/coap/ResourceCoapResource.java:83-86 | the map's keys are exactly the keys of the items |
| QueryParams.SizeIsKeyCount | engine/src/main/java/se/sics/sicsthsense/resources/coap/ResourceCoapResource.java:104 | `size()` is the number of distinct keys |
| QueryParams.BuildParameters | engine/src/main/java/se/sics/sicsthsense/resources/coap/ResourceCoapResource.java:81-86 | the loop over the Uri-Query items builds exactly ParamsOf |
| QueryParams.FirstNonNumeric | engine/src/main/java/se/sics/sicsthsense/resources/coap/ResourceCoapResource.java:88-99 | no message is reported exactly when every numeric check passes |
| QueryParams.FirstNonNumericIsFirst | engine/src/main/java/se/sics/sicsthsense/resources/coap/ResourceCoapResource.java:88-99 | the message reported is that of a failing check with every earlier check passing |
| QueryParams.FirstNonNumericAt | engine/src/main/java/se/sics/sicsthsense/resources/coap/ResourceCoapResource.java:88-99 | the first failing numeric check is the message reported |
| QueryParams.Validate | engine/src/main/java/se/sics/sicsthsense/resources/coap/ResourceCoapResource.java:87-108 | a getter crashes exactly when the split throws; it refuses only with 4.02 Bad Option; a missing key gives the missing-key message; when it accepts, it returns the map |
| QueryParams.ValidateAccepts | engine/src/main/java/se/sics/sicsthsense/resources/coap/ResourceCoapResource.java:87-108 | a getter accepts exactly when every key is present, every numeric key parses and the size matches |
| QueryParams.RefusedAt | engine/src/main/java/se/sics/sicsthsense/resources/coap/ResourceCoapResource.java:88-99 | when all keys are present, the first failing numeric check is the one reported |
| QueryParams.PassedChecks | engine/src/main/java/se/sics/sicsthsense/resources/coap/ResourceCoapResource.java:104-108 | once presence and numbers pass, only the size decides |
| QueryParams.ExactKeys | engine/src/main/java/se/sics/sicsthsense/resources/coap/ResourceCoapResource.java:87-104 | "required keys present and size n" is "the key set is exactly the n required keys" |
| ResourceCoap.ThreeRuleVerdict | engine/src/main/java/se/sics/sicsthsense/resources/coap/ResourceCoapResource.java:87-108 | the three-key getter refuses with the messages, in order, of: a missing key, a non-numeric user, a non-numeric resource, a wrong count; it accepts exactly the key set {user, resource, key} |
| ResourceCoap.TwoRuleVerdict | engine/src/main/java/se/sics/sicsthsense/resources/coap/ResourceCoapResource.java:118-133 | the two-key getter refuses with the messages, in order, of: a missing key, a non-numeric user, a wrong count; it accepts exactly {user, key} |
| ResourceCoap.GetThreeResourceParameters | engine/src/main/java/se/sics/sicsthsense/resources/coap/ResourceCoapResource.java:80-109 | crashes exactly on an item without '='; accepts exactly when the keys are {user, resource, key} with numeric user and resource |
| ResourceCoap.GetTwoResourceParameters | engine/src/main/java/se/sics/sicsthsense/resources/coap/ResourceCoapResource.java:111-134 | crashes exactly on an item without '='; accepts exactly when the keys are {user, key} with a numeric user |
| ResourceCoap.HandleGet | engine/src/main/java/se/sics/sicsthsense/resources/coap/ResourceCoapResource.java:137-202 | dispatches on the raw item count: 3 gives one resource, 2 gives the owner's resources, and any other count gives 4.02 "Not correct number of parameters"; the routed ids are the parsed query values |
| ResourceCoap.HandlePost | engine/src/main/java/se/sics/sicsthsense/resources/coap/ResourceCoapResource.java:205-254 | the owner is forced to the query user; the resource is stored even after a 4.03; a poller rebuild for the new id is requested exactly when the polling period is positive |
| StreamCoap.FourStreamRule | engine/src/main/java/se/sics/sicsthsense/resources/coap/StreamCoapResource.java:67-102 | the four-key rule checks the size only when asked to |
| StreamCoap.FourRuleVerdict | engine/src/main/java/se/sics/sicsthsense/resources/coap/StreamCoapResource.java:74-101 | refuses with the messages, in order, of: a missing key, then each of user, resource, stream not numeric, then a wrong count (only with the size check) |
| StreamCoap.FourRulePassed | engine/src/main/java/se/sics/sicsthsense/resources/coap/StreamCoapResource.java:97-101 | without the size check, extra keys are accepted |
| StreamCoap.GetFourStreamParameters | engine/src/main/java/se/sics/sicsthsense/resources/coap/StreamCoapResource.java:67-102 | accepts exactly when the four keys are present with numeric ids, and, with the size check, when the key set is exactly those four |
| StreamCoap.GetThreeStreamParameters | engine/src/main/java/se/sics/sicsthsense/resources/coap/StreamCoapResource.java:104-133 | accepts exactly the key set {user, resource, key} with numeric user and resource |
| StreamCoap.RouteOneStream | engine/src/main/java/se/sics/sicsthsense/resources/coap/StreamCoapResource.java:138-145 | the four-item branch routes to one stream exactly when the getter (without the size check) accepts, with the parsed ids |
| StreamCoap.RouteResourceStreams | engine/src/main/java/se/sics/sicsthsense/resources/coap/StreamCoapResource.java:178-184 | the three-item branch routes to a resource's streams exactly when the three-key getter accepts |
| StreamCoap.HandleGet | engine/src/main/java/se/sics/sicsthsense/resources/coap/StreamCoapResource.java:136-210 | the item count decides the branch; any count other than 3 or 4 gives 4.02 "Not correct number of parameters" |
| StreamCoap.ReadableAntecedents | engine/src/main/java/se/sics/sicsthsense/resources/coap/StreamCoapResource.java:157-166 | keeps exactly the listed antecedents that exist and are readable with the key, and no others |
| StreamCoap.AllReadableKept | engine/src/main/java/se/sics/sicsthsense/resources/coap/StreamCoapResource.java:157-166 | when all are readable, nothing is dropped and the order is kept |
| StreamCoap.FilterTwice | engine/src/main/java/se/sics/sicsthsense/resources/coap/StreamCoapResource.java:157-166 | filtering is idempotent |
| StreamCoap.ReadableSplits | engine/src/main/java/se/sics/sicsthsense/resources/coap/StreamCoapResource.java:157-166 | the filter keeps order and works piece by piece: filtering a concatenation concatenates the filtered parts |
| StreamCoap.ReadableCounts | engine/src/main/java/se/sics/sicsthsense/resources/coap/StreamCoapResource.java:157-166 | an id that exists and is readable is kept as often as it is listed, any other id not at all |
| StreamCoap.StreamObject.AddReadableAntecedents | engine/src/main/java/se/sics/sicsthsense/resources/coap/StreamCoapResource.java:157-166 | the loop appends exactly ReadableAntecedents to the stream's own list |
| StreamCoap.DependentEdges | engine/src/main/java/se/sics/sicsthsense/resources/coap/StreamCoapResource.java:245-256 | one edge (antecedent, new stream) per antecedent, in order, and every one when none is null |
| StreamCoap.EdgesStopAtNull | engine/src/main/java/se/sics/sicsthsense/resources/coap/StreamCoapResource.java:251-254 | no edge is inserted at or after the first null antecedent |
| StreamCoap.EdgesCutAtNull | engine/src/main/java/se/sics/sicsthsense/resources/coap/StreamCoapResource.java:251-254 | the edges of the whole list are those of its part before the first null |
| StreamCoap.TriggersStopAtNull | engine/src/main/java/se/sics/sicsthsense/resources/coap/StreamCoapResource.java:257-262 | no trigger row at or after the first null trigger, where `getUrl()` throws |
| StreamCoap.TriggersCutAtNull | engine/src/main/java/se/sics/sicsthsense/resources/coap/StreamCoapResource.java:257-262 | the trigger rows of the whole list are those of its part before the first null |
| StreamCoap.TriggerRows | engine/src/main/java/se/sics/sicsthsense/resources/coap/StreamCoapResource.java:257-262 | one row on the new stream per trigger, with the trigger's url, operator, operand and payload, up to the first null trigger; all of them when none is null |
| StreamCoap.StreamStore.InsertStream | engine/src/main/java/se/sics/sicsthsense/resources/coap/StreamCoapResource.java:240-242 | the new stream is appended, takes the next id, and no edge or trigger changes |
| StreamCoap.StreamStore.InsertDependents | engine/src/main/java/se/sics/sicsthsense/resources/coap/StreamCoapResource.java:245-256 | appends DependentEdges and throws exactly when an antecedent is null; streams and triggers are unchanged |
| StreamCoap.StreamStore.InsertTriggers | engine/src/main/java/se/sics/sicsthsense/resources/coap/StreamCoapResource.java:257-262 | appends exactly TriggerRows, and throws exactly when a trigger is null, after the rows before it are in |
| StreamCoap.HandlePost | engine/src/main/java/se/sics/sicsthsense/resources/coap/StreamCoapResource.java:213-269 | the new stream gets the resource id and the query user as owner; it is stored even after a 4.03; its edges and then its triggers are written; a null antecedent throws after the earlier edges are in, and no trigger is written; a null trigger throws after the earlier triggers are in |
| StreamCoap.HandlePutOrDelete | engine/src/main/java/se/sics/sicsthsense/resources/coap/StreamCoapResource.java:272-279 | PUT and DELETE answer 4.03, which is not a success |
| StreamDataCoap.GetLongParameter | engine/src/main/java/se/sics/sicsthsense/resources/coap/StreamDataCoapResource.java:71-79 | -1 when the key is absent or not a long; otherwise the parsed long |
| StreamDataCoap.GetIntParameter | engine/src/main/java/se/sics/sicsthsense/resources/coap/StreamDataCoapResource.java:81-89 | -1 when the key is absent or not a 32-bit int; otherwise the parsed int |
| StreamDataCoap.LongParameterRoundTrip | engine/src/main/java/se/sics/sicsthsense/resources/coap/StreamDataCoapResource.java:71-79 | a long written into the query is read back |
| StreamDataCoap.IntParameterRoundTrip | engine/src/main/java/se/sics/sicsthsense/resources/coap/StreamDataCoapResource.java:81-89 | an int written into the query is read back |
| StreamDataCoap.PlanQuery | engine/src/main/java/se/sics/sicsthsense/resources/coap/StreamDataCoapResource.java:118-138 | from and until give a range; from alone gives since-with-limit or since; no from gives the latest `limit` points, 50 by default |
| StreamDataCoap.PlanIgnores | engine/src/main/java/se/sics/sicsthsense/resources/coap/StreamDataCoapResource.java:125-136 | with a range, the limit is ignored; without a start, the end is ignored |
| StreamDataCoap.Reversed | engine/src/main/java/se/sics/sicsthsense/resources/coap/StreamDataCoapResource.java:137 | the reversal has the same length, with element i taken from position length-1-i |
| StreamDataCoap.ReversedTwice | engine/src/main/java/se/sics/sicsthsense/resources/coap/StreamDataCoapResource.java:137 | reversing twice gives the list back |
| StreamDataCoap.ReversedSameElements | engine/src/main/java/se/sics/sicsthsense/resources/coap/StreamDataCoapResource.java:137 | reversing keeps the same elements with the same counts |
| StreamDataCoap.Reverse | engine/src/main/java/se/sics/sicsthsense/resources/coap/StreamDataCoapResource.java:137 | `Collections.reverse` in place on an array: the new contents are the reversal of the old |
| StreamDataCoap.ReadPoints | engine/src/main/java/se/sics/sicsthsense/resources/coap/StreamDataCoapResource.java:125-138 | only the latest-points read is reversed, which puts it oldest first |
| StreamDataCoap.HandleGet | engine/src/main/java/se/sics/sicsthsense/resources/coap/StreamDataCoapResource.java:92-150 | the four-key getter without the size check; the plan from limit / from / until; "csv" gives 4.00 "Can't parse data", anything else 2.05 with the points |
| StreamDataCoap.HandlePost | engine/src/main/java/se/sics/sicsthsense/resources/coap/StreamDataCoapResource.java:153-189 | exactly four keys; the posted point's stream id is overwritten with the named stream's; a failed insert gives 5.00, a good one 2.01 |
| StreamDataCoap.HandlePut | engine/src/main/java/se/sics/sicsthsense/resources/coap/StreamDataCoapResource.java:192-194 | PUT answers 4.03 |
| UserCoap.GetTwoParameters | engine/src/main/java/se/sics/sicsthsense/resources/coap/UserCoapResource.java:70-93 | accepts exactly the key set {user, key} with a numeric user |
| UserCoap.UserTable.UpdateUser | engine/src/main/java/se/sics/sicsthsense/resources/coap/UserCoapResource.java:178-184 | only username, first name, last name and email of that user's row change, so every row stays stored under its own id |
| UserCoap.HandlePut | engine/src/main/java/se/sics/sicsthsense/resources/coap/UserCoapResource.java:157-191 | a missing user or a null token throws; a token other than the key throws a FORBIDDEN WebApplicationException and changes nothing; otherwise `User.update` gets the body with its id forced to the query user, and the row of the merged user's id takes its four columns; when the merged user keeps the query id, no other row changes and the token stays; rows stay stored under their own ids |
| UserCoap.HandleDelete | engine/src/main/java/se/sics/sicsthsense/resources/coap/UserCoapResource.java:194-196 | DELETE answers 4.03 |
| Poller.SecureStep | engine/src/main/java/se/sics/sicsthsense/core/Poller.java:115-130 | the DTLS step only stops or opens sessions, and its null-pointer cases throw |
| Poller.SecureStepKeepsInvariant | engine/src/main/java/se/sics/sicsthsense/core/Poller.java:106-130 | when no exception is thrown, the secure client exists exactly when the new URI is coaps |
| Poller.SecureStepThrowLeavesStaleClient | engine/src/main/java/se/sics/sicsthsense/core/Poller.java:109-118 | a relative URI after a coaps one throws after `uriobj` is replaced, which leaves the old client set |
| Poller.SecureStepKeepsClient | engine/src/main/java/se/sics/sicsthsense/core/Poller.java:116-119 | coaps to coaps on the same host keeps the client and opens no session |
| Poller.SecureStepDropsClient | engine/src/main/java/se/sics/sicsthsense/core/Poller.java:116-124 | the client is stopped and dropped exactly when the old URI was coaps and the host or the scheme changed |
| Poller.SecureStepOpensClient | engine/src/main/java/se/sics/sicsthsense/core/Poller.java:127-130 | a coaps URI without a client gets a new one and a DTLS setup |
| Poller.SecureStepThrowsOnlyOnPartialUris | engine/src/main/java/se/sics/sicsthsense/core/Poller.java:116-127 | only a missing scheme, or a missing host next to coaps, throws |
| Poller.Attempts | engine/src/main/java/se/sics/sicsthsense/core/Poller.java:188-202 | one parse attempt per parser |
| Poller.AttemptsEveryParser | engine/src/main/java/se/sics/sicsthsense/core/Poller.java:188-202 | attempt i applies parser i to the data with the shared timestamp |
| Poller.MessageParts | engine/src/main/java/se/sics/sicsthsense/core/Poller.java:190-198 | one message per parser: "Parser succeeded: p\n", or "Parser failed: p Error:e" |
| Poller.AllParsed | engine/src/main/java/se/sics/sicsthsense/core/Poller.java:173-200 | the parse is successful exactly when no parser fails |
| Poller.MessagesInOrder | engine/src/main/java/se/sics/sicsthsense/core/Poller.java:188-202 | the messages of a list of parsers are those of its first part followed by those of the rest |
| Poller.PollMessage | engine/src/main/java/se/sics/sicsthsense/core/Poller.java:176-208 | the log message starts with the parser messages and adds at most 118 chars (the "Received data:" line with a synopsis of at most 100 chars) |
| Poller.ParserEffects | engine/src/main/java/se/sics/sicsthsense/core/Poller.java:186-209 | no parsers means no effect; otherwise one apply per parser, then one poll-log entry with isPoll true |
| Poller.RunParsers | engine/src/main/java/se/sics/sicsthsense/core/Poller.java:188-202 | the loop computes AllParsed, the concatenated messages and the attempts |
| Poller.PollUnit.constructor | engine/src/main/java/se/sics/sicsthsense/core/Poller.java:87-92 | the fields of a new poller: its resource id and URL, no URI, no client, no parsers, no effects |
| Poller.NewPoller | engine/src/main/java/se/sics/sicsthsense/core/Poller.java:87-94 | `new Poller` sets the fields and rebuilds at once; it throws (null) exactly when the stored URL parses to a URI without a scheme; otherwise the poller keeps its id, takes the stored URL, and for a parsed URI holds it, the stored parsers and, for coaps only, a new client with its DTLS setup; the secure-client invariant holds |
| Poller.PollUnit.Rebuild | engine/src/main/java/se/sics/sicsthsense/core/Poller.java:97-133 | a missing resource, a null or empty URL, or a bad URL leaves uriobj, client, parsers and effects alone; the url field takes the stored URL whenever the resource exists; otherwise uriobj is replaced, the DTLS step runs, and the parsers are reloaded unless it threw; the outcome names which case happened; the secure-client invariant is kept unless it threw |
| Poller.PollUnit.ApplyParsers | engine/src/main/java/se/sics/sicsthsense/core/Poller.java:172-210 | the parsers are reloaded and the effects grow by exactly ParserEffects |
| Poller.PollUnit.ReadLines | engine/src/main/java/se/sics/sicsthsense/core/Poller.java:233 | the HTTP body is the concatenation of its lines, without line terminators |
| Poller.PollUnit.CoapPoll | engine/src/main/java/se/sics/sicsthsense/core/Poller.java:249-275 | a CoAP answer records the poll and then applies the parsers to its text; no answer logs the failure text and the URL, with success false and isPoll true, and runs no parser |
| Poller.PollUnit.Probe | engine/src/main/java/se/sics/sicsthsense/core/Poller.java:221-276 | http(s) logs the poll and applies the parsers, or logs "Network problem: e URL: url"; coap and coaps do the same with their own messages; a null scheme, or coaps without a client, throws; no URI, or any other scheme, changes nothing |
| Poller.PollUnit.OnReceive | engine/src/main/java/se/sics/sicsthsense/core/Poller.java:213-281 | "rebuild" does exactly what Rebuild does with the stored resource, the URI parser and the stored parsers; other text does exactly what Probe does; any other message only goes to `unhandled`; the secure-client invariant holds whenever nothing threw |
| Poller.ValidProbeThrowsOnlyWithoutScheme | engine/src/main/java/se/sics/sicsthsense/core/Poller.java:222-264 | under the invariant, a probe can throw only on a URI without a scheme |
| ResourceLog.Clip | cloud/app/models/ResourceLog.java:247-273 | a clipped field is at most its limit and never longer than before |
| ResourceLog.ClipLeavesCleanFields | cloud/app/models/ResourceLog.java:247-273 | a trimmed field within its limit is unchanged |
| ResourceLog.ClipCutsLongFields | cloud/app/models/ResourceLog.java:248-249 | a field whose trimmed text is too long keeps its first limit-2 chars |
| ResourceLog.VerifiedIsBounded | cloud/app/models/ResourceLog.java:246-295 | after a `verify` that does not throw, every column fits its width |
| ResourceLog.VerifiedThrows | cloud/app/models/ResourceLog.java:275-284 | `verify` throws exactly on a null host, or on a method longer than 255 next to a body shorter than 253 |
| ResourceLog.VerifiedKeepsTheRest | cloud/app/models/ResourceLog.java:246-295 | `verify` changes no column but the six strings, and it only trims the method |
| ResourceLog.VerifiedLeavesCleanEntries | cloud/app/models/ResourceLog.java:246-295 | an entry already trimmed and within its widths comes through unchanged |
| ResourceLog.VerifiedLongMethodCutsBody | cloud/app/models/ResourceLog.java:282-287 | a method longer than 255 stays whole and the body is cut to 253 instead |
| ResourceLog.LogTable.GetByResource | cloud/app/models/ResourceLog.java:336-348 | a null resource gives null; otherwise a fresh copy of the row for that resource and direction, or null when there is none |
| ResourceLog.LogTable.DeleteByResource | cloud/app/models/ResourceLog.java:358-360 | both rows of the resource go, and nothing else changes; the next id never moves |
| ResourceLog.LogTable.CreateOrUpdate | cloud/app/models/ResourceLog.java:308-334 | a null resource gives null; a missing or zero creation time becomes now, in the argument too; an existing row takes every field but its id and the argument keeps its stamped fields; otherwise the log is saved under a new id, or, when verify throws, keeps its verified fields; a failed verify gives null and changes no row; the next id moves on by one exactly when a new log is saved |
| ResourceLog.Stamped | cloud/app/models/ResourceLog.java:311-313 | only a missing or zero creation time is replaced |
| ResourceLog.LogEntry.Verify | cloud/app/models/ResourceLog.java:246-295 | the method computes Verified |
| ResourceLog.LogEntry.Save | cloud/app/models/ResourceLog.java:297-300 | verify first; throws on a failed verify, a null resource, or a taken (resource, direction); otherwise the row is inserted under a new id |
| ResourceLog.LogEntry.Update | cloud/app/models/ResourceLog.java:302-305 | verify first; writes only the row this entry was loaded from |
| ResourceLog.LogEntry.UpdateResourceLog | cloud/app/models/ResourceLog.java:224-243 | copies every field but the id; persists and answers true only with an id |
| ResourceLog.LogEntry.UpdateParsedSuccessfully | cloud/app/models/ResourceLog.java:210-215 | sets the flag; with an id it updates, throwing exactly when verify throws, the resource is null or the row of its resource and direction is not this entry's, and otherwise writing the flag to that row |
| ResourceLog.LogEntry.UpdateMessages | cloud/app/models/ResourceLog.java:217-222 | sets the message; with an id it updates, throwing exactly when verify throws, the resource is null or the row of its resource and direction is not this entry's, and otherwise writing the message to that row |
| ResourceLog.LogEntry.SetCreationTimestamp | cloud/app/models/ResourceLog.java:190-193 | a non-positive time is replaced by now |
| ResourceLog.LogEntry.SetResponseTimestamp | cloud/app/models/ResourceLog.java:195-198 | a non-positive time is replaced by now |
| ResourceLog.Positive | cloud/app/models/ResourceLog.java:190-198 | the stored time is the given one if positive, else now, so it is positive whenever now is |
| ResourceLog.WithNewId | cloud/app/models/ResourceLog.java:321 | an entry without an id gets the generated one, and nothing else changes |
| ResourceLog.FromRequest | cloud/app/models/ResourceLog.java:124-150 | the whole new entry: no id, isPoll false, the resource and creation time, the request's body, method, host, uri and header text, and the defaults (empty message, parsedSuccessfully false, no response time) elsewhere |
| ResourceLog.FromResponse | cloud/app/models/ResourceLog.java:152-180 | the whole new entry: no id, isPoll true, the resource and both timestamps, the response's body, request method, host, uri and header text, and the defaults (empty message, parsedSuccessfully false) elsewhere |
| CtrlResource.JsonParsers | coap/app/controllers/CtrlResource.java:196-212 | every synthesised parser has type application/json and time format unix; its stream path is "/" + label + its input path; that path lies under the parents' path |
| CtrlResource.ParsersFollowLeaves | coap/app/controllers/CtrlResource.java:196-212 | exactly one parser per scalar leaf, in depth-first field order, reading that leaf's path |
| CtrlResource.NonObjectsGiveNothing | coap/app/controllers/CtrlResource.java:198 | a scalar or an array has no fields and gives no parser |
| CtrlResource.Skeleton.AddStreamParser | coap/app/controllers/CtrlResource.java:205-206 | the parser is appended after those already there |
| CtrlResource.ParseJsonNode | coap/app/controllers/CtrlResource.java:194-213 | the recursive walk appends exactly NodeParsers to the skeleton |
| CtrlResource.ParseJson | coap/app/controllers/CtrlResource.java:215-233 | malformed JSON adds nothing and raises nothing; otherwise the tree's parsers are added |
| CtrlResource.ParseHtml | coap/app/controllers/CtrlResource.java:235-248 | HTML gets one regex parser "(.*)" on "/" + label + "/regex1", text/html, "yy-mm-dd kk:mm:ss" |
| CtrlResource.ContentKindOf | coap/app/controllers/CtrlResource.java:172-175 | a type is JSON exactly when it starts with application/json or text/json; it is text exactly when it is not JSON and starts with text/html or text/plain |
| CtrlResource.Routed | coap/app/controllers/CtrlResource.java:172-183 | as written, only JSON parsers are ever added, and an unknown type adds nothing |
| CtrlResource.AutoParser | coap/app/controllers/CtrlResource.java:149-191 | a missing resource gets the error page; with a URL, a null content type throws and otherwise the parsers are Routed by content type; without a URL the parsers stay as they were |
| CtrlResource.HtmlGetsNoParser | coap/app/controllers/CtrlResource.java:175-177 | as written an HTML page gets no parser, where the intended routing gives it the regex parser |
| CtrlResource.RoutedIntended | coap/app/controllers/CtrlResource.java:572-573 | HTML and plain text get exactly the regex parser; other types are routed as written |
| CtrlResource.AutoParserIntended | coap/app/controllers/CtrlResource.java:149-191 | the same handler with HTML routed to `parseHTML` |
| CtrlResource.AddSimple | coap/app/controllers/CtrlResource.java:66-104 | a bind failure answers "Bad parsing of form" and form errors "Bad request"; a submitted resource is handed to `Resource.create` with no id, the current user as owner and polling period 0, its other fields kept; a null from `Resource.create` throws at the log line; otherwise, or with nothing submitted, the answer is the redirect |
| CtrlResource.SelectQuery | coap/app/controllers/CtrlResource.java:519-531 | all three negative is tail 1; otherwise tail wins over last and last over since, with the given value |
| CtrlResource.Timestamps | coap/app/controllers/CtrlResource.java:537-539 | one time entry per point, in order |
| CtrlResource.Values | coap/app/controllers/CtrlResource.java:540-542 | one value per point, in order |
| CtrlResource.GetData | coap/app/controllers/CtrlResource.java:511-545 | a null stream gives not found; an unreadable one gives unauthorized, "Private stream!"; otherwise one time per point read by SelectQuery, with the values only for a stream of doubles |
| Vfile.Cleaned | cloud/app/models/Vfile.java:163-165 | the cleaned path holds none of `: " * ? < > \| '` and is never longer |
| Vfile.CleanedSplits | cloud/app/models/Vfile.java:164 | cleaning works piece by piece, so the kept chars keep their order |
| Vfile.CleanPathUnchanged | cloud/app/models/Vfile.java:164 | a path with no forbidden char is unchanged |
| Vfile.CleanedIdempotent | cloud/app/models/Vfile.java:164 | cleaning is idempotent |
| Vfile.CleanedCounts | cloud/app/models/Vfile.java:164 | every forbidden char goes and every other keeps its count |
| Vfile.VirtualFile.constructor | cloud/app/models/Vfile.java:80-86 | a new file has no id and the given path, owner, type (possibly null) and link |
| Vfile.VirtualFile.Unlinked | cloud/app/models/Vfile.java:92-94 | the three-argument constructor leaves the link null |
| Vfile.VirtualFile.IsDir | cloud/app/models/Vfile.java:117-123 | a file is never both a file and a directory; with a type it is exactly one of them, with a null type neither |
| Vfile.VirtualFile.Verify | cloud/app/models/Vfile.java:163-165 | the path becomes Cleaned and nothing else changes |
| Vfile.FileStore.Insert | cloud/app/models/Vfile.java:44-46 | an insert is refused, changing nothing, exactly for a null owner or type or an owner and path already stored; otherwise the row is stored under the next id; the table invariant (own ids, unique owner and path) is kept |
| Vfile.FileStore.Change | cloud/app/models/Vfile.java:44-46 | an update is refused, changing nothing, exactly for a row without an id, with no stored row, with a null owner or type, or whose owner and path another row holds; otherwise it replaces its row; the table invariant is kept |
| Vfile.DuplicatePathRefused | cloud/app/models/Vfile.java:44-46 | once a row holds an owner and a path, another file of that owner whose path cleans to the same is refused |
| Vfile.VirtualFile.Save | cloud/app/models/Vfile.java:173-177 | verify runs first; a file without an id is inserted under the next id, a stored one updates its row; storage refuses a null owner or type, an owner and path another row holds, or an id with no row, and then nothing is stored; the table invariant is kept; the next id moves on by one exactly after an insert |
| Vfile.VirtualFile.Update | cloud/app/models/Vfile.java:167-171 | verify runs first; a file without an id, or one storage refuses, throws and changes no row; otherwise its row becomes the clean row; the table invariant is kept |
| Vfile.VirtualFile.SetLink | cloud/app/models/Vfile.java:151-156 | the link always changes; a file with an id is saved, and throws when storage refuses it; one without an id is not saved; the next id never moves |
| Vfile.Create | cloud/app/models/Vfile.java:96-103 | an ownerless file throws; otherwise it is saved, which throws when storage refuses it (null type, or the owner already has that path), and a new file gets the next id; the next id moves on by one exactly after an insert |
| DataPointString.PointTable.Insert | cloud/app/models/DataPointString.java:48-49 | at most one row per (stream, timestamp): a taken key throws and changes nothing |
| DataPointString.StringPoint.Add | cloud/app/models/DataPointString.java:57-85 | no stream or no data gives null and saves nothing; otherwise the save throws for an empty text or one over 160 chars, and for a taken (stream, timestamp), changing nothing; else the point is saved and returned; the data is never shortened |
| DataPointString.StringPoint.ToTsv | cloud/app/models/DataPointString.java:88-90 | the TSV line holds a tab |
| DataPointString.TsvSplits | cloud/app/models/DataPointString.java:88-90 | the line splits at its first tab into the timestamp, which parses back, and the data |
| Source.JavaDiv | proposed/app/models/Source.java:185 | Java's long division truncates toward zero: the remainder takes the sign of the dividend and is smaller than the divisor |
| Source.Source.constructor | proposed/app/models/Source.java:78-87 | a new source has lastPolled 0 and no id or token |
| Source.Source.OwnedBy | proposed/app/models/Source.java:212-214 | the field defaults: label "NewSource", period 0, lastPolled 0, no URL |
| Source.Source.Save | proposed/app/models/Source.java:229-232 | the row goes in under its own id or a fresh one; a taken id throws |
| Source.Source.Update | proposed/app/models/Source.java:72-74 | the stored row is rewritten; no id, or no row under it, throws and changes nothing |
| Source.Source.UpdateToken | proposed/app/models/Source.java:69-76 | the token is replaced; the row is rewritten only when id > 0; a null id throws |
| Source.Source.UpdateSource | proposed/app/models/Source.java:98-108 | copies label, period, lastPolled, URL and key and nothing else; the token is regenerated only when it is null or empty; the row is then rewritten; the next id never moves |
| Source.Source.Poll | proposed/app/models/Source.java:183-192 | as written, it polls exactly when lastPolled + period ≥ now (in seconds), and then sets lastPolled to now; otherwise nothing changes |
| Source.OverdueNeverPolled | proposed/app/models/Source.java:186-188 | as written, an overdue source is refused at every later time |
| Source.PollRefusesOverdue | proposed/app/models/Source.java:186-188 | a source polled at 0 with a 10 s period is refused at 100 s |
| Source.Source.PollIntended | proposed/app/models/Source.java:183-192 | the intended poll fires exactly when the period has run out |
| Source.DueAfterPeriod | proposed/app/models/Source.java:183-192 | after an intended poll, the source is due again exactly when the period has passed |
| Source.Create | proposed/app/models/Source.java:229-236 | an ownerless source gives null; otherwise the save throws exactly when its id is already stored, changing nothing; else it is saved under its id or a fresh one and then given its token; the next id moves as that save moves it |
| Source.GetOwned | proposed/app/models/Source.java:205-210 | the source is returned exactly when it exists and its owner is the user; a stored source without an owner throws |

## Left out

- The network, DTLS and cryptography are left out. HTTP and CoAP fetches are given as success (the body) or failure. `setDTLS` is the `OpenSession` effect. The MD5 hashing in the user POST is not modelled.
- Akka delivery and scheduling are left out. `onReceive` is a sequential method call. `@Version` optimistic locking is not modelled.
- JSON (Jackson) parsing and serialisation are left out. JSON arrives as an already parsed tree or as `Option`.
- Dates are left out. The `timestamp` and `responseTime` strings use `Date.toString` and `Utils.timeStr`, and are not modelled. The wall clock is a parameter, and so is the random UUID token.
- Poller.PollUnit.ApplyParsers: the two clock reads in `applyParsers` (lines 182 and 208) are one `now`.
- Poller.PollUnit.ApplyParsers: the `toUpdate` notification loop is left out. Nothing fills its set, so it never runs.
- Poller: the engine's `ResourceLog.createOrUpdate(storage, id)` and `rl.update(...)` are not the cloud `ResourceLog`, and their code is not part of this model. They are the `PollLog` effect.
- UserCoap.HandlePut: `User.update` is not part of this model, so nothing proves that the merged user keeps the query user's id. The row written is the one with the merged user's id. Only when that id is the query user's is it proved that no other row changes.
- Code that is not part of this model is left out: `ParseData.apply`, `Utils.*`, `StorageDAO`, `ResourceHub`, `SkeletonResource`, `Resource.create` and `User.update`. Their results are parameters. The skeleton's initial parsers and label are constructor arguments.
- The CoAP handlers answer and then keep going (for example ResourceCoapResource.java:149-161). Only the documented decisions are modelled, not the several responses. The storage lookups after the parameter checks are not modelled either.
- Whole handlers left out: the StreamDataCoap DELETE, the user GET and POST, the resource PUT and DELETE, and `CtrlResource.modify`. They are outside the modelled core.
- ResourceLog.Clip: lengths and cuts count Unicode characters, where Java's `length()` and `substring` count UTF-16 code units. Text outside the Basic Multilingual Plane counts two units in Java and one character here, so it is clipped later than Java clips it. A cut that splits a surrogate pair cannot be represented.
- ResourceLog.VerifiedThrows: the 255 and 253 thresholds on the method and the body count Unicode characters, not UTF-16 code units, as for Clip.
- DataPointString.StringPoint.Add: the 1 to 160 length rule counts Unicode characters, not UTF-16 code units, so text outside the Basic Multilingual Plane can pass here and be refused by Java.
- JavaText.Prefix: the 100-character synopsis counts Unicode characters, not UTF-16 code units, as for Clip.
- JavaText.ParseLong: accepts only ASCII digits. `Long.parseLong` also accepts other Unicode decimal digits.
- JavaText.ParseInt: accepts only ASCII digits, as ParseLong does. `Integer.parseInt` also accepts other Unicode decimal digits.
- `Source.checkToken` and `get(id, key)` compare strings with Java `==`, which is identity, not value. They cannot be stated faithfully on values and are not modelled.
- Integer widths: Java `long` arithmetic is unbounded in the model. This affects the overflow of `lastPolled + pollingPeriod` in `Source.poll`. The parsers still check the 32-bit and 64-bit ranges.
- ResourceLog.LogEntry.Update: the row is located by its resource and direction, the table's key, and must carry the entry's id. Ebean's `update` writes by id alone, so an entry whose resource or direction changed after loading would be written there but is refused here. No modelled caller changes those fields.
- Vfile: a null path is not modelled, so `verify` on one would throw.
- Vfile.VirtualFile.Save: Ebean decides between an insert and an update by the bean's state. The model reads a file without an id as new and one with an id as loaded from storage. An update that matches no row counts as refused, as Ebean's row-count check reports it. `getName` and `getParentPath` use scalax `Path`, and are not modelled.
- ResourceLog: null string columns other than `host` are not modelled. On those, `trim` would throw.
- DataPointString: the timestamp is a plain number. A null boxed timestamp is not modelled.
- CtrlResource.GetData: the boxed `Long` arguments are never null in the model.
- CtrlResource.AutoParser: an exception while fetching the probe response is not modelled. A null current user at the final render is not modelled either.

## Findings

| source | as written | input that shows it | evidently intended | confidence | as-written member | corrected member |
|---|---|---|---|---|---|---|
| coap/app/controllers/CtrlResource.java:175-177 | a `text/html` or `text/plain` response goes to `parseJson` | content type "text/html" with the body "&lt;html&gt;&lt;/html&gt;", which is not JSON: no parser is added | `parseHTML`, which adds the regex parser: the log line says "html file!", and the retired `initialise` (lines 551-579) routes HTML there | medium, not executed | CtrlResource.Routed, CtrlResource.AutoParser, CtrlResource.HtmlGetsNoParser | CtrlResource.RoutedIntended, CtrlResource.AutoParserIntended |
| proposed/app/models/Source.java:186-188 | returns false ("dont poll yet") when lastPolled + period < now, that is, once the period HAS run out | lastPolled 0, period 10, now 100 s: refused; since lastPolled never moves, the source is never polled again | poll once lastPolled + period ≤ now, and refuse before | high, not executed | Source.Source.Poll, Source.OverdueNeverPolled, Source.PollRefusesOverdue | Source.Source.PollIntended, Source.DueAfterPeriod |
