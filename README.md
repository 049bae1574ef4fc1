# Cash-card service and gRPC gateway readers, in Dafny

This project models two parts of the CashCard microservice.

The first is the REST service for cash cards:

- the `CashCard` entity;
- the five handlers of `CashCardController`: find one, list a page, create, update and delete;
- the access decision that `SecurityConfig` sets up in front of them.

Every handler looks a card up by id *and* by the caller's name. A card that belongs to someone else therefore behaves exactly like a card that does not exist. The listing returns one page of the caller's cards, sorted by the requested order or, when none is given, by amount ascending. The controller's table keeps a `Stored` value (amount and owner) under each id, and the handlers return `Card` values. A `Card` is the value of a `CashCard` entity whose three fields are all non-null. The `CashCard` class models the entity itself, with its nullable fields. The security filter chain does the following:

- It checks HTTP Basic credentials against three fixed principals: felix/abc123 (CARD-OWNER), user-owns-no-cards/qrs456 (NON-OWNER) and kumar2/xyz789 (CARD-OWNER).
- It leaves `/h2-console/**` open to everyone.
- It lets only a CARD-OWNER reach `/cashcards/**`.

The second is the pair of `.proto` readers of the gRPC-to-REST gateway generator: `parse_proto` with `capitalize` in Python, and `parseProto` with its `capitalize` helper in JavaScript. Both read a file line by line:

- A `service` line opens a new current service.
- An `rpc` line adds a POST method with an empty path to that service.
- An `option (google.api.http) = {` line rewrites the verb, path and path parameter of the current service's last method from the block that follows.

The two readers differ in which lines of that block they read. The Python reader reads every line before the first line holding `}`. The JavaScript reader reads only that closing line, and fails with a TypeError when there is none.

Modules:

- `JavaDecimal`: decimal text of a Java `long`, as printed by `toString`, and its inverse.
- `CashCardEntity`: the entity as a class with nullable fields; `toString` and what it can be read back to.
- `CashCardListing`: the table, the owner-scoped listing, sorting and paging.
- `CashCardController`: the controller as a class over the table, with the five handlers as methods.
- `SecurityConfig`: the principal table and the access decision, as pure functions.
- `CashCardApi`: a request end to end, with the gate first and then the handler.
- `CashCardScenarios`: the seeded data of the integration scenarios, stated as lemmas, and each request scenario as a method on a fresh controller over that data.
- `ProtoPatterns`: the regular expressions of both readers, and the service and method records they build.
- `PythonProtoParser`, `NodeProtoParser`: the two readers, each as a loop method proved against a function of the lines read so far.
- `ProtoLineShapes`: lines in the usual layout are recognised with the names they spell.
- `ProtoSample`: a two-rpc gateway file and what each reader makes of it.

## Model

| member | source | states |
|---|---|---|
| CashCardController.CashCardController.constructor | cashcard/src/main/java/backend/cashcard/controller/CashCardController.java:28-30 | the controller starts over exactly the given repository rows |
| CashCardController.CashCardController.FindByIdAndOwner | cashcard/src/main/java/backend/cashcard/controller/CashCardController.java:42 | a card is found exactly when the id exists and the caller owns it, and it is that row's id, amount and owner |
| CashCardController.CashCardController.FindById | cashcard/src/main/java/backend/cashcard/controller/CashCardController.java:42-48 | 200 with the stored card when the caller owns the id; otherwise 404 with no body |
| CashCardController.CashCardController.FindAll | cashcard/src/main/java/backend/cashcard/controller/CashCardController.java:73-81 | 200 with one page of the caller's listing in the effective order; the page is sorted, at most `size` long, and holds only cards the caller owns, with their stored amounts |
| CashCardController.CashCardController.CreateCashCard | cashcard/src/main/java/backend/cashcard/controller/CashCardController.java:85-95 | the row under the body's id becomes the body's amount with the caller as owner; 201 with location `cashcards/{id}` |
| CashCardController.CashCardController.PutCashCard | cashcard/src/main/java/backend/cashcard/controller/CashCardController.java:99-105 | an owned card gets the new amount, and its id and owner are kept, with 204; otherwise 404 and the table is unchanged; no owner changes and no other row changes |
| CashCardController.CashCardController.DeleteCashCard | cashcard/src/main/java/backend/cashcard/controller/CashCardController.java:109-115 | an owned card is removed with 204; otherwise 404 and the table is unchanged; every other row is kept |
| CashCardController.LocationRoundTrip | cashcard/src/main/java/backend/cashcard/controller/CashCardController.java:89-92 | reading the id back from a created card's location gives the id that was saved |
| CashCardController.CreateOverExistingIdChangesOwner | cashcard/src/main/java/backend/cashcard/controller/CashCardController.java:86-88 | creating under an id that another caller's card uses takes that card over: its owner changes |
| CashCardController.ForeignCardLooksAbsent | cashcard/src/main/java/backend/cashcard/controller/CashCardController.java:42-47 | a card of another owner under an id leaves the caller's view exactly as if there were no card under that id |
| CashCardListing.EffectiveOrder | cashcard/src/main/java/backend/cashcard/controller/CashCardController.java:78 | the requested sort when there is one; otherwise amount ascending |
| CashCardListing.OwnedView | cashcard/src/main/java/backend/cashcard/controller/CashCardController.java:73-74 | the caller's view holds exactly the ids the caller owns, with their rows |
| CashCardListing.AscendingIds | cashcard/src/main/java/backend/cashcard/controller/CashCardController.java:73 | the ids of a set, each exactly once, strictly increasing |
| CashCardListing.SortCards | cashcard/src/main/java/backend/cashcard/controller/CashCardController.java:78 | the result is sorted by the order and is a permutation of the input |
| CashCardListing.ListingIsSortedOwnedCards | cashcard/src/main/java/backend/cashcard/controller/CashCardController.java:73-80 | a listing is sorted, and as a multiset it equals the caller's cards; a card is in it exactly when it is the caller's stored card |
| CashCardListing.ListingSeesOnlyOwnedView | cashcard/src/main/java/backend/cashcard/controller/CashCardController.java:73-74 | the listing depends only on the cards the caller owns |
| CashCardListing.PagesCoverListing | cashcard/src/main/java/backend/cashcard/controller/CashCardController.java:75-77 | card `k` of the listing is at position `k % size` of page `k / size` |
| CashCardListing.PageIsSortedSlice | cashcard/src/main/java/backend/cashcard/controller/CashCardController.java:75-81 | a page of a sorted listing is sorted, at most `size` long, and holds only cards of the listing |
| CashCardEntity.CashCard.constructor | cashcard/src/main/java/backend/cashcard/entity/CashCard.java:17-21 | the three fields hold exactly the arguments |
| CashCardEntity.CashCard.WithoutOwner | cashcard/src/main/java/backend/cashcard/entity/CashCard.java:12-15 | id and amount as given; the owner stays null |
| CashCardEntity.CashCard.Empty | cashcard/src/main/java/backend/cashcard/entity/CashCard.java:31-32 | all three fields null |
| CashCardEntity.CashCard.SetId | cashcard/src/main/java/backend/cashcard/entity/CashCard.java:46-48 | the getter then returns the new id, and the other two fields are kept |
| CashCardEntity.CashCard.SetAmount | cashcard/src/main/java/backend/cashcard/entity/CashCard.java:54-56 | the getter then returns the new amount, and the other two fields are kept |
| CashCardEntity.CashCard.SetOwner | cashcard/src/main/java/backend/cashcard/entity/CashCard.java:27-29 | the getter then returns the new owner, and the other two fields are kept |
| CashCardEntity.CashCard.ToString | cashcard/src/main/java/backend/cashcard/entity/CashCard.java:38-44 | the text starts `CashCard{id=` and ends with `}`, and it reads back to exactly the id and the amount |
| CashCardEntity.ShowNullableRoundTrip | cashcard/src/main/java/backend/cashcard/entity/CashCard.java:41-42 | the text of a nullable number, `null` or its decimal digits, reads back to that number |
| CashCardEntity.DescriptionRoundTrip | cashcard/src/main/java/backend/cashcard/entity/CashCard.java:39-44 | reading the description back gives exactly the id and the amount |
| JavaDecimal.LongToString | cashcard/src/main/java/backend/cashcard/entity/CashCard.java:41 | the text is non-empty, starts with `-` exactly for negative values, and has only digits after that |
| JavaDecimal.LongRoundTrip | cashcard/src/main/java/backend/cashcard/entity/CashCard.java:41 | parsing the printed id gives the id back |
| JavaDecimal.LongToStringInjective | cashcard/src/main/java/backend/cashcard/entity/CashCard.java:41 | two ids that print the same are equal |
| SecurityConfig.FindUser | cashcard/src/main/java/backend/cashcard/security/SecurityConfig.java:67 | a found user is in the store under that name; none is found exactly when no entry has the name |
| SecurityConfig.Authenticate | cashcard/src/main/java/backend/cashcard/security/SecurityConfig.java:35 | a principal is returned only when it is registered with that name and password |
| SecurityConfig.StatusOf | cashcard/src/main/java/backend/cashcard/security/SecurityConfig.java:30-35 | a refusal is answered with 401 or 403 |
| SecurityConfig.PrincipalTableIsExact | cashcard/src/main/java/backend/cashcard/security/SecurityConfig.java:49-65 | exactly the three name and password pairs authenticate, and only user-owns-no-cards has the role NON-OWNER |
| SecurityConfig.BadCredentialsAreUnauthorized | cashcard/src/main/java/backend/cashcard/security/SecurityConfig.java:35 | credentials matching no principal get 401 on every path |
| SecurityConfig.H2ConsoleIsOpen | cashcard/src/main/java/backend/cashcard/security/SecurityConfig.java:31 | anything under `/h2-console` is let through without credentials |
| SecurityConfig.CardPathsAreCashCardPaths | cashcard/src/main/java/backend/cashcard/security/SecurityConfig.java:32 | `/cashcards/{id}` falls under `/cashcards/**` and not under `/h2-console/**` |
| SecurityConfig.CashCardsNeedCardOwner | cashcard/src/main/java/backend/cashcard/security/SecurityConfig.java:32 | under `/cashcards` a request gets through exactly for a CARD-OWNER, under that user's name; other valid users get 403, anything else 401 |
| SecurityConfig.GateIgnoresCardId | cashcard/src/main/java/backend/cashcard/security/SecurityConfig.java:32 | the decision for `/cashcards/{id}` does not depend on the id |
| SecurityConfig.NonOwnerIsForbidden | cashcard/src/main/java/backend/cashcard/security/SecurityConfig.java:55-59 | user-owns-no-cards with the right password gets 403 on every card path |
| CashCardApi.CallsAreCashCardPaths | cashcard/src/main/java/backend/cashcard/controller/CashCardController.java:19 | every endpoint's path falls under `/cashcards/**` |
| CashCardApi.Handle | cashcard/src/main/java/backend/cashcard/security/SecurityConfig.java:28-38 | a refused request changes nothing and gets 403 for a valid non-owner, 401 otherwise. For a CARD-OWNER: GET gives 200 with the caller's stored card or 404 with none, and changes nothing. The listing gives 200 with the page of the caller's listing, and changes nothing. POST gives 201 with location `cashcards/{id}` and stores the card under the caller. PUT and DELETE on an owned card give 204 and store the new amount or remove the row; on any other id they give 404 and change nothing |
| CashCardApi.GateTests | cashcard/src/test/java/backend/cashcard/CashcardApplicationTests.java:181-212 | through the gate and the handler, an unknown user and a wrong password get 401, the valid NON-OWNER gets 403, and felix reading kumar2's card gets 404 |
| CashCardScenarios.ReadScenarios | cashcard/src/test/java/backend/cashcard/CashcardApplicationTests.java:51-83 | felix reads card 99 as id 99 with 123.45; the unknown id 1000 gives 404 with no body |
| CashCardScenarios.CreateScenario | cashcard/src/test/java/backend/cashcard/CashcardApplicationTests.java:85-109 | creating card 33 with 250.00 gives 201, and reading the returned location gives 200 with that card |
| CashCardScenarios.UpdateScenario | cashcard/src/test/java/backend/cashcard/CashcardApplicationTests.java:214-240 | updating card 99 to 19.99 gives 204, and reading it back gives 200 with id 99 and 19.99 |
| CashCardScenarios.RejectedUpdateScenarios | cashcard/src/test/java/backend/cashcard/CashcardApplicationTests.java:242-265 | updates of the unknown id 99999 and of kumar2's card 102 give 404 and leave the seeded table unchanged |
| CashCardScenarios.DeleteScenario | cashcard/src/test/java/backend/cashcard/CashcardApplicationTests.java:267-281 | deleting card 99 gives 204, and reading it afterwards gives 404 |
| CashCardScenarios.RejectedDeleteScenarios | cashcard/src/test/java/backend/cashcard/CashcardApplicationTests.java:283-306 | deletes of the unknown id 99999 and of kumar2's card 102 give 404, and kumar2 still reads card 102 with 200.00 |
| CashCardScenarios.FelixOwnsThreeCards | cashcard/src/test/java/backend/cashcard/CashcardApplicationTests.java:111-127 | in the seeded table felix owns exactly cards 99, 100 and 101 |
| CashCardScenarios.LargestAmountComesFirstDescending | cashcard/src/test/java/backend/cashcard/CashcardApplicationTests.java:143-164 | page 0 of size 1, sorted by amount descending, holds only the 150.00 card |
| CashCardScenarios.DefaultListingIsAscendingByAmount | cashcard/src/test/java/backend/cashcard/CashcardApplicationTests.java:166-179 | with no parameters felix's cards come in the order 1.00, 123.45, 150.00 |
| ProtoPatterns.MatchService | gRPC_gateway/script.py:53 | a match starts with `service` after leading white space, and the captured name is a word |
| ProtoPatterns.MatchRpc | gRPC_gateway/script.py:62 | a match starts with `rpc` after leading white space, and the name and both message types are words |
| ProtoPatterns.VerbAt | gRPC_gateway/script.js:78 | a matched verb is one of the four, spelled at that position up to ASCII case when caseless |
| ProtoPatterns.VerbName | gRPC_gateway/script.py:85 | the upper-cased verb is GET, POST, PUT or DELETE |
| ProtoPatterns.VerbNameUpperCases | gRPC_gateway/script.py:85 | the verb's name has the matched verb's length, and each of its characters is the ASCII upper case of the matched one |
| ProtoPatterns.QuotedPath | gRPC_gateway/script.py:83 | a quoted path is never empty |
| ProtoPatterns.RuleAt | gRPC_gateway/script.py:83 | a rule has an upper-case verb and a non-empty path |
| ProtoPatterns.SearchRuleFrom | gRPC_gateway/script.js:78 | the leftmost rule found has an upper-case verb and a non-empty path |
| ProtoPatterns.SearchRuleTriesInOrder | gRPC_gateway/script.js:78 | the search is the first rule found when the positions from the start are tried one by one, in order |
| ProtoPatterns.SearchRuleMissesNothing | gRPC_gateway/script.js:78 | when the search finds no rule, no position from the start on begins one |
| ProtoPatterns.SearchRuleIsLeftmost | gRPC_gateway/script.js:78 | a rule the search finds is the one at some position from the start on, and no earlier position begins a rule |
| ProtoPatterns.SearchParam | gRPC_gateway/script.js:82 | a path parameter is a word, and only a path holding `}` has one |
| ProtoPatterns.SearchParamTriesInOrder | gRPC_gateway/script.js:82 | the search is the first `{word}` name found when the positions from the start are tried one by one, in order |
| ProtoPatterns.SearchParamMissesNothing | gRPC_gateway/script.js:82 | when the search from a position finds no parameter, no `{word}` starts at or after it |
| ProtoPatterns.SearchParamIsLeftmost | gRPC_gateway/script.js:82 | a name the search from a position finds is the word of a `{word}` at or after it, and no `{word}` starts earlier |
| ProtoPatterns.SearchParamIsFirst | gRPC_gateway/script.py:89 | a path has a parameter exactly when it holds a `{word}`, and the parameter is the word of the first one |
| ProtoPatterns.FirstIndex | gRPC_gateway/script.py:80 | the index of a line holding exactly that text |
| ProtoPatterns.FirstIndexIsFirst | gRPC_gateway/script.js:75 | no earlier line holds that text |
| ProtoPatterns.RepeatedLineIndex | gRPC_gateway/script.py:80 | a line whose text occurred earlier is looked up at that earlier occurrence or before |
| ProtoPatterns.ApplyRule | gRPC_gateway/script.py:85-91 | the rule's verb and path replace the method's, the name and types are kept, and the parameter becomes the path's first `{name}` when there is one |
| ProtoPatterns.AddMethod | gRPC_gateway/script.py:72 | the method is appended to the last service, and every other service is kept |
| ProtoPatterns.ReplaceLastMethod | gRPC_gateway/script.py:77 | only the last method of the last service is replaced |
| ProtoPatterns.CheckService | gRPC_gateway/script.py:53-59 | a service line appends a new empty service; any other line changes nothing |
| ProtoPatterns.CheckRpc | gRPC_gateway/script.py:62-72 | an rpc line under a service appends a POST method with an empty path and no parameter |
| ProtoPatterns.AddServiceKeepsOrder | gRPC_gateway/script.py:55-59 | a new service adds its name at the end and no method header |
| ProtoPatterns.AddMethodKeepsOrder | gRPC_gateway/script.py:72 | a new method adds its header at the end and no service name |
| ProtoPatterns.ReplaceLastMethodKeepsOrder | gRPC_gateway/script.py:77-86 | rewriting the last method keeps every service name and method header |
| ProtoPatterns.ChecksKeepOrder | gRPC_gateway/script.py:53-72 | the service and rpc checks of a line append its service name and, under a service, its rpc header |
| ProtoPatterns.LineKindsAreExclusive | gRPC_gateway/script.py:53-75 | a line opens at most one of a service, an rpc and an option block |
| ProtoPatterns.UpperChar | gRPC_gateway/script.py:41 | a lower-case ASCII letter becomes its capital, 32 code points lower; every other character is kept; the result is never lower case |
| ProtoPatterns.LowerChar | gRPC_gateway/script.js:78 | a capital ASCII letter becomes its lower-case letter, 32 code points higher; every other character is kept; the result is never a capital |
| ProtoPatterns.CasingsAgree | gRPC_gateway/script.py:41 | upper-casing keeps a character's letter up to case; lower-casing an upper-cased lower-case letter gives it back, and the reverse |
| PythonProtoParser.Capitalize | gRPC_gateway/script.py:40-41 | the empty string raises an error; otherwise the length and the rest are kept, and the first character is the same letter up to ASCII case and not lower case |
| PythonProtoParser.BlockEnd | gRPC_gateway/script.py:80-82 | the first line holding `}` at or after the start, or the end of the file |
| PythonProtoParser.ScanOptionBlock | gRPC_gateway/script.py:80-91 | scanning a block keeps the method's name and message types |
| PythonProtoParser.ScanBlock | gRPC_gateway/script.py:80-91 | the inner loop computes the block scan |
| PythonProtoParser.CheckOption | gRPC_gateway/script.py:75-91 | the option check of the loop body |
| PythonProtoParser.ParseLine | gRPC_gateway/script.py:51-91 | one pass of the loop body is the three checks in order |
| PythonProtoParser.ParseProto | gRPC_gateway/script.py:43-92 | the services after all lines; their names are those of the service lines in file order; their method headers are those of the rpc lines after the first service line, in order; no method has a parameter |
| PythonProtoParser.ServiceLineOpensService | gRPC_gateway/script.py:53-59 | a service line appends a new empty current service |
| PythonProtoParser.RpcLineAddsPostMethod | gRPC_gateway/script.py:62-72 | an rpc line appends a POST method with an empty path under the current service, and is ignored before any service |
| PythonProtoParser.OptionLineTouchesOnlyLastMethod | gRPC_gateway/script.py:75-77 | an option line changes only the last method, keeping its name and types, and changes nothing without a current method |
| PythonProtoParser.StepKeepsOrder | gRPC_gateway/script.py:51-91 | each pass appends at most its own line's service name and rpc header |
| PythonProtoParser.ParseKeepsFileOrder | gRPC_gateway/script.py:51-92 | after any prefix of the lines, the names and headers are those of that prefix's lines in order |
| PythonProtoParser.RuleWithoutBraceHasNoParam | gRPC_gateway/script.py:81-91 | a rule line without `}` never yields a parameter |
| PythonProtoParser.ScanNeverSetsParam | gRPC_gateway/script.py:80-91 | the block scan never sets a parameter, and every verb it sets is one of the four |
| PythonProtoParser.StepKeepsPythonMethods | gRPC_gateway/script.py:51-91 | each pass keeps every method with a known verb and no parameter |
| PythonProtoParser.ScanTakesLastRule | gRPC_gateway/script.py:80-86 | the verb and path a block leaves are those of its last rule line before the first line holding `}`; without one the method is unchanged |
| PythonProtoParser.ScanOptionBlockIntended | gRPC_gateway/script.py:80-91 | the corrected scan also keeps the name and message types |
| PythonProtoParser.IntendedScanTakesLastRule | gRPC_gateway/script.py:80-86 | with the closing check after the rule check, the verb and path come from the last rule line of the block, counting the closing line |
| NodeProtoParser.Capitalize | gRPC_gateway/script.js:39-41 | the length is kept and the empty string stays empty; otherwise the rest is kept, and the first character is the same letter up to ASCII case and not lower case |
| NodeProtoParser.ClosingLine | gRPC_gateway/script.js:74-76 | a found line is at or after the start and holds `}` |
| NodeProtoParser.ClosingLineFound | gRPC_gateway/script.js:74-76 | when a line holding `}` follows, one at or before it is found |
| NodeProtoParser.ClosingLineMissing | gRPC_gateway/script.js:74-76 | when none is found, no line from the start on holds `}` |
| NodeProtoParser.ReadOptionBlock | gRPC_gateway/script.js:74-86 | the TypeError happens exactly when no line holds `}`; otherwise the name and types are kept and a well-formed method stays well formed |
| NodeProtoParser.ReadBlock | gRPC_gateway/script.js:73-86 | the option check's body computes the block read |
| NodeProtoParser.CheckOption | gRPC_gateway/script.js:71-87 | the option check of the callback |
| NodeProtoParser.ParseLine | gRPC_gateway/script.js:51-88 | one callback is the three checks in order |
| NodeProtoParser.ParseProto | gRPC_gateway/script.js:44-91 | the parse result; on success the names and headers follow file order and every method is well formed; on failure the failing line is an option line with no `}` after its text's first occurrence |
| NodeProtoParser.ErrorEndsParse | gRPC_gateway/script.js:51-88 | once a TypeError is raised, the parse result is that error |
| NodeProtoParser.FailedPassEndsParse | gRPC_gateway/script.js:74-78 | a failing pass is an option line with no `}` after its text's first occurrence, and ends the parse with that error |
| NodeProtoParser.StepFailure | gRPC_gateway/script.js:71-78 | a pass fails only on an option line whose block has no line holding `}` |
| NodeProtoParser.StepKeepsOrder | gRPC_gateway/script.js:51-88 | each successful pass appends at most its own line's service name and rpc header |
| NodeProtoParser.StepKeepsWellFormed | gRPC_gateway/script.js:51-88 | each pass keeps every method with a known verb and a word, if any, as parameter |
| NodeProtoParser.RepeatedOptionLineReadsEarlierBlock | gRPC_gateway/script.js:74-76 | a repeated option line reads the closing line of its first occurrence's block, which comes before itself |
| NodeProtoParser.OwnLineReadsNextClosingLine | gRPC_gateway/script.js:74-76 | looked up from its own position, an option line reads the first line holding `}` after itself |
| ProtoLineShapes.ServiceLineRecognised | gRPC_gateway/script.py:53 | an indented `service Name {` line opens the service `Name` |
| ProtoLineShapes.RpcLineRecognised | gRPC_gateway/script.py:62 | an indented `rpc Name(Req) returns (Resp) {` line gives that name and those two types |
| ProtoLineShapes.OptionLineRecognised | gRPC_gateway/script.py:75 | an indented `option (google.api.http) = {` line is an option line |
| ProtoLineShapes.OtherLineIgnored | gRPC_gateway/script.py:53-75 | a line whose first word starts with a letter other than s, r or o is none of the three kinds |
| ProtoLineShapes.RuleLineRecognised | gRPC_gateway/script.py:83 | `verb: "path"` after white space gives the upper-cased verb and the path, in either case mode |
| ProtoLineShapes.RuleLineFound | gRPC_gateway/script.js:78 | the unanchored caseless search finds the rule of an indented rule line |
| ProtoLineShapes.NoVerbLetterNoRule | gRPC_gateway/script.js:78 | a line where no letter could start a verb holds no rule |
| ProtoSample.PythonSkipsFirstBlock | gRPC_gateway/script.py:80-82 | the first option block of the sample changes nothing, because its first line holds `}` |
| ProtoSample.PythonParsesSample | gRPC_gateway/script.py:51-92 | on the sample, both methods stay POST with an empty path |
| ProtoSample.PythonScanOfFirstBlock | gRPC_gateway/script.py:80-91 | the scan as written leaves the first method untouched; the corrected scan gives it GET `/users/{id}` with parameter `id` |
| ProtoSample.NodeReadsFirstBlock | gRPC_gateway/script.js:71-86 | the first option line gives the first method GET `/users/{id}` with parameter `id` |
| ProtoSample.NodeReadsSecondBlock | gRPC_gateway/script.js:74-76 | on the sample, the second option line is sent to the first block, so the second method takes GET `/users/{id}` with parameter `id` |
| ProtoSample.NodeParsesSample | gRPC_gateway/generated_rest_classes/UserServiceRest.java:16-31 | on the sample, the second method too gets GET `/users/{id}` with parameter `id`: the first block's route |
| ProtoSample.SecondBlockOwnLine | gRPC_gateway/script.js:74-76 | read from after itself, the second option line reads line 10, `};`, which holds no rule |
| ProtoSample.NodeOwnLineParsesSample | gRPC_gateway/script.js:74-76 | with the lookup by position, the second method keeps POST and the empty path |
| ProtoSample.SampleResults | gRPC_gateway/script.js:51-88 | the three results on the sample, at any indentation |

## Left out

- Amounts are whole numbers of cents, not `Double`: no rounding, and `Double`'s decimal printing is not modelled. `toString` prints the amount like a `long`.
- Ids are unbounded integers, and a `long` overflow is not modelled. `CreateCashCard` takes the id from the request body. A body without an id is not modelled: the entity's `@Id` has no generator, so `save` rejects a null id and the request fails with a server error.
- CashCardController.CashCardController.CreateCashCard: a body without `amount` is not modelled. The source stores a null amount. The model's request amount is always a number.
- CashCardController.CashCardController.PutCashCard: a body without `amount` is not modelled. The source stores a null amount; the model's request amount is always a number.
- CashCardListing.EffectiveOrder: the `sort` parameter is narrowed to one key, `id` or `amount`, ascending or descending. Spring accepts any property, such as `owner`, and several keys. A property the entity does not have makes the request fail with a server error. Neither is modelled.
- The repository is a map from id to amount and owner. `save` is insert-or-replace by id, and `deleteById` removes the row. JPA, SQL and transactions are not modelled.
- The database's order among cards with equal sort keys is not specified. The model fixes one particular order: the rows are taken in ascending id and sorted by insertion. Its lemmas state only that the listing is sorted and is a permutation of the caller's cards.
- Spring MVC binding, JSON encoding, `ResponseEntity` and `UriComponentsBuilder` are left out. The location is modelled as the path `cashcards/{id}` without host and port.
- The `System.err` logging of the handlers is left out.
- SecurityConfig.Authenticate: the store's lower-casing of user names is not modelled; names match exactly.
- SecurityConfig.Authenticate: BCrypt hashing is not modelled; the password is compared as plain text.
- Only HTTP Basic credentials are modelled. CSRF and frame options do not affect any decision here and are left out.
- The framework's default for a path no rule covers is modelled as "deny": 401 when anonymous, 403 when authenticated.
- Reading the `.proto` file (`readlines`, `readFileSync` and `split`) is left out. Each reader receives the list of lines.
- `generate_java_classes`, `generateJavaClasses`, the templates and `main` are left out. They only render the parsed services to files.
- The regular expressions are modelled over ASCII. `ProtoPatterns.IsSpace` is exactly JavaScript's `\s` restricted to ASCII: space, tab, line feed, vertical tab, form feed and carriage return. `ProtoPatterns.IsWordChar` is `[A-Za-z0-9_]`, which is exactly JavaScript's `\w`. Python's `\s` in a text pattern (gRPC_gateway/script.py:53, 62, 75 and 83) also matches the ASCII separators U+001C to U+001F and non-ASCII spaces such as U+0085 and U+00A0, but not U+FEFF; on a line holding one of those separators where the model's `IsSpace` expects white space, the Python reader matches and the model does not. JavaScript's `\s` (gRPC_gateway/script.js:52, 58, 71 and 78) also matches non-ASCII spaces such as U+00A0 and U+FEFF. Python's `\w` also matches non-ASCII letters and digits. None of these are modelled.
- Both `Capitalize` members upper-case only ASCII letters. Unicode case mapping is not modelled.
- NodeProtoParser.ParseProto: the file-order property is proved for the lookup by first occurrence, the one the code uses. The per-pass lemmas hold for both lookups.

## Findings

| source | as written | input that shows it | evidently intended | confidence | as-written member | corrected member |
|---|---|---|---|---|---|---|
| gRPC_gateway/script.js:74-76 | the block of an option line is looked up after the first line with the same text | two rpcs whose option lines are both `    option (google.api.http) = {`, the first block `get: "/users/{id}"`, the second `post: "/users"` | each option line reads the block after itself | high (not executed) | NodeProtoParser.RepeatedOptionLineReadsEarlierBlock, ProtoSample.NodeParsesSample | NodeProtoParser.OwnLineReadsNextClosingLine, ProtoSample.NodeOwnLineParsesSample |
| gRPC_gateway/script.py:81-83 | the scan stops at the first line holding `}` before it tries the rule match, so a rule whose path names a parameter is never read | an option block whose rule line is `      get: "/users/{id}"` | the rule on the closing line is read, giving GET `/users/{id}` with parameter `id` | high (not executed) | PythonProtoParser.ScanTakesLastRule, PythonProtoParser.ScanNeverSetsParam | PythonProtoParser.ScanOptionBlockIntended, PythonProtoParser.IntendedScanTakesLastRule |

The first row's lookup by text (`lines.index(line)`) is also how script.py:80 finds its block. On the sample, the first block already stops every Python scan (second row), so the repeated lookup makes no visible difference there.

With the lookup by position, the JavaScript reader still reads only the closing line of the block. So the second method of the sample keeps POST and an empty path rather than `POST /users`. That part is kept as written.

The generated class in gRPC_gateway/generated_rest_classes/UserServiceRest.java:24-31 shows the first row's outcome: `CreateUser` is given `GET /users/{id}`.
