# Pocketbase client: query strings, filter expressions, status decisions and payloads

The repository is a Java client for the Pocketbase REST API. Most of it is HTTP and JSON
plumbing. This project models the part that makes decisions and builds text:

- `src/main/java/tbd/group/utils/Pocketbase.java`, modelled by module `Pocketbase`
  (`pocketbase.dfy`). It covers:
  - `RecordQuery`: a class with Lombok getters and setters, the constructor and `getQuery`,
    which builds the parameter text with a changing separator `nextChar`.
  - `RecordQuery.FilterBuilder`: the builder keeps a reference to the caller's list. `add`
    appends to that list in place and `build` loops over it.
  - The `Operators` token table.
  - The status-code branches of `getJson`, `sendData` and `authRefresh`.
  - The JSON bodies of `updateUser` and `postJson`.
- `src/main/java/tbd/group/Utils/Pocketbase.java`, modelled by module `UtilsPocketbase`
  (`utils_pocketbase.dfy`). It covers the seven-field `RecordQuery`: constructor, getters,
  setters and `getQuery`, which writes `name=value&` for every field that is set.

Both Java files declare the same package and class name, so they are two separate modules.
Three small modules hold what both need:

- `Wrappers`: `Option`, which models a Java reference that may be `null`.
- `JavaText`: Java's `int` as `Int32`. `Integer.toString` as `IntToString`, with its inverse
  `ParseInt`. `Boolean.toString`. The `"null"` that string concatenation writes for a null
  reference.
- `QueryParts`: query parameters keyed by field, conditional appends, and the `name=value&`
  rendering.

Each `getQuery` is an imperative method on a class. Its result is proved equal to `Query(o)`,
a function of the object's state `o`. `Query(o)` is built from the list of parameters that
are set (`QueryParams(o)`). The lemmas then state what that text contains:

- which parameters appear, in which order, and with which values;
- which separators follow them;
- when the text is empty;
- how long it is.

`FilterBuilder` is a class whose `filter` field is a `ClauseList` object shared with the
caller. Its items may be null. `Add` changes that list and nothing else. `Build` reads it in
a loop and returns `Expression(ItemTexts(items))`, where `ItemTexts` writes a null item as
"null".

The Javadoc of `RecordQuery` shows the forms meant. At
`src/main/java/tbd/group/utils/Pocketbase.java:584` the sort example is `?sort=-created,id`. At
line 597 the filter example is `?filter=(title~'abc' && created>'2023-01-01')`, where the clauses
are joined by `&&` and none comes before the first. The code does not produce these forms:
`build` writes `" && "` before every clause, the first one included, and `getQuery` in `utils/`
puts `'?'` after the first pair. The model follows the code. Both differences are under
"## Findings", with the intended texts defined and proved beside them.

## Model

| member | source | states |
|---|---|---|
| JavaText.IntToString | src/main/java/tbd/group/utils/Pocketbase.java:629 | `append(int)` writes at least one character, and the text starts with '-' exactly for a negative number |
| JavaText.IntToStringRoundTrip | src/main/java/tbd/group/utils/Pocketbase.java:629 | the decimal text `append(int)` writes for `page` reads back as the same number, negatives included |
| JavaText.IntToStringInjective | src/main/java/tbd/group/utils/Pocketbase.java:633 | different `perPage` values give different texts |
| JavaText.BoolToString | src/main/java/tbd/group/utils/Pocketbase.java:645 | `append(boolean)` writes "true" exactly for true, otherwise "false" |
| Pocketbase.RecordQuery.constructor | src/main/java/tbd/group/utils/Pocketbase.java:617-623 | each getter returns the argument given for its field |
| Pocketbase.RecordQuery.SetPage | src/main/java/tbd/group/utils/Pocketbase.java:571-576 | the Lombok setter changes `page` and leaves the other four fields as they were |
| Pocketbase.RecordQuery.SetPerPage | src/main/java/tbd/group/utils/Pocketbase.java:571-580 | changes `perPage` only |
| Pocketbase.RecordQuery.SetSort | src/main/java/tbd/group/utils/Pocketbase.java:571-594 | changes `sort` only |
| Pocketbase.RecordQuery.SetFilter | src/main/java/tbd/group/utils/Pocketbase.java:571-611 | changes `filter` only |
| Pocketbase.RecordQuery.SetSkipTotal | src/main/java/tbd/group/utils/Pocketbase.java:571-615 | changes `skipTotal` only |
| Pocketbase.RecordQuery.GetQuery | src/main/java/tbd/group/utils/Pocketbase.java:625-648 | the text returned is `Query` of the object's state: each set field's pair, followed by the separator due at that point; the object is not changed |
| Pocketbase.Query | src/main/java/tbd/group/utils/Pocketbase.java:625-648 | the text `getQuery` returns for a state is empty exactly when no parameter is written |
| Pocketbase.QueryTextIsQuery | src/main/java/tbd/group/utils/Pocketbase.java:626-647 | the five conditional appends with `nextChar` produce exactly the rendering of the set parameters |
| Pocketbase.QueryHeadIsWritten | src/main/java/tbd/group/utils/Pocketbase.java:626-639 | after the page, perPage and sort appends, the text and `nextChar` are those of the first three fields |
| Pocketbase.WrittenParams | src/main/java/tbd/group/utils/Pocketbase.java:626-647 | after the first k appends, the text renders the parameters of the first k fields, and `nextChar` is "?" until a pair has been written and "&" after |
| Pocketbase.AppendStep | src/main/java/tbd/group/utils/Pocketbase.java:628-631 | one conditional append adds the pair and the pending separator when the field is set and leaves the text alone otherwise; the separator then becomes "&" |
| Pocketbase.RenderSnoc | src/main/java/tbd/group/utils/Pocketbase.java:629 | writing one more pair appends exactly that pair and the separator due after it |
| Pocketbase.PrefixInjective | src/main/java/tbd/group/utils/Pocketbase.java:629-645 | different fields are written under different parameter names |
| Pocketbase.QueryEmptyIff | src/main/java/tbd/group/utils/Pocketbase.java:625-648 | the query is "" exactly when page and perPage are 0, sort and filter are null and skipTotal is false |
| Pocketbase.QueryParamKeys | src/main/java/tbd/group/utils/Pocketbase.java:628-646 | the parameters written are exactly the set fields, in the order page, perPage, sort, filter, skipTotal |
| Pocketbase.QueryParamValues | src/main/java/tbd/group/utils/Pocketbase.java:628-646 | each field is written with its decimal number, its string or "true" when set, and is absent when not set |
| Pocketbase.QuerySeparators | src/main/java/tbd/group/utils/Pocketbase.java:627-646 | the first pair is followed by "?" and every later one by "&"; a non-empty query ends in '?' with one parameter and in '&' with several |
| Pocketbase.Token | src/main/java/tbd/group/utils/Pocketbase.java:674-692 | every token has one to three characters, and it starts with '?' exactly for the ANY_ operators |
| Pocketbase.TokenRoundTrip | src/main/java/tbd/group/utils/Pocketbase.java:674-692 | every operator's token reads back as that operator |
| Pocketbase.TokensDistinct | src/main/java/tbd/group/utils/Pocketbase.java:674-692 | the eighteen tokens are pairwise different |
| Pocketbase.OperatorsListed | src/main/java/tbd/group/utils/Pocketbase.java:674-692 | there are eighteen operators, each listed once at its ordinal |
| Pocketbase.AnyVariantTokens | src/main/java/tbd/group/utils/Pocketbase.java:675-692 | the eight comparison and like operators have an ANY_ variant whose token is theirs with '?' in front, and every ANY_ operator is such a variant |
| Pocketbase.Clause | src/main/java/tbd/group/utils/Pocketbase.java:658 | the clause `add` writes starts with the field's text and ends with the value's text ("null" for null), and what lies between them reads back as the operator given |
| Pocketbase.Expression | src/main/java/tbd/group/utils/Pocketbase.java:662-671 | `build`'s text is enclosed in '(' and ')', and with at least one clause it opens with " && " |
| Pocketbase.ItemTexts | src/main/java/tbd/group/utils/Pocketbase.java:665-667 | each list item is written as its own text, and a null item as "null" |
| Pocketbase.ClauseList.constructor | src/main/java/tbd/group/utils/Pocketbase.java:651-655 | the caller's list holds the given items, null ones included |
| Pocketbase.FilterBuilder.constructor | src/main/java/tbd/group/utils/Pocketbase.java:653-655 | the builder keeps the caller's list itself, not a copy |
| Pocketbase.FilterBuilder.Add | src/main/java/tbd/group/utils/Pocketbase.java:657-660 | the shared list gains exactly the non-null item `field + token + value` at its end, with "null" written for a null string; earlier clauses are unchanged; the same builder is returned |
| Pocketbase.FilterBuilder.Build | src/main/java/tbd/group/utils/Pocketbase.java:662-671 | the result is "(", then " && " and the item's text for every item in the list ("null" for a null item), then ")"; the list is not changed |
| Pocketbase.AndPrefixedSnoc | src/main/java/tbd/group/utils/Pocketbase.java:665-668 | one more loop iteration appends " && " and the clause |
| Pocketbase.ExpressionLength | src/main/java/tbd/group/utils/Pocketbase.java:662-671 | an empty list builds "()"; otherwise the length is 2 plus, per clause, 4 and the clause's length |
| Pocketbase.ExpressionAfterAdd | src/main/java/tbd/group/utils/Pocketbase.java:657-671 | building after an `add` gives the previous expression with " && " and the new clause inserted before the closing ')' |
| Pocketbase.CheckStatus | src/main/java/tbd/group/utils/Pocketbase.java:188-195 | the decision `getJson`, `listen` and `sendData` take on the response code: every 2xx code passes the branch, and an exception is raised only for a code between 400 and 500 |
| Pocketbase.CheckRefreshStatus | src/main/java/tbd/group/utils/Pocketbase.java:306-313 | the decision `authRefresh` takes: every 2xx code goes on, and an exception is raised only for a code between 400 and 500 |
| Pocketbase.StatusTable | src/main/java/tbd/group/utils/Pocketbase.java:81-88 | reads fail with InvalidFilter on 400, CollectionNotFound("Collection not found") on 404 and a server error on 500, and pass the branch for every other code, 401 included (a read then reads the body, `sendData` returns to its caller); `sendData` (lines 213-220) applies the same table to writes |
| Pocketbase.RefreshStatusTable | src/main/java/tbd/group/utils/Pocketbase.java:306-313 | auth refresh fails with TokenAuthFail on 401, CollectionNotFound("Missing auth record context.") on 404 and a server error on 500, and passes the branch for every other code, 400 included |
| Pocketbase.StatusTablesDiffer | src/main/java/tbd/group/utils/Pocketbase.java:306-313 | the refresh table and the read table differ on exactly 400, 401 and 404 |
| Pocketbase.UpdatePayload | src/main/java/tbd/group/utils/Pocketbase.java:143-151 | the update body has seven members keyed in the builder's order, and only `emailVisibility` and `verified` carry booleans |
| Pocketbase.CreatePayload | src/main/java/tbd/group/utils/Pocketbase.java:114-122 | a creation body, when there is one, has the same seven keys in the same order |
| Pocketbase.UserKeysDistinct | src/main/java/tbd/group/utils/Pocketbase.java:143-151 | the seven keys of the update body are distinct |
| Pocketbase.UpdatePayloadShape | src/main/java/tbd/group/utils/Pocketbase.java:143-151 | the update body has the seven keys in order; a null string is sent as "", any other string unchanged, and the two flags are copied |
| Pocketbase.UpdatePayloadIdentifies | src/main/java/tbd/group/utils/Pocketbase.java:143-151 | two updates send the same body exactly when they agree once null strings are read as "" |
| Pocketbase.CreatePayloadMatchesUpdate | src/main/java/tbd/group/utils/Pocketbase.java:114-122 | creation builds a body exactly when no string is null, and that body is the update body of the same attributes |
| Pocketbase.RecordsUrl | src/main/java/tbd/group/utils/Pocketbase.java:56 | the records URL ends with the query text, right after a '?'; `getRecords` in `Utils/Pocketbase.java` (line 28) builds the same URL |
| Pocketbase.RecordsUrlMarks | src/main/java/tbd/group/utils/Pocketbase.java:56 | for every query, the URL has '?' before the query and one more '?' wherever the query has one |
| Pocketbase.QueryAsWrittenExample | src/main/java/tbd/group/utils/Pocketbase.java:625-648 | page 2 with 30 per page gives "page=2?perPage=30&", not the intended "page=2&perPage=30" |
| Pocketbase.IntendedQueryWellFormed | src/main/java/tbd/group/utils/Pocketbase.java:56 | the intended query, after the caller's '?', gives each parameter exactly one separator before it: '?' for the first and '&' for the others |
| Pocketbase.BuildLeadingSeparator | src/main/java/tbd/group/utils/Pocketbase.java:664-668 | for a non-empty list, what `build` writes is the intended expression with an extra " && " after '(' |
| Pocketbase.BuildAsWrittenExample | src/main/java/tbd/group/utils/Pocketbase.java:662-671 | the clauses a>1 and b<2 build "( && a>1 && b<2)" where "(a>1 && b<2)" is meant |
| Pocketbase.IntendedExpressionShape | src/main/java/tbd/group/utils/Pocketbase.java:662-671 | the intended expression starts with the first clause and is four characters shorter than what `build` writes |
| UtilsPocketbase.RecordQuery.constructor | src/main/java/tbd/group/Utils/Pocketbase.java:65-74 | each of the seven getters returns the argument given for its field |
| UtilsPocketbase.RecordQuery.SetPage | src/main/java/tbd/group/Utils/Pocketbase.java:104-106 | changes `page` and leaves the other six fields as they were |
| UtilsPocketbase.RecordQuery.SetPerPage | src/main/java/tbd/group/Utils/Pocketbase.java:108-110 | changes `perPage` only |
| UtilsPocketbase.RecordQuery.SetSort | src/main/java/tbd/group/Utils/Pocketbase.java:112-114 | changes `sort` only |
| UtilsPocketbase.RecordQuery.SetFilter | src/main/java/tbd/group/Utils/Pocketbase.java:116-118 | changes `filter` only |
| UtilsPocketbase.RecordQuery.SetExpand | src/main/java/tbd/group/Utils/Pocketbase.java:120-122 | changes `expand` only |
| UtilsPocketbase.RecordQuery.SetFields | src/main/java/tbd/group/Utils/Pocketbase.java:124-126 | changes `fields` only |
| UtilsPocketbase.RecordQuery.SetSkipTotal | src/main/java/tbd/group/Utils/Pocketbase.java:128-130 | changes `skipTotal` only |
| UtilsPocketbase.RecordQuery.GetQuery | src/main/java/tbd/group/Utils/Pocketbase.java:133-157 | the text returned is `Query` of the object's state: one `name=value&` segment per set field; the object is not changed |
| UtilsPocketbase.Query | src/main/java/tbd/group/Utils/Pocketbase.java:133-157 | the text `getQuery` returns for a state is empty exactly when no parameter is written |
| UtilsPocketbase.QueryTextIsQuery | src/main/java/tbd/group/Utils/Pocketbase.java:134-156 | the seven conditional appends produce exactly the set parameters, each followed by '&' |
| UtilsPocketbase.QueryHeadIsWritten | src/main/java/tbd/group/Utils/Pocketbase.java:134-146 | after the page, perPage, sort and filter appends, the text is that of the first four fields |
| UtilsPocketbase.WrittenParams | src/main/java/tbd/group/Utils/Pocketbase.java:134-156 | after the first k appends, the text is the `name=value&` segments of the set fields among the first k |
| UtilsPocketbase.AppendStep | src/main/java/tbd/group/Utils/Pocketbase.java:135-137 | one conditional append adds the pair and '&' when the field is set and leaves the text alone otherwise |
| UtilsPocketbase.PrefixInjective | src/main/java/tbd/group/Utils/Pocketbase.java:136-154 | different fields are written under different parameter names |
| UtilsPocketbase.QueryShape | src/main/java/tbd/group/Utils/Pocketbase.java:133-157 | the query is "" exactly when no field is set, and otherwise ends in '&' |
| UtilsPocketbase.QueryParamKeys | src/main/java/tbd/group/Utils/Pocketbase.java:135-155 | the parameters written are exactly the set fields, in the order page, perPage, sort, filter, expand, fields, skipTotal |
| UtilsPocketbase.QueryParamValues | src/main/java/tbd/group/Utils/Pocketbase.java:135-155 | each field is written with its decimal number, its string or "true" when set, and is absent when not set |
| UtilsPocketbase.QueryLength | src/main/java/tbd/group/Utils/Pocketbase.java:136-154 | there are as many segments as set fields, and the text is exactly as long as those segments |
| UtilsPocketbase.SkipTotalLast | src/main/java/tbd/group/Utils/Pocketbase.java:153-155 | when skipTotal is set, the query is the segments of the other six fields followed by "skipTotal=true&" |
| QueryParts.TerminatedShape | src/main/java/tbd/group/Utils/Pocketbase.java:134-156 | the `name=value&` rendering is empty exactly when there is no pair, and otherwise ends in '&' |
| QueryParts.TerminatedLength | src/main/java/tbd/group/Utils/Pocketbase.java:134-156 | the rendering is exactly as long as its pairs plus one '&' each |

## Left out

- HTTP transport: URLs, connections, request methods and headers, stream reads and writes,
  and the bytes `sendData` writes. Only the decision taken on the response code is modelled,
  as a function of the code. As written, the URL constructor throws `MalformedURLException`
  before any request is made: the paths in `postJson` and `updateUser` have no scheme or host,
  and the base URL "127.0.0.1" has no scheme. The payloads are the bodies these methods build.
- Status codes of 400 or more that neither table names (401 on reads, 400 on refresh, and
  any other) pass the branch, and what follows is not modelled: `Proceed` only says that the
  branch is passed. On reads (`getJson`, `listen`, `authenticate`, `authRefresh`) the body read
  that follows fails in the transport (`getInputStream` throws and the method rethrows a
  `RuntimeException`). On writes through `sendData`, any unlisted code is reported as success:
  `postJson` and the four email and password-reset methods return `true`, and `updateUser`
  returns normally.
- JSON binding: `Jsonb` decoding of responses, `getJsonNumber`, and the iteration in
  `getAuthMethods` and `oath2Accounts`. Bodies are modelled as ordered lists of key/value
  members. What `toString` writes for them is not modelled.
- The request methods that only wrap transport: `getUserRecords`, `getRecord`,
  `deleteUser`, `listen`, `authenticate`, the email and password-reset flows and
  `unlinkOathAccount`. `listen` applies the same status table as reads. `deleteUser`'s
  unread status and `listen`'s single read belong to the transport.
- The other 401 checks in `requestEmailChange` and `confirmEmailChange`: transport-level
  branches in flows that are not modelled.
- `getJson` in `Utils/Pocketbase.java` (lines 31-54) has the same status table as the one in
  `utils/Pocketbase.java`. It is covered by `Pocketbase.StatusTable` and not repeated.
- `getRecords` in `Utils/Pocketbase.java` (lines 27-28) only prefixes the query with the
  records path. The same prefixing is modelled once, as `Pocketbase.RecordsUrl`.
- Data holders (`UserRecordList`, `Item`, `AuthProvider`, `Oath2Account`, `SSEData`) have no
  behaviour. `PreparedUser` and `PreparedUserUpdate` appear as datatypes because the payloads
  read them.
- Exception classes are constructors of `ApiError`, with their default messages. Stack traces
  and causes are not modelled. `InternalServerErrorException` carries no message here.
- `FilterBuilder.add`: the `@NonNull` operator is an `Operator` value, so the model has no
  null operator to reject. A null `filter` list, and a list that refuses `add`, are not
  modelled: the builder's list is always a mutable `ClauseList`. Null items in that list are
  modelled, and `build` writes them as "null".
- The two `RecordQuery` classes are separate Java classes with different fields. Their
  `FieldValue`, `ParamsOf`, `Pairs` and `PairsSnoc` definitions, and the `QueryParamKeys` and
  `QueryParamValues` lemmas, are written once per module, with the same shape. Sharing one copy
  would mean passing the field-naming function as an argument.
- Encoding: the code percent-encodes nothing and validates nothing, and the model does not
  add either.
- `Int32` only bounds the fields. `getQuery` does no arithmetic on them, so there is no
  wrap-around to model.

## Findings

| source | as written | input that shows it | evidently intended | confidence | as-written member | corrected member |
|---|---|---|---|---|---|---|
| src/main/java/tbd/group/utils/Pocketbase.java:625-648 | each pair is followed by `nextChar`, so the first pair is followed by '?' and the text ends in a separator; the caller at line 56 puts its own '?' in front | page 2, perPage 30, nothing else set: "page=2?perPage=30&", and the URL ends in "records?page=2?perPage=30&" | "page=2&perPage=30": pairs joined by '&', one separator before each pair once the caller's '?' is counted | high (not executed) | Pocketbase.QueryAsWrittenExample | Pocketbase.IntendedQueryWellFormed |
| src/main/java/tbd/group/utils/Pocketbase.java:662-671 | " && " is written before every clause, the first one included | clauses a>1 and b<2: "( && a>1 && b<2)" | "(a>1 && b<2)": clauses joined by " && " inside parentheses | high (not executed) | Pocketbase.BuildAsWrittenExample | Pocketbase.IntendedExpressionShape |
