# FikirCreative Prospector: a Dafny model of the lead search path

FikirCreative Prospector is a small Next.js application. Members of one team sign in with Google. They search the Google Places text-search service for businesses of a sector in a city. They download the results as CSV, or save them in bulk to a lead table.

This project models that data path, from the request body to the stored rows. It models:

- the access checks:
  - the allow-list of emails;
  - the `signIn`, `session`, `jwt` and `authorized` callbacks.
- the places-search endpoint:
  - schema validation and the `pages` coercion;
  - the pagination loop against the provider's replies;
  - de-duplication by place identifier;
  - enrichment of the first 20 leads with place details.
- the search page:
  - the page-count clamp;
  - the request it posts;
  - the CSV download;
  - the website cell;
  - the bulk-save body.
- the bulk-save endpoint:
  - the lead schema;
  - the mapping of items to rows;
  - the early-return chain;
  - the skip-duplicates insert into a table keyed by place identifier.

## Project layout

| file | module | what the source does there |
|---|---|---|
| `wrappers.dfy` | `Wrappers` | `Option`. A value that is `undefined` or `null` is `None`. |
| `text.dfy` | `Text` | `trim` over JavaScript's whitespace set, ASCII `toLowerCase`, `split`/`join` on one character, `startsWith` |
| `json.dfy` | `Json` | parsed JSON values; what `Number(...)` can give |
| `leads.dfy` | `Leads` | the provider's raw record and the normalised lead |
| `config.dfy` | `Config` | `allowedEmails`, `isEmailAllowed` |
| `auth.dfy` | `Auth` | the NextAuth callbacks. A session is a class, edited in place by `session`. |
| `places_request.dfy` | `PlacesRequest` | the request schema and the `pages` coercion |
| `pagination.dfy` | `Pagination` | the text-search `for` loop, as a method with a `while` loop |
| `dedup.dfy` | `Dedup` | normalisation. The `deduped` Map loop is a method, proved against a recursive specification. |
| `enrichment.dfy` | `Enrichment` | detail targets, lookup results, the `detailMap` loop and the merge |
| `places_search.dfy` | `PlacesSearch` | the `POST` handler of `/api/places/search` |
| `csv.dfy` | `Csv` | CSV quoting and joining, plus a reader for the same format |
| `search_page.dfy` | `SearchPage` | the client-side computations of the search page |
| `bulk_save.dfy` | `BulkSave` | the lead schema, row mapping, the lead table as a class, and the `POST` handler of `/api/leads/bulk-save` |

## Inputs from the environment

These inputs are parameters of the model:

- The text-search fetcher is the sequence `pageReplies`.
  - Its k-th element answers the k-th request.
  - A reply is either a throw, a non-OK HTTP response with its text, or a parsed body.
- The detail fetcher is the sequence `detailReplies`. Its k-th element answers the lookup of the k-th target.
- The session is the boolean `authenticated`. It says whether `auth()` found a session.
- The API key is the string `apiKey`.
- A store failure is the boolean `storeFails`.
- `Number(...)` on a value that is not a number, `null` or a boolean is the function `numberOf`.
- A rating's `toString()` is the function `numberText`.

## Rating text

The CSV writes `rating.toString()` (src/app/search/page.tsx:82). Only the on-screen table uses `toFixed(1)` (src/app/search/page.tsx:246). `SearchPage.RatingText` follows the CSV: it applies `numberText`, which stands for `toString`.

## Model

| member | source | states |
|---|---|---|
| Text.Trim | src/lib/config.ts:9 | The result has no leading or trailing whitespace. It is the part of the input that has only whitespace before it and after it. It is empty exactly when every character of the input is whitespace. |
| Text.Lower | src/lib/config.ts:9-14 | `toLowerCase`, as used by the allow-list, by `isEmailAllowed` and by the `session` callback (src/auth.ts:30): the text keeps its length, and each character is lowercased on its own. It folds ASCII letters only. `Text.LowerIdempotent` and `Text.LowerKeepsWhitespace` state its meaning. |
| Text.LowerIdempotent | src/lib/config.ts:9 | Lowercasing twice gives the same text as lowercasing once. |
| Text.LowerKeepsWhitespace | src/lib/config.ts:9 | Lowercasing neither creates nor removes whitespace, so a trimmed text stays trimmed. |
| Text.Split | src/lib/config.ts:8 | `split(',')` gives at least one segment, and no segment contains a comma. |
| Text.JoinSplit | src/lib/config.ts:8 | Joining the segments with the separator gives back the original text. |
| Text.SplitAround | src/lib/config.ts:8 | If the first part has no separator, splitting `a,b` gives the segments of `a` followed by those of `b`. |
| Config.NormaliseEntry | src/lib/config.ts:9 | A normalised segment is trimmed and already lowercase. |
| Config.NormaliseAll | src/lib/config.ts:9 | `.map(email => email.trim().toLowerCase())`: one entry per segment, in order, each the segment trimmed then lowercased. `Config.NormaliseAllAppend` shows that it distributes over concatenation. |
| Config.NonEmpty | src/lib/config.ts:10 | `filter(Boolean)` keeps exactly the non-empty strings. |
| Config.NonEmptyAppend | src/lib/config.ts:10 | Filtering a concatenation gives the filtered parts, concatenated. |
| Config.AllowedEmails | src/lib/config.ts:8-10 | Every entry of the allow-list is non-empty, trimmed and lowercase. |
| Config.AllowedEmailsMembers | src/lib/config.ts:8-10 | A text is an entry exactly when it is non-empty and is the normalisation of some comma-separated segment. |
| Config.AllowedEmailsOfSegment | src/lib/config.ts:8-10 | A text with no comma gives at most one entry: its normalisation, unless that is empty. Empty segments are therefore dropped. |
| Config.AllowedEmailsAppend | src/lib/config.ts:8-10 | Entries keep the order of their segments: the list for `a,b` is the list for `a` followed by the list for `b`. |
| Config.IsEmailAllowed | src/lib/config.ts:12-15 | The result is false for a missing or empty email. Otherwise it holds exactly when the lowercased email is an entry. |
| Config.IsEmailAllowedIgnoresCase | src/lib/config.ts:14 | An email and its lowercase form get the same answer. |
| Config.PaddedEmailRefused | src/lib/config.ts:9-14 | An email with leading or trailing whitespace is never allowed. |
| Auth.SignIn | src/auth.ts:25-27 | `signIn` succeeds exactly when the user has a non-empty email whose lowercase form is on the list. |
| Auth.NormaliseEmail | src/auth.ts:29-31 | A present, non-empty email is lowercased. Any other email value is left as it is. The result is lowercase. |
| Auth.NormaliseSession | src/auth.ts:28-33 | Only the email of the session's user changes. The expiry, name, image and the presence of a user stay the same. |
| Auth.NormaliseSessionIdempotent | src/auth.ts:28-33 | Running the session callback twice leaves the same value as running it once. |
| Auth.SessionCallback | src/auth.ts:28-33 | The session object is edited in place and returned: its user object is the same, and the new session value is the normalisation of the old one. |
| Auth.Jwt | src/auth.ts:34-36 | The token comes back unchanged. |
| Auth.Authorized | src/auth.ts:37-45 | Any path starting with `/signin` is let through. Any other path is let through exactly when the session's user has a non-empty email whose lowercase form is on the list. |
| Auth.SignedInIsAuthorized | src/auth.ts:25-45 | A user admitted by `signIn` is authorized on every path once the session callback has normalised their session. |
| Auth.AuthorizedAgreesWithSignIn | src/auth.ts:25-44 | Away from `/signin`, the middleware and `signIn` give the same answer for the same email. |
| Auth.NoSessionOnlySignIn | src/auth.ts:38-43 | Without a session, a path is reachable exactly when it starts with `/signin`. |
| PlacesRequest.CoercePages | src/app/api/places/search/route.ts:53-56 | A missing or `null` `pages` becomes 1. A number is kept. `true` becomes 1 and `false` becomes 0. A string, array or object is passed through `Number(...)`. |
| PlacesRequest.ParseRequest | src/app/api/places/search/route.ts:7-60 | The request is accepted exactly when `keyword`, `city` and `country` are non-empty strings, `enrich` is missing or a boolean, and the coerced `pages` is an integer in 1..3. An accepted request carries those values, with `enrich` defaulting to false. |
| Pagination.Query | src/app/api/places/search/route.ts:75 | The query text is trimmed. |
| Pagination.PagingIsDetermined | src/app/api/places/search/route.ts:73-115 | The replies decide the run: at most one sequence of requests meets the loop's description. |
| Pagination.AllResults | src/app/api/places/search/route.ts:106-108 | The `rawResults.push(...)` accumulation: the records of the replies, in page order, taking a reply's `results` only when it is an array. `Pagination.AllResultsStep` shows that each page adds its records at the end. |
| Pagination.Settle | src/app/api/places/search/route.ts:89-108 | The outcome of the last reply of a run. A throw gives 500. A non-OK response gives 502 with its text. A status other than OK or ZERO_RESULTS gives 502. Otherwise the records collected so far are followed by that page's records. `Pagination.FetchPages` is proved to end with it. |
| Pagination.PagedAsSpecified | src/app/api/places/search/route.ts:73-115 | The run the loop makes: between 1 and `pages` requests. The k-th is the query with the token of the reply before it. Every reply but the last asks for another page, and the last ends the run unless the page budget did. `Pagination.FetchPages` is proved against it, and `Pagination.PagingIsDetermined` shows that the replies fix the run. |
| Pagination.FetchPages | src/app/api/places/search/route.ts:70-115 | The loop issues between 1 and `pages` requests. The first uses the query alone; each later one uses the previous reply's token. Every reply but the last asks for another page. The last reply ends the run unless the page budget did. A throw gives 500, a non-OK response gives 502 with its text, and a status other than OK or ZERO_RESULTS gives 502. Otherwise the records are the page-order concatenation of each page's `results` array. |
| Dedup.NumericRating | src/app/api/places/search/route.ts:129 | A rating is kept exactly when it is a JSON number. |
| Dedup.Normalise | src/app/api/places/search/route.ts:123-135 | The lead takes its identifier, address, phone, website, rating and coordinates from the record. Its name falls back to `Bilinmeyen İşletme`. Its sector is the keyword, and its city and country are copied. |
| Dedup.DeduplicatedDistinct | src/app/api/places/search/route.ts:117-138 | There are at most as many leads as records. Their identifiers are non-empty and pairwise distinct. |
| Dedup.DeduplicatedComplete | src/app/api/places/search/route.ts:119-121 | Every non-empty identifier among the records is the identifier of some lead. |
| Dedup.DeduplicatedKeepsFirst | src/app/api/places/search/route.ts:121-135 | Each lead is the normalisation of the first record with its identifier. |
| Dedup.DeduplicatedInFirstSeenOrder | src/app/api/places/search/route.ts:117-138 | Leads come out in the order in which their identifiers first appear. |
| Dedup.FirstIndex | src/app/api/places/search/route.ts:121 | This is the position of the first record with the identifier, or the number of records when none has it. |
| Dedup.Deduplicated | src/app/api/places/search/route.ts:117-138 | The de-duplicated leads. Their meaning is stated by `Dedup.DeduplicatedDistinct`, `Dedup.DeduplicatedComplete`, `Dedup.DeduplicatedKeepsFirst` and `Dedup.DeduplicatedInFirstSeenOrder`. |
| Dedup.Deduplicate | src/app/api/places/search/route.ts:117-138 | The Map loop followed by `Array.from(deduped.values())` yields exactly the de-duplicated leads. |
| Enrichment.Targets | src/app/api/places/search/route.ts:141 | The targets are the first `min(20, n)` leads. |
| Enrichment.LookupOutcome | src/app/api/places/search/route.ts:151-179 | A lookup gives a detail exactly when the reply parsed with status `OK`. The detail carries the target's identifier. A missing `result` gives empty fields. |
| Enrichment.Lookups | src/app/api/places/search/route.ts:142-181 | There is one lookup result per target, in target order. |
| Enrichment.BuildDetailMap | src/app/api/places/search/route.ts:183-192 | The `forEach` loop builds exactly the specified detail map. |
| Enrichment.DetailMapOf | src/app/api/places/search/route.ts:183-192 | The `detailMap` the `forEach` builds: a non-null detail with a non-empty identifier is stored under that identifier, and a later one overwrites an earlier one. `Enrichment.DetailMapOfLookups` states what it holds, and `Enrichment.BuildDetailMap` is proved to build it. |
| Enrichment.DetailMapOfLookups | src/app/api/places/search/route.ts:183-192 | For distinct targets, a target's identifier is in the map exactly when its lookup succeeded and the identifier is non-empty. The map then holds that lookup's fields. Every key is a target identifier. |
| Enrichment.MergeLead | src/app/api/places/search/route.ts:197-203 | Phone, website, lat and lng take the detail's value when it has one, and keep the old value otherwise. All other fields are unchanged. |
| Enrichment.Merge | src/app/api/places/search/route.ts:194-204 | Length and identifier order are kept. A lead without a map entry is unchanged. A lead with an entry is merged with it. |
| Enrichment.Enriched | src/app/api/places/search/route.ts:140-205 | The `if (enrich && normalized.length > 0)` block: the first 20 leads are looked up, and the answers are merged in. `Enrichment.EnrichedSpec` states its meaning. |
| Enrichment.EnrichedSpec | src/app/api/places/search/route.ts:140-205 | Length and identifier order are kept. Without `enrich` the leads are unchanged. Leads at index 20 or more are unchanged, and so are leads whose lookup failed. Every other lead among the first 20 is merged with its lookup's fields. |
| PlacesSearch.Respond | src/app/api/places/search/route.ts:69-207 | The answer decided by the replies, once the page run is over. `PlacesSearch.SearchItemsSpec` states what a successful answer holds. `PlacesSearch.SearchPost` is proved to answer with it. |
| PlacesSearch.SearchPost | src/app/api/places/search/route.ts:46-212 | Without a session the answer is 401, with no upstream call. An invalid body gives 400, with no call. A missing API key gives 400, with no call. Otherwise the page requests follow the paging description, the answer is decided by the replies, and one detail lookup is made per enrichment target: the first 20 leads, when `enrich` is set and the search succeeded, and none otherwise. |
| PlacesSearch.RunSearch | src/app/api/places/search/route.ts:69-211 | For a validated request, the page requests follow the paging description and the answer is the one the replies decide. One detail lookup is made per enrichment target when `enrich` is set and the search succeeded, and none otherwise. |
| PlacesSearch.NormaliseAndEnrich | src/app/api/places/search/route.ts:117-207 | The leads are the de-duplicated records, enriched exactly as the enrichment description says. The number of detail lookups is the number of enrichment targets, the first 20 leads, when `enrich` is set, and 0 otherwise. |
| PlacesSearch.SearchItemsSpec | src/app/api/places/search/route.ts:117-207 | A successful answer holds leads with non-empty, pairwise distinct identifiers. Their sector is the keyword and their city and country come from the request. There are no more of them than raw records. |
| SearchPage.ClampPages | src/app/search/page.tsx:173 | NaN stays NaN. Anything else becomes a finite value in [1, 3]. Values already in range are unchanged, values below become 1, and values above become 3. |
| SearchPage.ClampPagesIdempotent | src/app/search/page.tsx:173 | Clamping twice gives the same value as clamping once. |
| SearchPage.ClampedIntegerIsPageCount | src/app/search/page.tsx:173 | A whole number, or an infinity, clamps to a page count the endpoint accepts. |
| SearchPage.NumberJson | src/app/search/page.tsx:54 | `JSON.stringify` writes a finite number as itself, and NaN or an infinity as `null`. |
| SearchPage.SearchBody | src/app/search/page.tsx:50-56 | The body the search form posts. `SearchPage.SearchBodyAccepted` states when the endpoint accepts it. |
| SearchPage.SearchBodyAccepted | src/app/search/page.tsx:50-56 | The endpoint accepts the posted form exactly when the three texts are non-empty and the page count is a whole number in 1..3 or not finite. It then searches with the form's own values, reading a non-finite page count as 1. |
| SearchPage.DefaultFormAccepted | src/app/search/page.tsx:24-30 | The default form is accepted as a one-page search without enrichment. |
| SearchPage.RatingText | src/app/search/page.tsx:82 | A missing rating becomes the empty string. A present one becomes its `toString` text. |
| SearchPage.CsvRow | src/app/search/page.tsx:77-85 | Each row has 7 values, in the order name, address, phone, website, rating, city, country. A missing address, phone or website becomes the empty string. |
| SearchPage.DownloadCsv | src/app/search/page.tsx:74-75 | There is no download exactly when there are no results. |
| SearchPage.DownloadCsvReadsBack | src/app/search/page.tsx:76-89 | Reading the download back gives the header, then one 7-value row per result, in result order. |
| SearchPage.StripScheme | src/app/search/page.tsx:240 | One leading `https://` or `http://` is removed. Any other text is unchanged. |
| SearchPage.StripSchemeOnce | src/app/search/page.tsx:240 | Only one scheme prefix is removed, whatever follows it. |
| SearchPage.WebsiteCell | src/app/search/page.tsx:238-244 | A missing or empty website shows `-`. Any other website shows without its scheme. |
| SearchPage.BulkSaveBody | src/app/search/page.tsx:102-111 | No bulk-save request is made exactly when there are no results. |
| SearchPage.LeadJson | src/app/search/page.tsx:111 | One result as `JSON.stringify` writes it. `SearchPage.LeadFieldsRequired`, `SearchPage.LeadFieldsTexts`, `SearchPage.LeadFieldsNumbers` and `SearchPage.LeadJsonSpec` state its fields. |
| SearchPage.LeadFieldsRequired | src/app/search/page.tsx:111 | The written result holds its identifier, name, sector, city and country as strings. |
| SearchPage.LeadFieldsTexts | src/app/search/page.tsx:111 | `JSON.stringify` writes a present address, phone or website as a string, and leaves out an absent one. |
| SearchPage.LeadFieldsNumbers | src/app/search/page.tsx:111 | `JSON.stringify` writes a present rating, lat or lng as a number, and leaves out an absent one. |
| SearchPage.LeadJsonSpec | src/app/api/leads/bulk-save/route.ts:7-54 | The lead schema accepts a written result exactly when its five required texts are non-empty. The row stored for it is then the result itself. |
| SearchPage.BulkSaveBodySpec | src/app/api/leads/bulk-save/route.ts:21-54 | The bulk-save body of the results is valid exactly when there is at least one result and every result is saveable. The rows inserted are then the results, in order. |
| SearchPage.SearchItemsSaveable | src/app/api/places/search/route.ts:125 | A successful search's leads can be saved in bulk exactly when there is at least one and none has an empty name. A provider record whose name is the empty string keeps it. |
| Csv.EscapeQuotes | src/app/search/page.tsx:88 | Escaping never shortens a value, and a value without quotes is unchanged. |
| Csv.QuoteField | src/app/search/page.tsx:88 | A written value starts and ends with a double quote. |
| Csv.ReadQuotedEscape | src/app/search/page.tsx:88 | An escaped value followed by its closing quote reads back as the value, whatever follows other than a quote. |
| Csv.UnquoteQuote | src/app/search/page.tsx:88 | Removing the outer quotes and un-doubling the inner ones gives back the original value. |
| Csv.QuoteFieldInjective | src/app/search/page.tsx:88 | Distinct values are written as distinct fields. |
| Csv.RenderRow | src/app/search/page.tsx:88 | One CSV line: the quoted values joined by commas. `Csv.ParseRowRender` proves it reads back as its values. |
| Csv.RenderRows | src/app/search/page.tsx:87-89 | The CSV text: the lines joined by `\n`. `Csv.ParseRowsRender` proves it reads back as the rows. |
| Csv.ParseRowRender | src/app/search/page.tsx:88 | A line of comma-joined quoted values reads back as those values. |
| Csv.ParseRowsRender | src/app/search/page.tsx:87-89 | Lines joined by `\n` read back as the rows, when every row has at least one value. |
| BulkSave.ValidLead | src/app/api/leads/bulk-save/route.ts:7-19 | `leadSchema`: an object whose five required fields are non-empty strings, whose address, phone and website are strings, `null` or absent, and whose rating, lat and lng are numbers, `null` or absent. `SearchPage.LeadJsonSpec` shows that it accepts a written result exactly when the result is saveable. |
| BulkSave.ValidRequest | src/app/api/leads/bulk-save/route.ts:21-23 | `requestSchema`: an object whose `items` is a non-empty array of valid leads. `BulkSave.ItemsOf` and `SearchPage.BulkSaveBodySpec` state what it accepts. |
| BulkSave.ItemsOf | src/app/api/leads/bulk-save/route.ts:21-23 | A valid body has at least one item, and every item passes the lead schema. |
| BulkSave.OptionalString | src/app/api/leads/bulk-save/route.ts:45-47 | `item[key] ?? null` is a string exactly when the field is a string, and is `null` when the field is missing or `null`. |
| BulkSave.OptionalNumber | src/app/api/leads/bulk-save/route.ts:48-53 | `item[key] ?? null` is a number exactly when the field is a number, and is `null` when the field is missing or `null`. |
| BulkSave.ToRow | src/app/api/leads/bulk-save/route.ts:42-54 | The required fields are copied verbatim and are non-empty. A missing or `null` optional field becomes `null`. |
| BulkSave.ToRows | src/app/api/leads/bulk-save/route.ts:42-54 | There is one row per item, in order. |
| BulkSave.FirstRowWith | src/app/api/leads/bulk-save/route.ts:55 | The first row of the batch with an identifier has that identifier, and no earlier row has it. There is no such row exactly when no row has the identifier. |
| BulkSave.InsertSkipping | src/app/api/leads/bulk-save/route.ts:41-56 | The skip-duplicates insert: the new table and the number of rows created. The `BulkSave.InsertSkipping*` lemmas characterise it. |
| BulkSave.InsertSkippingKeys | src/app/api/leads/bulk-save/route.ts:41-56 | After the insert, the stored identifiers are the old ones together with those of the batch. |
| BulkSave.InsertSkippingKeepsStored | src/app/api/leads/bulk-save/route.ts:55 | Rows already stored are left untouched: a duplicate is skipped, not updated. |
| BulkSave.InsertSkippingFirstWins | src/app/api/leads/bulk-save/route.ts:55 | Each new identifier holds the first row of the batch that carries it. |
| BulkSave.InsertSkippingSize | src/app/api/leads/bulk-save/route.ts:41-58 | The table grows by exactly the returned count. |
| BulkSave.InsertSkippingCountsNew | src/app/api/leads/bulk-save/route.ts:58 | The count is the number of identifiers the insert added. |
| BulkSave.InsertSkippingAllPresent | src/app/api/leads/bulk-save/route.ts:55 | A batch whose identifiers are all stored changes nothing and counts 0. |
| BulkSave.InsertSkippingTwice | src/app/api/leads/bulk-save/route.ts:41-58 | Saving the same batch a second time leaves the table unchanged and counts 0. |
| BulkSave.LeadStore.CreateMany | src/app/api/leads/bulk-save/route.ts:41-56 | The table and the count after `createMany` with `skipDuplicates` are those of the skip-duplicates insert. |
| BulkSave.BulkSavePost | src/app/api/leads/bulk-save/route.ts:25-62 | Without a session the answer is 401. An invalid body gives 400. A store error gives 500. In all three cases the table is unchanged. Otherwise the answer is the count, and the table is the result of the insert of the mapped rows. |
| BulkSave.SaveTwice | src/app/api/leads/bulk-save/route.ts:25-62 | Posting the same valid body twice: the second post answers with a count of 0. |

## Left out

- HTTP calls to the provider, URL building and the 2-second wait (src/app/api/places/search/route.ts:74-93, 144-159). The replies are inputs. The model assumes the environment supplies a reply for every request the loop can make.
- `Promise.all` concurrency (src/app/api/places/search/route.ts:142). The detail lookups are a sequence of replies aligned with the targets. The merge depends only on the results, not on completion order.
- Prisma (`createMany`). The table is a map from place identifier to row. `skipDuplicates` is modelled as "the first row with a new identifier is inserted, and every later row with a stored identifier is skipped". The other columns of the table are not part of this model.
- BulkSave.BulkSavePost: a store error is the input `storeFails`, and the table is then unchanged, because the insert is one statement. Partial writes are not modelled.
- NextAuth, OAuth and the Google provider. The session lookup `auth()` is the boolean `authenticated`. The middleware's `request.nextUrl.pathname` is a string.
- Logging. The `console.error` calls in the enrichment `catch` and the outer `catch` of the search handler (src/app/api/places/search/route.ts:177, 209), and in the `catch` of the bulk-save handler (src/app/api/leads/bulk-save/route.ts:60), have no effect on any answer and are not modelled.
- zod. Each schema is a predicate over parsed JSON, and its error details are not modelled.
- The React state hooks, the `fetch` calls of the page, its error messages, and the Blob/DOM download (src/app/search/page.tsx:42-72, 91-99, 102-124).
- Floating point. JSON numbers are reals. `Number(...)` on strings, arrays and objects is the parameter `numberOf`. `toString` of a rating is the parameter `numberText`. `toFixed(1)` in the table is not modelled.
- Text.Lower: lowercases ASCII letters only, because full Unicode `toLowerCase` is outside this model (for example, `İ` lowercases to two code points).
- `src/lib/env.ts`: loading and validating environment variables. The allow-list is computed from the raw `ALLOWED_EMAILS` string, and the API key is a parameter.
- Rendering-only files: `src/app/layout.tsx`, `src/app/signin/page.tsx`, `src/app/dashboard/page.tsx`, `src/app/leads/page.tsx` and `tailwind.config.ts`. Also the table markup of the search page, apart from the website cell.
- `undefined` and `null` are one value, `None`, wherever the code reads a value through `??`, optional chaining or a nullable column. The one place the code tells them apart is `enrich: z.boolean().optional().default(false)` (src/app/api/places/search/route.ts:12), which accepts a missing field and refuses `null`. The model keeps that difference at the JSON level: `PlacesRequest.IsOptionalBool` accepts a missing key and refuses `JNull`.
- Pagination.FetchPages: the request's `region`, `language` and `key` parameters are constant and are not recorded.
