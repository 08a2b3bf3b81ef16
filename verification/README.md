# Ledger queries and aggregation of the financial assistant

The financial assistant serves bank customers' ledgers, one customer per
request, through two front ends, which share the same query and aggregation rules:

- `server.js`, an Express HTTP API;
- `finance2.py`, a Streamlit script.

This project models the read-only core they share, as pure Dafny functions:

- **Store reads.** `getCustomer` / the login lookup return the customer row or
  nothing. `fetchTransactions` / `fetch_transactions` return the account's
  `(date, type, amount, description)` rows in store order. The
  `date BETWEEN start AND end` filter is added only when both bounds are
  truthy, i.e. present and non-empty. SQLite compares `TEXT` dates under the
  BINARY collation, which is lexicographic order on the characters
  (`Collation.LexLe`).
- **Aggregation.** The summary maps each transaction type to the sum of its
  amounts. Amounts are exact reals.
- **Rendering.**
  - The per-transaction line `date - type - $amount - description`.
  - Joining those lines with `\n`.
  - The "recent" suffix: `slice(-5)` / `[-5:]`.
  - The assistant prompt.
  - The two statement bodies. The Streamlit one has no balance line.

  Numbers reach the text through an abstract `fmt: real -> string`, standing
  for each host language's number-to-string conversion.
- **Use cases.** Each HTTP handler and each Streamlit feature is a function
  that returns a `Reply`: a tagged outcome plus the ordered log of effects it
  performed. The effects are the customer lookup, the transaction query, the
  call to the answering service and the mail handed to the sender.
  - The answering service and the mail sender are function parameters
    (`answer`, `send`).
  - The 30-day statement window is an input (`Server.Window`). The model does
    not read a clock.

The files:

| file | contents |
|---|---|
| `results.dfy` | `Option`, the failure kinds, `Reply` and the effect log |
| `collation.dfy` | BINARY collation order and its order laws |
| `lines.dfy` | joining with `\n` and splitting at `\n`, with their round trips |
| `ledger.dfy` | the store, the customer lookup and the transaction query |
| `summary.dfy` | the per-type summary and its totals |
| `render.dfy` | the transaction lines, the prompt and the statement bodies |
| `server.dfy` | the HTTP handlers |
| `streamlit.dfy` | the Streamlit login and the four features |
| `fixture.dfy` | the seed data both front ends insert at start-up, and what the handlers return on it |

Where the two front ends disagree, each is modelled as written, and lemmas
state the difference:

- **Statement body.** The Streamlit statement body has no `Current Balance`
  line (`Streamlit.StatementDiffersFromServer`).
- **Empty account number.** The Streamlit login looks up an empty account
  number, while the HTTP handler refuses it (`Streamlit.EmptyAccountNumber`).
- **Errors.** Streamlit reports a missing customer or a failed external call
  as an uncaught exception (`Unhandled`), not as a tagged failure.
- **Unknown account.** For an account without a customer row, the HTTP summary
  never looks the customer up: it is the summary of whatever rows carry that
  account number, which is the empty map when every transaction belongs to a
  known customer. The Streamlit summary fails
  (`Streamlit.UnknownAccountSummary`, `Streamlit.OwnedUnknownAccountSummary`).

The assistant prompt is the same text in both front ends:

- The Python template (finance2.py:115-127) and the JavaScript template
  literal (server.js:172-184) agree character for character, including the
  leading and trailing newline.
- The transaction line (finance2.py:146, server.js:170) is the same in both.
- The recent rows are the last five in both (`[-5:]`, `slice(-5)`).

The model therefore defines the prompt once (`Render.AskPrompt`, built by
`Server.AskPromptFor`), and `Streamlit.Ask` uses that definition.
`Streamlit.SamePromptAsServer` holds by construction: it says both front ends
read the same rows and send the same prompt.

## Model

| member | source | states |
|---|---|---|
| Ledger.GetCustomer | server.js:109-116 | The lookup returns nothing exactly when the account number has no customer row. Otherwise it returns the stored row for that account number, which carries the requested account number whenever the map is keyed by the primary key (`Keyed`, the schema's guarantee). |
| Ledger.Select | server.js:94-104 | The WHERE clause applied to the stored rows in store order, keeping at most as many rows as are stored. Its membership, multiplicity and order are stated by `Ledger.SelectMembers`, `Ledger.SelectCount` and `Ledger.SelectAppend`. |
| Ledger.FetchTransactions | server.js:92-107 | `fetchTransactions` / `fetch_transactions`: at most as many rows as are stored. When both bounds are truthy, every returned date lies between them, inclusive, in BINARY order. |
| Ledger.ProjectAll | server.js:94 | The SELECT list (also finance2.py:98) applied row by row, as `FetchTransactions` does; the JSON re-projection at server.js:215-220 leaves the rows unchanged: one row out per row in, in the same order, each holding the date, type, amount and description of its source row. |
| Ledger.SelectMembers | server.js:92-107 | A row is in the query result if and only if it is stored and satisfies the WHERE clause: same account number and, when both bounds are truthy, a date between them. |
| Ledger.SelectAppend | server.js:102-104 | The query keeps store order. On a store that is `a` followed by `b`, the result is the result on `a` followed by the result on `b`. |
| Ledger.SelectCount | server.js:94-104 | A matching row appears as many times as it is stored. A non-matching row never appears. |
| Ledger.FetchInRange | server.js:97-100 | With two non-empty bounds, the result is exactly the account's rows with `lo <= date <= hi` in BINARY order. |
| Ledger.NoRangeGivesHistory | server.js:97 | If either bound is missing or empty, no date filter applies and the result is the account's full history. |
| Ledger.OnlyOwnAccount | server.js:94-95 | Rows of other accounts never appear in a result. |
| Ledger.InclusiveBounds | server.js:98 | BETWEEN is inclusive at both ends: a row dated exactly `lo` or exactly `hi` is returned. |
| Ledger.InvertedRangeIsEmpty | server.js:98 | A range whose start sorts after its end returns no rows. |
| Ledger.UnknownAccountHasNoRows | server.js:94-104 | When every transaction belongs to a known customer (`Owned`, an assumption the schema does not enforce), an account without a customer row has no transactions under any range. |
| Collation.LexLe | server.js:98 | BINARY order on text. A prefix sorts at or before the longer text. Reflexivity, transitivity, antisymmetry and totality are proved by the `Collation.LexLe…` lemmas. |
| Collation.LexLeTransitive | server.js:98 | BINARY order on date text is transitive. |
| Collation.LexLeAntisymmetric | server.js:98 | BINARY order is antisymmetric: two texts that sort at or before each other are equal. |
| Collation.LexLeTotal | server.js:98 | Any two texts are comparable under BINARY order. |
| Collation.FirstDifference | server.js:98 | At the first differing position, the smaller character decides the order, strictly. |
| Lines.JoinLines | server.js:170 | `join('\n')`: no lines give the empty text. The first line is a prefix of the result, followed by a newline when more lines follow. Its inverse is `Lines.SplitLines`, by `Lines.SplitJoin` and `Lines.JoinSplit`. |
| Lines.SplitJoin | server.js:170 | Splitting the `\n`-join of newline-free lines at `\n` gives the lines back. |
| Lines.JoinSplit | server.js:170 | Joining the `\n`-split of any text with `\n` gives the text back. |
| Summary.Summarize | server.js:236-241 | The summary's keys are exactly the types present among the rows. Each key maps to the sum of the amounts of that type. |
| Summary.Accumulate | server.js:240 | One step of the summary loop, also at finance2.py:171. The row's type becomes a key if it was not one, and its value grows by the row's amount from its old value, or from 0 when new. Every other key keeps its value. |
| Summary.SummaryTotal | server.js:237-241 | The summary's values add up to the total amount of all rows, so accumulating never overwrites. |
| Summary.SummaryPermutation | server.js:239-241 | Two row sequences that are permutations of each other give the same summary: order does not matter. |
| Summary.EmptySummary | server.js:237 | No rows give the empty summary, not a mapping with zero-valued keys. |
| Summary.TypeTotalAppend | server.js:239-241 | A type's total over concatenated rows is the sum of its totals over the parts. |
| Render.TakeLast | server.js:169 | For `k > 0`, `slice(-k)` gives `min(k, n)` elements, and they are a suffix of the input. The model only uses `k = 5`. `TakeLast(s, 0)` is empty, whereas `slice(-0)` would return the whole array. |
| Render.TxLine | server.js:170 | One transaction as `date - type - $amount - description`: it starts with the date, and it is one line when its fields hold no newline. The same format is used at finance2.py:146 and server.js:273. |
| Render.TxText | server.js:170 | The transaction lines joined with newlines. The text is empty exactly when there are no rows, and otherwise starts with the first row's line. Its line structure is `Render.TxTextLines`. |
| Render.TxTextLines | server.js:170 | The transaction text has one line per row, in order, each of the form `date - type - $amount - description`. No rows give the empty text. |
| Render.AskPrompt | server.js:172-184 | The assistant prompt, which starts with a newline. Its full line structure is `Render.PromptLines`. |
| Render.PromptLines | server.js:172-184 | The prompt's lines are, in template order: a leading blank, the query heading, the query's lines, a blank, the customer heading, `Name:`, `Balance: $`, `Recent Transactions:`, the transaction text's lines, a blank, the response heading, the instruction line, and a trailing blank. |
| Render.ServerStatement | server.js:275-284 | The HTTP statement body, which starts with the `Hi name,` greeting. Its full line structure is `Render.ServerStatementLines`. |
| Render.StreamlitStatement | finance2.py:182 | The Streamlit statement body, which starts with the same greeting. Its full line structure is `Render.StreamlitStatementLines`. |
| Render.ServerStatementLines | server.js:273-284 | The HTTP statement's lines, in order: the greeting, the header, one line per row, `Current Balance: $…` and the signature, separated by the blank lines of the template. |
| Render.StreamlitStatementLines | finance2.py:181-182 | The Streamlit statement's lines: the same structure without the balance line. |
| Render.StatementsDifferByBalance | finance2.py:182 | The HTTP body's lines are the Streamlit body's lines, with a blank line and the balance line inserted before the signature. The two bodies are never equal. |
| Server.Login | server.js:126-152 | A falsy account number is refused as invalid input without touching the store. Otherwise there is one lookup, which succeeds if and only if the customer exists and then returns that customer's four fields. A missing customer is not-found with `Invalid account number`. |
| Server.Ask | server.js:155-166 | A missing or empty account number or query is refused as invalid input with no effects. An unknown customer is not-found after one lookup. |
| Server.AskKnownCustomer | server.js:163-199 | For a known customer, the effects are: lookup, full-history query, and exactly one answerer call with the rendered prompt. The reply is the answer, or an upstream failure `Failed to process query` when the answerer fails. |
| Server.AskCallsAnswererOnlyForCustomers | server.js:159-166 | The answerer is called only when both fields are truthy and the customer exists. |
| Server.AskPromptFor | server.js:168-184 | The prompt for a known customer: full history, `slice(-5)`, the transaction text and the template, also at finance2.py:145-147. It starts with a newline. Its content, line by line, is stated by `Server.AskPromptShowsRecentRows`. |
| Server.Respond | server.js:186-198 | Once the prompt is rendered, the answerer is called exactly once with it, after the lookup and the history query. Success replies with the answer text. A failing answerer gives the upstream failure `Failed to process query`. |
| Server.AskPromptShowsRecentRows | server.js:168-184 | The prompt shows the customer's name and balance and exactly the last `min(5, n)` rows of the `n`-row history, one per line, oldest first. Only the shown rows need single-line fields. |
| Server.ListTransactions | server.js:203-221 | A falsy account number is refused. Otherwise there is one query with the given bounds, and the reply lists the selected rows in order, projected to date, type, amount and description. |
| Server.SummaryByType | server.js:228-246 | A falsy account number is refused. Otherwise there is one full-history query; the keys are the history's types, and each value is that type's total. |
| Server.EmailStatement | server.js:253-302 | A falsy account number is refused, and an unknown customer is not-found. Mail is handed to the sender if and only if the customer exists; it goes to the customer's email with the fixed subject. Success is reported if and only if the sender succeeds; otherwise the reply is upstream failure `Failed to send email`. |
| Server.StatementMail | server.js:272-291 | The statement mail: it is addressed to the customer's email, with the fixed subject, and its body starts with the greeting. The body's lines are stated by `Server.StatementShowsWindowRows`. |
| Server.StatementShowsWindowRows | server.js:266-284 | The mailed body lists exactly the account's rows dated inside the window, in store order, framed by the greeting, header, balance and signature. |
| Server.InvalidInputTouchesNothing | server.js:130-259 | A falsy account number makes every handler reply without any lookup, query, answerer call or mail. The guards are at lines 130-132, 159-161, 207-209, 232-234 and 257-259. |
| Server.SummaryMatchesListing | server.js:236-241 | The values of the summary add up to the total of the listed history. |
| Streamlit.Login | finance2.py:75-86 | Verify looks up the entered text as it is. The session becomes authenticated for that account if and only if the customer exists; otherwise the session is unchanged and `Invalid account number.` is shown. |
| Streamlit.Ask | finance2.py:142-145 | An empty question does nothing beyond the customer lookup that every run makes (finance2.py:89-90). A missing customer row ends the run unhandled at `customer[0]`. |
| Streamlit.AskKnownCustomer | finance2.py:142-151 | For a known customer and a non-empty question, the full history is read and the prompt goes to the answerer once. On success, the question and the answer are appended to the conversation. When the answerer fails, the run ends unhandled, because `llm.invoke` raises and nothing catches it. |
| Streamlit.Converse | finance2.py:145-151 | Once the prompt is rendered, it goes to the answerer exactly once, after the lookup and the query of the history of `customer[0]`. On success, the question and then the answer are appended as a user and an ai message. When the answerer fails, the run ends unhandled. |
| Streamlit.AskCallsAnswererOnlyForCustomers | finance2.py:144-149 | The answerer is called only for a non-empty question from a known customer. |
| Streamlit.ListingLine | finance2.py:164 | One row of the range listing: a dash, then the date, type, `$`amount and description separated by bars. It is one line when the row's fields hold no newline. |
| Streamlit.RangeListing | finance2.py:154-164 | The listing is a heading followed by exactly one listing line per selected row, in order: a dash, then the date, type, `$`amount and description separated by bars. |
| Streamlit.SummaryByType | finance2.py:167-171 | The keys are the history's types, and each value is that type's total. |
| Streamlit.EmailStatement | finance2.py:177-184 | Mail is handed to the sender if and only if the customer exists, addressed to the customer's email. A sender failure is unhandled. |
| Streamlit.StatementMail | finance2.py:180-183 | The Streamlit statement mail: the same address, subject and greeting as the HTTP mail. How its body differs is stated by `Streamlit.StatementDiffersFromServer`. |
| Streamlit.SamePromptAsServer | finance2.py:145-149 | In any store keyed by account number (`Keyed`, so orphan transaction rows are allowed), given the same number formatter, both front ends perform the same reads and send the answerer the same prompt. |
| Streamlit.SameSummaryAsServer | finance2.py:168-171 | In any store keyed by account number (`Keyed`, so orphan transaction rows are allowed), both front ends compute the same summary for a known customer. |
| Streamlit.StatementDiffersFromServer | finance2.py:180-183 | Both statements go to the same address with the same subject and the same window of rows. The Streamlit body lacks the blank line and the balance line, so the bodies differ. |
| Streamlit.UnknownAccountSummary | finance2.py:167-171 | For an account without a customer row, in any store, the HTTP summary (server.js:236-246) does no lookup and is `Ok` with the summary of whatever rows carry that account number. The Streamlit feature fails unhandled at `customer[0]`. |
| Streamlit.OwnedUnknownAccountSummary | finance2.py:167-171 | When every transaction belongs to a known customer (`Owned`), the HTTP summary of an account without a customer row is the empty map, while the Streamlit feature still fails unhandled. |
| Streamlit.EmptyAccountNumber | finance2.py:76-85 | The HTTP login refuses an empty account number without a lookup. The Streamlit login looks it up and shows `Invalid account number.` when no customer has it. |
| Fixture.SeedIsValid | server.js:59-70 | The seed store is valid: it is keyed by account number, and every seeded transaction belongs to the seeded customer. |
| Fixture.SeedLogin | server.js:59-61 | On the seed, `1234567890` logs in as Sanjay S with balance 12500.75, and `unknown` is not-found. |
| Fixture.SeedHistoryRows | server.js:63-70 | On the seed, the history of `1234567890` is the six seeded rows, in insertion order. |
| Fixture.SeedSummary | server.js:63-70 | On the seed, the summary is Deposit 3250, Withdrawal 300, Transfer 500. |

## Left out

- HTTP plumbing: request parsing, status codes, JSON envelopes (`success: true`), CORS, `/health` and `app.listen`. The failure kind stands for the status code.
- Database setup and seeding: the store is an input. `fixture.dfy` states the seed as data.
- Store read errors and the 500 replies they cause: the store is a total map and a sequence, so reads cannot fail.
- The clock and date arithmetic for the 30-day window, including UTC (`toISOString`) versus local time (`datetime.today`): the window's two bounds are an input.
- Number formatting: `fmt` is abstract, and the `:,.2f` display of the Streamlit summary is not modelled.
- Floating point: amounts and balances are exact reals, so the summary sums exactly.
- Streamlit.SamePromptAsServer: assumes both front ends format numbers with the same `fmt`. JavaScript renders `1000` where Python renders `1000.0`, so the real prompts can differ in the amounts' text.
- Ledger.UnknownAccountHasNoRows: holds only under `Owned`, "every transaction belongs to a known customer", which the schema does not enforce. The `transactions` table declares no foreign key (server.js:44-52, finance2.py:31-39). So a row of an account without a customer can be stored, and `/api/transactions` would return it.
- Summary.Summarize: JavaScript object key quirks (a type named `__proto__`) and the key order of the summary object are not modelled. The summary is a map.
- Row order: the query has no `ORDER BY`, and the model takes store order to be insertion order, as SQLite's table scan gives.
- JavaScript truthiness of non-string JSON values, such as numbers, arrays or `false`: the request fields are optional strings.
- SQLite type affinity and comparisons across storage classes: dates are text, and amounts are numbers.
- The Streamlit user interface: widgets, the sidebar, the feature selector, the rendering of the conversation, `st.rerun` and `st.stop`. Each feature is a separate function, run for a session that is already authenticated.
- The mail's from-address, the SMTP credentials and transport, and the answering model's name and temperature.
- The transport's construction: server.js:83 calls `nodemailer.createTransporter`, but the factory nodemailer exports is named `createTransport`. As written, the module would throw when loaded, before the database is set up or the server listens. The model assumes a working sender.
- A Streamlit date range whose bounds come from date pickers is modelled as two given strings.
