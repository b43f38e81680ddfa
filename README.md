# PlyCraft storefront backend, modelled in Dafny

A model of the request handlers of the PlyCraft FastAPI backend, with proofs
about what they return. The four routers are written as Dafny functions on
values. The newsletter table, which the signup changes in place, is a class.
Network, mail, database and file access are replaced by parameters that say
what those calls did.

- `wrappers.dfy` (`Wrappers`): `Option`, `Result`, and the error a handler
  answers with. An `Error` is either a schema rejection made by the framework
  before the handler runs, or an `HttpError(status, detail)`.
- `text.dfy` (`Text`): the Python string operations the handlers use, with
  Python's meaning. It covers the `str.isspace()` whitespace set, `s[:n]`,
  `str.strip()`, `str.lower()` and `str.split()` with no separator.
- `chat.py` → `chat.dfy` (`Chat`):
  - the request schema and the empty-conversation 400;
  - the system primer injected when the conversation has no system message;
  - the last message cut to 400 characters;
  - the mock, fallback and success responses;
  - the body posted to the provider.
  What the provider did is an `Upstream` value: `Raised` (network error or
  timeout), or `Responded(status, body)`, where `body` is `None` when reading
  it raises.
- `products.py` → `products.dfy` (`Products`): the summary list and the
  first-match look-up by id, over a catalogue of JSON values given as a
  parameter. Both are functions of the catalogue, so neither can change it.
- `newsletter.py` → `newsletter.dfy` (`Newsletter`):
  - The signup as `SignupOn`, a function on table values.
  - The table as the class `SignupStore`, whose `Signup` method is proved to
    produce exactly `SignupOn`'s outcome and to keep the table invariant.
    The invariant is that ids grow and emails are unique.
  - Where the store fails inside the handler's `try` block is a `Fault`: the
    pre-check query, the commit, or the refresh after the commit.
- `contact.py` → `contact.dfy` (`Contact`):
  - the default subject and the exact body text;
  - the mail headers;
  - the order of `send_mail`'s checks: the port, then the credentials, then
    the header values, which may not hold an inner line break, then the send;
  - the endpoint's mapping of every send failure to a 500.

The handler's duplicate check and the table's unique constraint compare
different strings. The pre-check compares the email as the handler receives
it (app/routers/newsletter.py:57), but the stored email is stripped and
lowered (app/routers/newsletter.py:64). `EmailStr` has already stripped the
address and lowered its domain, so the two differ only when the local part
holds a capital letter (`Newsletter.OnlyLocalCaseVariants`). Such a variant
of a stored address passes the pre-check and fails on the unique
constraint, which the handler answers with 500 "Failed to save signup"
rather than the 400 "Email already signed up" that the pre-check evidently
means to give. `Newsletter.VariantHitsConstraint` states this and
`Newsletter.CaseVariantExample` shows one instance.

app/main.py mounts the products, newsletter and contact routers, but not
the chat router. The chat endpoint is modelled as if it were mounted.

## Model

| member | source | states |
|---|---|---|
| Text.Prefix | app/routers/chat.py:51 | `s[:n]` is a prefix of `s` whose length is the smaller of `n` and the length of `s` |
| Text.Strip | app/routers/chat.py:85 | the result has no whitespace at either end, `s` is the result with only whitespace around it, and the result is empty exactly when `s` is all whitespace |
| Text.StripUnique | app/routers/newsletter.py:62-64 | any trimmed string that `s` holds with only whitespace around it is `strip()` of `s`, so the contract of `Strip` determines its result |
| Text.StripIdempotent | app/routers/newsletter.py:62-64 | stripping twice gives the same result as stripping once |
| Text.Lower | app/routers/newsletter.py:64 | the length is kept, no capital letter is left, every capital becomes its small letter, and every other character is kept |
| Text.Words | app/routers/chat.py:56 | every word `split()` yields is non-empty and holds no whitespace; the lemmas below fix which words they are |
| Text.WordsOfSpace | app/routers/chat.py:56 | an all-whitespace string has no words |
| Text.WordsOfWord | app/routers/chat.py:56 | a non-empty string without whitespace is its only word |
| Text.WordsAppendSpace | app/routers/chat.py:56 | when `b` is empty or starts with whitespace, the words of `a + b` are the words of `a` followed by the words of `b` |
| Text.WordsAtSpace | app/routers/chat.py:56 | `split()` distributes over every cut next to whitespace; with the two lemmas above this determines the words of every string, its maximal whitespace-free runs in order |
| Text.WordsAppend | app/routers/chat.py:56 | when `a` is empty or ends in whitespace, the words of `a + b` are the words of `a` followed by the words of `b` |
| Text.WordThenSpace | app/routers/chat.py:56 | a word followed by a space contributes exactly that word, followed by the words of the rest |
| Text.SpacedWords | app/routers/chat.py:55 | a space and then two words, each followed by a space, contribute exactly those two words |
| Chat.ParseRole | app/routers/chat.py:17 | a role is accepted exactly when it is "user", "assistant" or "system", and the accepted role has that name |
| Chat.ParseMessages | app/routers/chat.py:16-21 | the list is accepted exactly when every role matches; each accepted message keeps its role name and content, in order |
| Chat.ParseRequest | app/routers/chat.py:20-22 | a request is accepted exactly when all roles match, with its messages in order; `max_tokens` is the one given or 256; any other request is a schema rejection |
| Chat.AnySystem | app/routers/chat.py:48 | true exactly when some message has the system role |
| Chat.ProviderMessages | app/routers/chat.py:47-49 | the forwarded list ends with the input, in order; it is one longer, with the primer first, exactly when the input has no system message; and it always holds a system message |
| Chat.ProviderMessagesIdempotent | app/routers/chat.py:47-49 | forwarding an already forwarded list adds nothing |
| Chat.LastUser | app/routers/chat.py:51 | the result is a prefix of the final message's content, whatever its role, with length equal to the smaller of 400 and that content's length |
| Chat.Decide | app/routers/chat.py:42-64 | the handler refuses the request exactly when the list is empty, with 400 "messages cannot be empty", whether or not a key is set; otherwise it answers locally without a key, and forwards the list with the primer injected when there is a key |
| Chat.ForwardedRequest | app/routers/chat.py:51-64 | with a key, the body posted carries the model id, the forwarded list, the caller's `max_tokens` and the fixed temperature, and the cut text comes from the input before the primer is added |
| Chat.SuccessReply | app/routers/chat.py:81-85 | the reply of a successful call has no whitespace at either end |
| Chat.ChatEndpoint | app/routers/chat.py:39-89 | the only error is the empty conversation, answered with 400 "messages cannot be empty"; every other request gets a response, whatever the provider does |
| Chat.YouSaidWords | app/routers/chat.py:55 | " You said: " ahead of `x` contributes exactly the words "You" and "said:" before the words of `x` |
| Chat.CannedWords | app/routers/chat.py:56 | a reply made of a one-word label, " You said: " and `x` has three more `split()` words than `x` |
| Chat.MockWithoutKey | app/routers/chat.py:54-56 | without a key the reply is "(Mock) You said: " plus the cut last message, the usage is three more than that text's word count, the label is "mock", and the provider's behaviour does not change the answer |
| Chat.EndpointForwards | app/routers/chat.py:66-89 | with a key and a non-empty list, the answer is what the provider's outcome makes of the cut last message |
| Chat.FallbackCount | app/routers/chat.py:78-79 | the fallback reply is "(Fallback) You said: " plus the text, its usage is three more than the text's word count, and its label is "fallback-mock" |
| Chat.FallbackOnFailure | app/routers/chat.py:76-89 | a status of 400 or more, whatever the body, gives the same response as a raised exception: the fallback text, its word count and "fallback-mock" |
| Chat.UnreadableBodyFallsBack | app/routers/chat.py:80-89 | a body that raises when read gives the same response as a failed call |
| Chat.SuccessShape | app/routers/chat.py:80-85 | on success with non-empty content, the reply is the stripped content, the usage is `total_tokens` as given (or none), and the label is "gpt-4o-mini" |
| Chat.SuccessApology | app/routers/chat.py:81-85 | when there are no choices, or the content is missing or empty, the reply is the apology, unchanged by `strip()` |
| Chat.ApologyIsStripped | app/routers/chat.py:82 | `strip()` leaves the apology text as it is |
| Chat.WhitespaceContentIsEmpty | app/routers/chat.py:82-85 | content made only of whitespace is not replaced by the apology; the reply is "" |
| Chat.HasKey | app/routers/chat.py:54 | `if not OPENAI_API_KEY`: a key counts as set exactly when it is present and non-empty; `Chat.Decide` and `Chat.ResponseLabels` state that the mock answers exactly when it is not set |
| Chat.FirstContent | app/routers/chat.py:81-82 | the content of the first choice's message, or none when the choices are empty or the message or content is missing or falsy; `Chat.SuccessShape` and `Chat.SuccessApology` state the reply made from it |
| Chat.Canned | app/routers/chat.py:55-56 | a local reply: the prefix followed by the cut text, its `split()` word count as usage, and the given label; `Chat.CannedWords` states the count is three more than the words of the text |
| Chat.MockResponse | app/routers/chat.py:55-56 | the canned reply with "(Mock) You said: " and the label "mock"; `Chat.MockWithoutKey` states its text, usage and label |
| Chat.FallbackResponse | app/routers/chat.py:78-79 | the canned reply with "(Fallback) You said: " and the label "fallback-mock", built the same way at lines 88-89; `Chat.FallbackCount` states its text, usage and label |
| Chat.HandleUpstream | app/routers/chat.py:66-89 | the answer after the provider call: the fallback when the call raises, the status is 400 or more, or the body cannot be read, and otherwise the stripped first content with `total_tokens` and the model id; `Chat.FallbackOnFailure`, `Chat.UnreadableBodyFallsBack`, `Chat.SuccessShape` and `Chat.SuccessApology` state each branch, and `Chat.EndpointForwards` ties it to the endpoint |
| Chat.ResponseLabels | app/routers/chat.py:54-89 | every non-empty request gets a response labelled "mock", "fallback-mock" or "gpt-4o-mini", and the label is "mock" exactly when no key is set |
| Products.EqualsInt | app/routers/products.py:30 | Python's `v == n` for an int `n`: an int by value, `true` and `false` as 1 and 0, anything else never; `Products.TrueIdMatchesOne` states the bool case |
| Products.HasId | app/routers/products.py:30 | `product.get("id") == product_id`: the record has an id that equals the requested one; `Products.RecordWithoutIdNeverMatches` states that a record without an id never matches, and `Products.GetProduct` that the first matching record is returned |
| Products.Summary | app/routers/products.py:12-17 | an entry holds exactly id, title, category and image, each copied from the record |
| Products.ListProducts | app/routers/products.py:7-21 | the list succeeds exactly when every record has the four fields, and then has one entry per record, in catalogue order, with exactly those fields copied; otherwise the answer is a 500 |
| Products.GetProduct | app/routers/products.py:25-33 | the result is the first record in catalogue order whose id equals the requested one, unmodified; it is 404 "Product not found" exactly when no record's id matches |
| Products.RecordWithoutIdNeverMatches | app/routers/products.py:30 | records without an id field never match, so a catalogue of such records answers 404 |
| Products.TrueIdMatchesOne | app/routers/products.py:30 | a JSON `true` id equals product id 1, as Python's `==` makes it |
| Products.LookupCommutesWithSummary | app/routers/products.py:11-31 | looking up an id in the list gives the summary of the catalogue record found, or the same 404 |
| Newsletter.NormalizeEmail | app/routers/newsletter.py:64 | `email.strip().lower()`; `Newsletter.OnlyLocalCaseVariants` states which emails it changes and `Newsletter.NormalizeExample` shows one |
| Newsletter.NewRow | app/routers/newsletter.py:61-65 | the row built for a signup: both names stripped and the email normalised; `Newsletter.SignupSuccess` states that exactly this row is the one appended |
| Newsletter.SignupOn | app/routers/newsletter.py:49-77 | the signup on a table value, checking in the source's order: the configured store, the pre-check query, the exact duplicate, the commit and its unique constraint, then the refresh; `Newsletter.SignupKeepsConsistent`, `Newsletter.SignupSucceedsIff`, `Newsletter.FailureLeavesTable` and the lemmas below state its answers and tables, and `Newsletter.SignupStore.Signup` is proved equal to it |
| Newsletter.SignupKeepsConsistent | app/routers/newsletter.py:25-28 | every signup, whatever fails, keeps the table invariant: ids grow in insertion order and stay below the next id, and emails are distinct |
| Newsletter.SignupSuccess | app/routers/newsletter.py:61-69 | a committed signup appends exactly one row, holding the stripped names and the stripped, lowered email, under an id that differs from every earlier id; earlier rows are unchanged; a successful answer is that id |
| Newsletter.SignupSucceedsIff | app/routers/newsletter.py:50-75 | a signup succeeds exactly when the store is configured, neither the submitted nor the normalised email is stored, and neither the query, the commit nor the refresh fails |
| Newsletter.FailureLeavesTable | app/routers/newsletter.py:66-75 | the table changes exactly when a row was committed; every failure before the commit rolls back to the table as it was |
| Newsletter.RefreshFailureKeepsRow | app/routers/newsletter.py:67-75 | a refresh that fails after the commit answers 500 "Failed to save signup" although the row stays stored |
| Newsletter.QueryFailureIs500 | app/routers/newsletter.py:55-75 | a failing pre-check query answers 500 "Failed to save signup", even for an email stored exactly as submitted, and changes nothing |
| Newsletter.UnconfiguredStore | app/routers/newsletter.py:51-52 | an unconfigured store answers 500 "Database not configured" and leaves the table alone |
| Newsletter.ExactDuplicateRejected | app/routers/newsletter.py:57-59 | when the query works, an email stored exactly as submitted gives 400 "Email already signed up", and the table is unchanged |
| Newsletter.VariantHitsConstraint | app/routers/newsletter.py:57-75 | an email that only its normalisation makes a duplicate passes the pre-check, and then gives 500 "Failed to save signup" with the table unchanged, whatever else fails |
| Newsletter.OnlyLocalCaseVariants | app/routers/newsletter.py:35 | for an email in the form `EmailStr` gives it (stripped, domain lowered), normalisation is lowering, and it changes the email only when a capital letter stands before the last "@" |
| Newsletter.NoDuplicateRow | app/routers/newsletter.py:28 | when the normalised email is already stored, no row is added, whatever else holds |
| Newsletter.CaseVariantExample | app/routers/newsletter.py:57-75 | with "ann@x.io" stored, signing up as "Ann@x.io" gives 500, not 400 |
| Newsletter.NormalizeExample | app/routers/newsletter.py:64 | "Ann@x.io" normalises to "ann@x.io" |
| Newsletter.StripExample | app/routers/newsletter.py:64 | `strip()` keeps "Ann@x.io" as it is |
| Newsletter.SignupStore.constructor | app/routers/newsletter.py:38-41 | a new store holds an empty table whose first id is 1, which satisfies the invariant |
| Newsletter.SignupStore.FindByEmail | app/routers/newsletter.py:57 | the query finds a stored row with exactly that email, and finds none exactly when no such row exists |
| Newsletter.SignupStore.Insert | app/routers/newsletter.py:66-67 | the commit fails exactly on a store failure or on an email that is already stored, and then changes nothing; otherwise the row is appended under the next id, the next id grows by one, and the invariant holds |
| Newsletter.SignupStore.Signup | app/routers/newsletter.py:49-77 | for every fault, the answer and the new table are exactly `SignupOn` of the old table, and the invariant is kept |
| Contact.MeetsMinLengths | app/routers/contact.py:14-20 | the schema's `min_length=1` on first name, last name and message; `Contact.ContactSend` states that a form failing it is a schema rejection |
| Contact.Subject | app/routers/contact.py:51 | the submitted subject, or "New contact message from PlyCraft" when it is missing or empty; `Contact.DeliveredMail` states the delivered mail carries it |
| Contact.Body | app/routers/contact.py:52-58 | the five adjacent f-strings of the body; `Contact.BodyIsItsLines` and `Contact.BodyReadsBack` state that it is its seven lines |
| Contact.HasCredentials | app/routers/contact.py:29 | `username and password`: both present and non-empty; `Contact.SendMail` and `Contact.CredentialGate` state that without them nothing is sent |
| Contact.HeaderSafe | app/routers/contact.py:34-38 | `len(v.splitlines()) <= 1`: a line break may only end the value, a final "\r\n" counting as one; `Contact.BreakInside` and `Contact.SubjectLineBreakExamples` state which values fail, and `Contact.SendMail` that a failing From, To or Subject value raises before the session |
| Contact.OrDefault | app/routers/contact.py:51 | `x or default`: a missing or empty string gives the default, any other string is kept |
| Contact.BodyIsItsLines | app/routers/contact.py:52-58 | the body is its seven lines, each followed by a newline: name, email, phone, product, a blank line, "Message:" and the message |
| Contact.SplitJoin | app/routers/contact.py:52-58 | when no line holds a newline, splitting the joined lines at newlines gives the lines back |
| Contact.BodyReadsBack | app/routers/contact.py:52-58 | when no field holds a newline, the body reads back as exactly its seven lines, in order |
| Contact.OmittedFieldsShowDash | app/routers/contact.py:55-56 | a missing or empty phone or product shows as "-" in its line |
| Contact.SendMail | app/routers/contact.py:23-44 | a mail is sent exactly when the port reads, both credentials are present and non-empty, the From, To and Subject values hold no inner line break, and the session delivers; From and Reply-To are the submitter, To is the inbox, and the subject and body are kept; otherwise the error is, in this order, the port's error text, "SMTP credentials are not configured", the header `ValueError` text for an inner line break in From, To or Subject, or the failed session's own error text |
| Contact.ContactSend | app/routers/contact.py:47-65 | the schema rejects a form with an empty first name, last name or message; otherwise a sent mail is the answer, and every send failure is a 500 whose detail is that failure's error text, so an unreadable port gives its error text and an inner line break in the submitter's email, the inbox or the subject gives the header `ValueError` text |
| Contact.DeliveredMail | app/routers/contact.py:34-62 | when the header values are single lines, a delivered mail is from the submitter, takes replies back to the submitter, and goes to the configured inbox; it carries the given subject, or the default when none or an empty one is given, and the seven-line body |
| Contact.CredentialGate | app/routers/contact.py:29-30 | missing credentials give 500 "SMTP credentials are not configured", whatever the session would have done |
| Contact.SubjectLineBreakIs500 | app/routers/contact.py:38 | a subject with a line break before its end makes setting the header raise, and the answer is 500 with that error's text, whatever the session would have done |
| Contact.BreakInside | app/routers/contact.py:34-38 | a line break that does not end a header value makes the value unsafe |
| Contact.SubjectLineBreakExamples | app/routers/contact.py:38 | "Hi\nthere" is refused as a header value, while "Hi\n" and "Hi\r\n" are accepted, as `splitlines()` counts them |
| Contact.DeliveryFailureIs500 | app/routers/contact.py:64-65 | with single-line header values, a failed session gives 500 with the session's error text as the detail |

## Left out

- Text.Lower: models `str.lower()` on ASCII capitals only. Python also lowers every other cased Unicode letter, and this model keeps such letters unchanged.
- Strings are sequences of Unicode scalar values. A Python string can also hold lone surrogate code points, which a Dafny `char` cannot be.
- The HTTP call to the provider is abstracted into `Upstream` because it is network I/O through the `httpx` library. So are the 40-second timeout, the bearer header, `r.json()` and the dictionary walk over its result. Any exception in the walk, or in building the `ChatResponse`, is `Responded(status, None)`. Examples are `usage: null`, a truthy message or content that is not of the expected type, and a `total_tokens` that `ChatResponse` cannot coerce to an int (a fraction, a non-numeric string, a list or an object). A `total_tokens` that Pydantic's lax `int` does coerce, such as `"12"`, `12.0` or `true`, is given in `totalTokens` as that int (12, 12 or 1).
- Chat.FirstContent: a missing or falsy `choices` is given as `[]`. A missing or falsy message and content are given as `None`, for example null, `0`, `false`, `[]` or `{}`. These stand in for the `or [{}]`, `or {}` and `or` apology defaults.
- The temperature 0.7 is carried as the integer 7 tenths, because floating point is not modelled and the value is only sent on.
- The log lines, `async`/`await` and the framework's request and response plumbing are left out. The shape of the framework's 422 body for a schema rejection is left out too.
- Chat.ParseRequest: `max_tokens` is taken as a given integer. Pydantic's coercion of other JSON values to `int` is not modelled.
- Products: JSON numbers other than integers (floats) are not modelled. A catalogue that is not a list of objects is not modelled either.
- Products: the parsing of the path parameter `product_id` as `int` is not modelled.
- Products: reading and decoding `app/data/products.json` on each request is left out. The catalogue is a parameter.
- Newsletter: SQLAlchemy's engine, session, `refresh` and table creation are replaced by `SignupStore`. `created_at` timestamps and the length limits of the string columns are left out.
- Newsletter: the export endpoint (`/newsletter/export`, app/routers/newsletter.py:81-111) writes a JSON file and formats timestamps. That is file I/O and library formatting, so it is not part of this model.
- Newsletter.SignupStore.Insert: keeps the next id unchanged when a commit fails. A database sequence may consume an id on a failed insert, so real ids can have gaps.
- Newsletter: both comparisons of emails, the pre-check's SQL `==` (app/routers/newsletter.py:57) and the unique constraint, are taken as exact, as under a case-sensitive collation. Under a case-insensitive collation the pre-check would already catch a case variant and answer 400, so `Newsletter.VariantHitsConstraint` and `Newsletter.CaseVariantExample` describe the case-sensitive setting only.
- Newsletter: the module raises `RuntimeError` at import when `DATABASE_URL` is unset (app/routers/newsletter.py:16-17). So in practice the store is always configured, and the unconfigured guard is reachable only in this model.
- Newsletter: the race between the pre-check and the insert under concurrent signups is not modelled, because concurrency is not modelled.
- `EmailStr` comes from the email-validator library, so it is not modelled. It does more than validate: it strips the address, lowers its domain and may extract it from a "Name <address>" form. The model takes each email as the string the handler receives. Only `Newsletter.OnlyLocalCaseVariants` assumes the stripped, domain-lowered form, written `Validated`; to the rest of the model an email is any string.
- Environment variables are parameters: the API key, the database URL and the SMTP settings (`MAIL_TO`, host, port, username and password). An unset `MAIL_TO` is not modelled separately.
- Contact: the SMTP session is abstracted into `Delivery`. That covers connect, STARTTLS, login and send.
- Contact: `EmailMessage`'s encoding of headers and body is left out. Its parsing of address headers is not modelled beyond the line-break test.
- Contact: `int(os.getenv("SMTP_PORT"))` is abstracted into `Port`, a number or the error text `int()` raises. The text of that error is not modelled.
