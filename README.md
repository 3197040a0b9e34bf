# Oil SaaS API backend — a Dafny model of its request handlers

The backend is a small HTTP/JSON service for a marketing site: sign-up and
sign-in, blog posts, contact messages and pricing plans, each kept in a
document store collection ("userauth", "blogpost", "contactmessage",
"pricingplan"). This project models the decision logic of its handlers and
the shapes of its records, over an abstract in-memory store:

- `Schemas` — the four records with their field defaults, the example `User`
  record's age bound, and the dictionary form in which posts and plans are
  stored and returned.
- `DocStore` — the store the handlers talk to. It holds one sequence of
  records per collection, in insertion order, and a counter that supplies each
  new record's id. Its invariant `Store.Valid` says that an absent store (no
  database configured) holds nothing, and that ids are issued in increasing
  order, so no two records of a collection share one (`IdsDistinct`).
  `create_document` is one `Create…` method per collection. An equality query
  is `Where`; the `limit` of a query is `Take`.
- `Api` — the handlers. The ones that insert (`SignUp`, `CreateBlog`,
  `SubmitContact`, `GetPricing`) are methods that modify the store. The ones
  that only read take the collection they query: `SignIn` is a function,
  so it cannot change the store, and `ListBlogs` is a method with no
  `modifies` clause. The id-renaming loop shared by the two listing handlers
  is the method `ExposeIds`.
- `Wrappers` — `Option` and `Result`.

SHA-256 in hex is the parameter `h: Hasher`. A `Hasher` is any function from
strings to strings whose every output is 64 lower-case hex characters. All
token and password facts hold for every such function. The current time of
`create_blog` is the parameter `now`.

`Api.Consistent` collects what the handlers keep true when requests run one
at a time and every insert into a configured store succeeds. Emails are unique. Every post is published. Every message has
status "new". The plans are either absent or exactly the three seeded ones.
The empty store, where every store starts, satisfies it. Every inserting
handler ensures `old(Consistent(store)) ==> Consistent(store)`.

Two facts about the code that a reader might expect otherwise:
- `Pricingplan` puts no lower bound on its prices (schemas.py:90-91), so the
  model has none either. The three seeded plans do have non-negative prices
  (`DefaultPlansShape`).
- `Contactmessage.status` is a plain string with the default "new"; the three
  values it is meant to take appear only in a comment (schemas.py:82). The
  model keeps a string, and `IsContactStatus` names the three values.

## Model

| member | source | states |
|---|---|---|
| Schemas.ValidateAge | schemas.py:28 | an age is accepted exactly when it is absent or lies in 0..120 inclusive; an accepted age keeps its value |
| Schemas.UserDefaults | schemas.py:28-29 | `age` defaults to none and `is_active` to true |
| Schemas.UserauthDefaults | schemas.py:51-55 | `role` defaults to "user" and `company` to none |
| Schemas.BlogpostDefaults | schemas.py:62-70 | `tags` defaults to empty, `published` to true, and `published_at`, `excerpt` and `cover_image` to none |
| Schemas.ContactmessageDefaults | schemas.py:77-82 | `status` defaults to "new", which is one of the intended statuses "new", "read", "responded"; `company` and `subject` default to none |
| Schemas.PricingplanDefaults | schemas.py:89-93 | `most_popular` defaults to false |
| DocStore.IdOf | main.py:63 | an id is a non-empty string of decimal digits, one character long exactly for the first ten ids |
| DocStore.IdOfInjective | main.py:63 | two different serial numbers never give the same id string |
| DocStore.IdsDistinct | main.py:63 | in a collection whose serials increase, no two records share an id |
| DocStore.Raw | main.py:121 | a read document has all the stored fields plus `_id` holding the record's id, and nothing else |
| DocStore.Where | main.py:53 | a query returns only records of the collection that match the filter, and every matching record, never more records than the collection holds |
| DocStore.WhereAppend | main.py:75 | querying a collection that grew by one record gives the old answer, followed by the new record when it matches |
| DocStore.WhereFirst | main.py:78 | the first record a query returns is the earliest matching record of the collection |
| DocStore.Take | main.py:121 | a limited read returns a prefix of the full answer, of length `limit` or the whole answer when it is shorter |
| DocStore.Store.CreateUserauth | main.py:63 | with a store present, appends the user under a fresh id and returns that id; without one, fails and changes nothing |
| DocStore.Store.CreateBlogpost | main.py:116 | as above, for a post |
| DocStore.Store.CreateContactmessage | main.py:147 | as above, for a contact message |
| DocStore.Store.CreatePricingplan | main.py:178 | as above, for a plan |
| Api.HashPassword | main.py:48-49 | the password digest is 64 lower-case hex characters |
| Api.Token | main.py:70 | the token is 32 lower-case hex characters, and is a prefix of the digest of email followed by id |
| Api.Lower | main.py:104 | lower-casing keeps the length and maps each character on its own |
| Api.ReplaceSpaces | main.py:104 | replacing spaces keeps the length, turns each space into "-", and leaves every other character alone |
| Api.Slug | main.py:104 | the slug has the title's length, contains no space and no upper-case ASCII letter, and at each position holds "-" for a space or the lower-cased character |
| Api.SlugIs | main.py:104 | the slug is determined character by character by the title |
| Api.SlugHelloWorld | main.py:104 | "Hello World" becomes "hello-world" |
| Api.SlugDoubleSpace | main.py:104 | "A  B" becomes "a--b": each space is replaced on its own |
| Api.SlugIdempotent | main.py:104 | the slug of a slug is the slug itself |
| Api.CompanyOrNone | main.py:61 | the stored company is none exactly when none or the empty string was given, and otherwise is the given company |
| Api.UsersWithEmailAppend | main.py:53 | the email query on a collection that grew by one user gives the old answer, plus that user when the email matches |
| Api.UniqueEmailsAppend | main.py:53-63 | adding a user whose email the query did not find keeps emails unique |
| Api.SignIn | main.py:73-89 | fails with 404 exactly when no user has the email; fails with 401 exactly when the first such user's stored digest differs from the password's digest; otherwise answers with that user's id, name and company, the requested email, and the token of email and id; nothing else can happen |
| Api.SignInAfterSignUp | main.py:51-89 | after a sign-up with a new email, signing in with that email and password returns exactly the sign-up response, token included |
| Api.WrongPasswordAfterSignUp | main.py:79-80 | after a sign-up, signing in with a password of a different digest fails with 401 |
| Api.EmailTakenAfterSignUp | main.py:53-55 | after a sign-up, the email query finds the new user, so the email is taken |
| Api.EmptyStoreConsistent | main.py:51-182 | a store without records satisfies `Consistent`, the invariant the inserting handlers keep |
| Api.SignUp | main.py:51-71 | a registered email fails with 400 and changes nothing; otherwise exactly one user is appended, with the password's digest, role "user" and the company or none, and the response carries its id and the token of email and id; a later sign-in with the same credentials returns the same response; without a store it fails and changes nothing |
| Api.SignUpTwice | main.py:53-55 | when a first sign-up succeeds, a second one with the same email fails with 400 |
| Api.CreateBlog | main.py:102-117 | appends exactly one post, published, dated `now`, with the request's fields and the title's slug, and returns its id and the same slug; without a store it fails and changes nothing |
| Api.ExposeId | main.py:124 | the result has `id`, holding the text of the former `_id` (or ""), has no `_id`, and keeps every other field unchanged |
| Api.ExposeIds | main.py:123-124 | every document of the read is rewritten by `ExposeId`, in order |
| Api.ListBlogs | main.py:119-125 | returns the first min(`limit`, number published) published posts in store order, never more than `limit`, each with `published` true, with `id` holding its stored id and without `_id` |
| Api.SubmitContact | main.py:137-148 | appends exactly one message with the request's fields and status "new", and answers "ok" with its id; without a store it fails and changes nothing |
| Api.DefaultPlansShape | main.py:158-176 | the seed is Starter, Pro, Enterprise in that order; only Pro is most popular; no price is negative |
| Api.GetPricing | main.py:153-182 | on an empty collection with a store present, appends exactly the three seed plans under consecutive ids; otherwise inserts nothing; returns every plan, in order, with `id` holding its stored id and without `_id`; touches no other collection |
| Api.GetPricingAsWritten | main.py:154-157 | as written, a configured store makes the handler fail before any write; without one it returns an empty list |
| Api.PricingFindingWitness | main.py:156-157 | on a fresh configured store the handler as written fails, while the corrected handler returns three plans |

## Left out

- HTTP routing, CORS, the root message and the server start-up: framework plumbing, not decision logic.
- The `/test` diagnostic endpoint: it inspects the database and environment variables and formats exception text.
- The database adapter's own code is not part of this model. The abstract store stands in for it. Reads of an absent store return nothing and inserts into it fail; any fields the adapter itself may add to a record are not modelled.
- Store order: the model returns records in insertion order. The real store's native order is unspecified. Three handlers depend on it: `SignIn` (which user comes first), `ListBlogs` (which posts fall within `limit`, and the order of its items) and `GetPricing` (the order of the plans it returns).
- DocStore.IdOf: ids are decimal serial numbers, not the store's 24-character hex object ids. Only their freshness matters to the handlers.
- SHA-256 itself and the UTF-8 encoding before it: the digest is the parameter `h`.
- E-mail syntax validation and all other request-body validation: it happens before a handler runs, so the handlers receive requests that already passed it.
- Concurrency: the check-then-insert windows in sign-up and pricing seeding are outside a model that runs one request at a time. `Consistent` holds only under that assumption.
- DocStore.Store.CreateUserauth, DocStore.Store.CreateBlogpost, DocStore.Store.CreateContactmessage, DocStore.Store.CreatePricingplan: an insert into a configured store always succeeds in the model. The real store can fail an insert, and no handler catches that error, so it becomes a server error. `Consistent` assumes this too. If an insert failed part-way through the seeding loop, one or two plans would be left. Every later pricing call would then see a non-empty collection and never finish the seed, a state `Consistent` rules out.
- Floating-point prices: plan prices are whole numbers, used as data only.
- The example schemas `User` and `Product`: only `User.age`'s bound and `User`'s defaults are modelled, and `Product` not at all.
- Api.Lower, Api.Slug, Api.LowerChar: only ASCII letters are lower-cased. Python's `str.lower` also maps other letters, and for a few of them it changes the string's length.
- Api.ListBlogs: `limit` is a natural number, and the model truncates to it literally, so a limit of 0 answers `[]`. MongoDB reads a limit of 0 as no limit, so `GET /api/blog?limit=0` would most likely return every published post. Negative limits are not modelled.
- Api.ExposeId: `str()` is modelled only for what the store puts under `_id` (an object id or a string). It requires that `_id` is absent or holds one of those.
- Response-model validation of the handlers' return values by the web framework.

## Findings

| source | as written | input that shows it | evidently intended | confidence | as-written member | corrected member |
|---|---|---|---|---|---|---|
| main.py:156-157 | `count = db.pricingplan.count_documents({}) if db else 0` and `if count == 0 and db:` take the truth value of the database handle. The MongoDB driver's database object (PyMongo 4 and later) refuses truth testing with `NotImplementedError`. So with a database configured, every pricing request fails before counting and never seeds, and without one it returns an empty list. | any `GET /api/pricing` with a database configured | test `db is not None`: seed the three plans when the collection is empty and a store is present, then list them | medium: not executed; depends on the installed driver version, which is not part of this model | Api.GetPricingAsWritten | Api.GetPricing |
