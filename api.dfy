/**
 * The request handlers of the HTTP API: sign-up and sign-in, blog create and
 * list, contact submission and pricing. Handlers that insert records are
 * methods over a `Store`; handlers that only read take the collection they
 * query. The digest (SHA-256 as hex) is a parameter `h`, never inspected.
 */
module Api {
  import opened Wrappers
  import opened Schemas
  import opened DocStore

  // ---------------------------------------------------------------------------
  // Digests and tokens
  // ---------------------------------------------------------------------------

  const DigestLength := 64
  const TokenLength := 32

  predicate IsLowerHex(s: string) {
    forall i :: 0 <= i < |s| ==> s[i] in "0123456789abcdef"
  }

  /** A hex digest: 64 lower-case hex characters. */
  type Digest = s: string | |s| == 64 && IsLowerHex(s) witness seq(64, _ => '0')

  /** A hex digest function, such as SHA-256 written out in hex. */
  type Hasher = string -> Digest

  /** `hash_password`: the hex digest of the password. */
  function HashPassword(h: Hasher, pw: string): (r: string)
    ensures |r| == DigestLength
    ensures IsLowerHex(r)
  {
    h(pw)
  }

  /** The demo token: the first 32 characters of the digest of email followed by id. */
  function Token(h: Hasher, email: string, id: string): (t: string)
    ensures |t| == TokenLength
    ensures IsLowerHex(t)
    ensures t <= HashPassword(h, email + id)
  {
    HashPassword(h, email + id)[..TokenLength]
  }

  // ---------------------------------------------------------------------------
  // Slugs
  // ---------------------------------------------------------------------------

  /** `str.lower` on one character, for the ASCII letters. */
  function LowerChar(c: char): char {
    if 'A' <= c <= 'Z' then (c as int - 'A' as int + 'a' as int) as char else c
  }

  /** `s.lower()`, character by character. */
  function Lower(s: string): (r: string)
    ensures |r| == |s|
    ensures forall i :: 0 <= i < |s| ==> r[i] == LowerChar(s[i])
  {
    if s == [] then [] else [LowerChar(s[0])] + Lower(s[1..])
  }

  /** `s.replace(" ", "-")`. */
  function ReplaceSpaces(s: string): (r: string)
    ensures |r| == |s|
    ensures forall i :: 0 <= i < |s| ==> r[i] == (if s[i] == ' ' then '-' else s[i])
  {
    if s == [] then [] else [if s[0] == ' ' then '-' else s[0]] + ReplaceSpaces(s[1..])
  }

  /** The slug of a blog title: lower-cased, each space replaced by a hyphen. */
  function Slug(title: string): (r: string)
    ensures |r| == |title|
    ensures ' ' !in r
    ensures forall i :: 0 <= i < |r| ==> !('A' <= r[i] <= 'Z')
    ensures forall i :: 0 <= i < |title| ==>
              r[i] == (if title[i] == ' ' then '-' else LowerChar(title[i]))
  {
    ReplaceSpaces(Lower(title))
  }

  /** The slug of `title` is `s` when `s` agrees with it character by character. */
  lemma SlugIs(title: string, s: string)
    requires |s| == |title|
    requires forall i :: 0 <= i < |title| ==> s[i] == (if title[i] == ' ' then '-' else LowerChar(title[i]))
    ensures Slug(title) == s
  {
  }

  lemma SlugHelloWorld()
    ensures Slug("Hello World") == "hello-world"
  {
    var t := "Hello World";
    assert t[0] == 'H' && t[1] == 'e' && t[2] == 'l' && t[3] == 'l' && t[4] == 'o' && t[5] == ' ';
    assert t[6] == 'W' && t[7] == 'o' && t[8] == 'r' && t[9] == 'l' && t[10] == 'd';
    SlugIs(t, "hello-world");
  }

  /** Each space is replaced on its own: two spaces give two hyphens. */
  lemma SlugDoubleSpace()
    ensures Slug("A  B") == "a--b"
  {
  }

  /** A slug is its own slug. */
  lemma SlugIdempotent(title: string)
    ensures Slug(Slug(title)) == Slug(title)
  {
  }

  // ---------------------------------------------------------------------------
  // Requests, responses and errors
  // ---------------------------------------------------------------------------

  datatype SignUpRequest = SignUpRequest(name: string, email: string, password: string, company: Option<string> := None)
  datatype SignInRequest = SignInRequest(email: string, password: string)
  datatype AuthResponse = AuthResponse(userId: string, name: string, email: string, company: Option<string>, token: string)

  datatype BlogCreate = BlogCreate(
    title: string,
    excerpt: Option<string> := None,
    content: string,
    author: string,
    tags: seq<string> := [],
    coverImage: Option<string> := None)
  datatype BlogCreated = BlogCreated(id: string, slug: string)

  datatype ContactRequest = ContactRequest(
    name: string,
    email: string,
    company: Option<string> := None,
    subject: Option<string> := None,
    message: string)
  datatype ContactAck = ContactAck(status: string, id: string)

  /** An HTTP error raised by a handler, or a store failure surfacing as a server error. */
  datatype ApiError = HttpError(code: nat, detail: string) | ServerError

  const EmailTaken := HttpError(400, "Email already registered")
  const UserNotFound := HttpError(404, "User not found")
  const InvalidCredentials := HttpError(401, "Invalid credentials")

  // ---------------------------------------------------------------------------
  // Authentication
  // ---------------------------------------------------------------------------

  /** Python's `company or None`: an empty company counts as none. */
  function CompanyOrNone(c: Option<string>): (r: Option<string>)
    ensures r.None? <==> (c.None? || c == Some(""))
    ensures r.Some? ==> r == c
  {
    if c == Some("") then None else c
  }

  /** The record sign-up stores for a request. */
  function NewUserauth(h: Hasher, req: SignUpRequest): Userauth {
    Userauth(req.name, req.email, HashPassword(h, req.password), CompanyOrNone(req.company))
  }

  /** The response both authentication handlers build from a stored user. */
  function AuthResponseFor(h: Hasher, u: Stored<Userauth>): AuthResponse {
    AuthResponse(u.Id(), u.rec.name, u.rec.email, u.rec.company, Token(h, u.rec.email, u.Id()))
  }

  function EmailIs(email: string): Userauth -> bool {
    (u: Userauth) => u.email == email
  }

  /** The query `{"email": email}` on the "userauth" collection. */
  function UsersWithEmail(users: seq<Stored<Userauth>>, email: string): seq<Stored<Userauth>> {
    Where(users, EmailIs(email))
  }

  lemma UsersWithEmailAppend(users: seq<Stored<Userauth>>, x: Stored<Userauth>, email: string)
    ensures UsersWithEmail(users + [x], email)
            == UsersWithEmail(users, email) + (if x.rec.email == email then [x] else [])
  {
    WhereAppend(users, x, EmailIs(email));
  }

  /**
   * Sign-in: the first user with the email, if its stored digest matches the
   * digest of the password. It reads the collection and changes nothing.
   */
  function SignIn(users: seq<Stored<Userauth>>, h: Hasher, req: SignInRequest): (r: Result<AuthResponse, ApiError>)
    ensures r.Ok? || r == Err(UserNotFound) || r == Err(InvalidCredentials)
    ensures r == Err(UserNotFound) <==> UsersWithEmail(users, req.email) == []
    ensures r == Err(InvalidCredentials) <==>
              UsersWithEmail(users, req.email) != []
              && UsersWithEmail(users, req.email)[0].rec.passwordHash != HashPassword(h, req.password)
    ensures r.Ok? ==>
              var u := UsersWithEmail(users, req.email)[0];
              && u in users
              && u.rec.email == req.email
              && u.rec.passwordHash == HashPassword(h, req.password)
              && r.value.userId == u.Id()
              && r.value.name == u.rec.name
              && r.value.email == req.email
              && r.value.company == u.rec.company
              && r.value.token == Token(h, req.email, r.value.userId)
  {
    var found := UsersWithEmail(users, req.email);
    if found == [] then Err(UserNotFound)
    else if found[0].rec.passwordHash != HashPassword(h, req.password) then Err(InvalidCredentials)
    else Ok(AuthResponseFor(h, found[0]))
  }

  /** Once an email is registered, signing in with the sign-up password returns the sign-up response. */
  lemma SignInAfterSignUp(users: seq<Stored<Userauth>>, h: Hasher, req: SignUpRequest, serial: nat)
    requires UsersWithEmail(users, req.email) == []
    ensures SignIn(users + [Stored(serial, NewUserauth(h, req))], h, SignInRequest(req.email, req.password))
            == Ok(AuthResponseFor(h, Stored(serial, NewUserauth(h, req))))
  {
    UsersWithEmailAppend(users, Stored(serial, NewUserauth(h, req)), req.email);
  }

  /** Once an email is registered, a password with a different digest is refused. */
  lemma WrongPasswordAfterSignUp(users: seq<Stored<Userauth>>, h: Hasher, req: SignUpRequest, serial: nat, password: string)
    requires UsersWithEmail(users, req.email) == []
    requires HashPassword(h, password) != HashPassword(h, req.password)
    ensures SignIn(users + [Stored(serial, NewUserauth(h, req))], h, SignInRequest(req.email, password))
            == Err(InvalidCredentials)
  {
    UsersWithEmailAppend(users, Stored(serial, NewUserauth(h, req)), req.email);
  }

  /** Once an email is registered, it is taken for every later sign-up. */
  lemma EmailTakenAfterSignUp(users: seq<Stored<Userauth>>, h: Hasher, req: SignUpRequest, serial: nat)
    ensures UsersWithEmail(users + [Stored(serial, NewUserauth(h, req))], req.email) != []
  {
    UsersWithEmailAppend(users, Stored(serial, NewUserauth(h, req)), req.email);
  }

  /** No two users share an email. */
  ghost predicate UniqueEmails(users: seq<Stored<Userauth>>) {
    forall i, j :: 0 <= i < j < |users| ==> users[i].rec.email != users[j].rec.email
  }

  /** Adding a user whose email is not yet registered keeps emails unique. */
  lemma UniqueEmailsAppend(users: seq<Stored<Userauth>>, x: Stored<Userauth>)
    requires UniqueEmails(users)
    requires UsersWithEmail(users, x.rec.email) == []
    ensures UniqueEmails(users + [x])
  {
  }

  /**
   * What the handlers keep true of the store, one request at a time: emails are
   * unique, every post is published, every message is new, and the plans are
   * either absent or exactly the seeded three.
   */
  ghost predicate Consistent(store: Store)
    reads store
  {
    && UniqueEmails(store.users)
    && (forall i :: 0 <= i < |store.posts| ==> store.posts[i].rec.published)
    && (forall i :: 0 <= i < |store.messages| ==> store.messages[i].rec.status == "new")
    && (store.plans == [] || Records(store.plans) == DefaultPlans())
  }

  /** A store with no records, as every store begins, is consistent. */
  lemma EmptyStoreConsistent(store: Store)
    requires store.users == [] && store.posts == [] && store.messages == [] && store.plans == []
    ensures Consistent(store)
  {
  }

  /** `signup`: refuse a registered email, otherwise store one user and answer with its token. */
  method SignUp(store: Store, h: Hasher, req: SignUpRequest) returns (r: Result<AuthResponse, ApiError>)
    requires store.Valid()
    modifies store
    ensures store.Valid()
    ensures old(UsersWithEmail(store.users, req.email)) != [] ==> r == Err(EmailTaken) && unchanged(store)
    ensures old(UsersWithEmail(store.users, req.email)) == [] && !store.present ==>
              r == Err(ServerError) && unchanged(store)
    ensures old(UsersWithEmail(store.users, req.email)) == [] && store.present ==>
              && store.users == old(store.users) + [Stored(old(store.nextId), NewUserauth(h, req))]
              && store.posts == old(store.posts)
              && store.messages == old(store.messages)
              && store.plans == old(store.plans)
              && store.nextId == old(store.nextId) + 1
              && r.Ok?
    ensures r.Ok? ==>
              var u := store.users[|store.users| - 1];
              && u.rec.passwordHash == HashPassword(h, req.password)
              && u.rec.role == "user"
              && u.rec.company == CompanyOrNone(req.company)
              && r.value.userId == u.Id()
              && r.value.name == req.name
              && r.value.email == req.email
              && r.value.company == CompanyOrNone(req.company)
              && r.value.token == Token(h, req.email, r.value.userId)
    ensures r.Ok? ==> SignIn(store.users, h, SignInRequest(req.email, req.password)) == r
    ensures old(Consistent(store)) ==> Consistent(store)
  {
    var existing := UsersWithEmail(store.users, req.email);
    if existing != [] {
      return Err(EmailTaken);
    }
    var serial := store.nextId;
    var user := NewUserauth(h, req);
    var created := store.CreateUserauth(user);
    match created
    case Err(_) =>
      r := Err(ServerError);
    case Ok(newId) =>
      assert store.users == old(store.users) + [Stored(serial, user)];
      SignInAfterSignUp(old(store.users), h, req, serial);
      if old(Consistent(store)) {
        UniqueEmailsAppend(old(store.users), Stored(serial, user));
      }
      r := Ok(AuthResponse(newId, user.name, user.email, user.company, Token(h, user.email, newId)));
  }

  /** Two sign-ups with one email: if the first succeeds, the second is refused. */
  method SignUpTwice(store: Store, h: Hasher, first: SignUpRequest, second: SignUpRequest)
    returns (r1: Result<AuthResponse, ApiError>, r2: Result<AuthResponse, ApiError>)
    requires store.Valid()
    requires first.email == second.email
    modifies store
    ensures r1.Ok? ==> r2 == Err(EmailTaken)
  {
    r1 := SignUp(store, h, first);
    r2 := SignUp(store, h, second);
  }

  // ---------------------------------------------------------------------------
  // Blog
  // ---------------------------------------------------------------------------

  /** The post `create_blog` stores: slug from the title, published now. */
  function NewBlogpost(post: BlogCreate, now: Timestamp): Blogpost {
    Blogpost(post.title, Slug(post.title), post.excerpt, post.content, post.author,
             post.tags, true, Some(now), post.coverImage)
  }

  /** `create_blog`: store one published post and answer with its id and slug. */
  method CreateBlog(store: Store, post: BlogCreate, now: Timestamp) returns (r: Result<BlogCreated, ApiError>)
    requires store.Valid()
    modifies store
    ensures store.Valid()
    ensures !store.present ==> r == Err(ServerError) && unchanged(store)
    ensures store.present ==>
              && store.posts == old(store.posts) + [Stored(old(store.nextId), NewBlogpost(post, now))]
              && store.users == old(store.users)
              && store.messages == old(store.messages)
              && store.plans == old(store.plans)
              && store.nextId == old(store.nextId) + 1
              && r.Ok?
    ensures r.Ok? ==>
              var b := store.posts[|store.posts| - 1];
              && r.value.id == b.Id()
              && r.value.slug == b.rec.slug == Slug(post.title)
              && b.rec.published
              && b.rec.publishedAt == Some(now)
              && b.rec.title == post.title
              && b.rec.content == post.content
              && b.rec.author == post.author
              && b.rec.tags == post.tags
              && b.rec.excerpt == post.excerpt
              && b.rec.coverImage == post.coverImage
    ensures old(Consistent(store)) ==> Consistent(store)
  {
    var slug := Slug(post.title);
    var blog := NewBlogpost(post, now);
    var created := store.CreateBlogpost(blog);
    match created
    case Err(_) =>
      r := Err(ServerError);
    case Ok(newId) =>
      r := Ok(BlogCreated(newId, slug));
  }

  function IsPublished(b: Blogpost): bool {
    b.published
  }

  /** The query `{"published": True}` on the "blogpost" collection. */
  function PublishedPosts(posts: seq<Stored<Blogpost>>): seq<Stored<Blogpost>> {
    Where(posts, IsPublished)
  }

  /** A post as a read returns it. */
  function RawPost(s: Stored<Blogpost>): Doc {
    Raw(PostDoc(s.rec), s.serial)
  }

  /** `_id` is absent or holds an id, the only values the store puts there. */
  predicate IdPoppable(d: Doc) {
    "_id" in d ==> d["_id"].VOid? || d["_id"].VStr?
  }

  /** `str(d.pop("_id", ""))`. */
  function IdText(d: Doc): string
    requires IdPoppable(d)
  {
    if "_id" !in d then ""
    else if d["_id"].VOid? then d["_id"].hex
    else d["_id"].s
  }

  /** `d["id"] = str(d.pop("_id", ""))`: the id moves from `_id` to `id`; nothing else changes. */
  function ExposeId(d: Doc): (r: Doc)
    requires IdPoppable(d)
    ensures "id" in r && "_id" !in r
    ensures r["id"] == VStr(IdText(d))
    ensures forall k :: k in d && k != "_id" && k != "id" ==> k in r && r[k] == d[k]
    ensures forall k :: k in r ==> k == "id" || k in d
  {
    (d - {"_id"})["id" := VStr(IdText(d))]
  }

  /** The loop over the documents of a read that exposes each one's id. */
  method ExposeIds(docs: seq<Doc>) returns (out: seq<Doc>)
    requires forall i :: 0 <= i < |docs| ==> IdPoppable(docs[i])
    ensures |out| == |docs|
    ensures forall i :: 0 <= i < |docs| ==> out[i] == ExposeId(docs[i])
  {
    out := docs;
    for i := 0 to |out|
      invariant |out| == |docs|
      invariant forall k :: 0 <= k < i ==> out[k] == ExposeId(docs[k])
      invariant forall k :: i <= k < |out| ==> out[k] == docs[k]
    {
      out := out[i := ExposeId(out[i])];
    }
  }

  /** `list_blogs`: at most `limit` published posts, each with `id` in place of `_id`. */
  method ListBlogs(posts: seq<Stored<Blogpost>>, limit: nat := 10) returns (items: seq<Doc>)
    ensures |items| <= limit
    ensures |items| == if limit < |PublishedPosts(posts)| then limit else |PublishedPosts(posts)|
    ensures forall i :: 0 <= i < |items| ==> items[i] == ExposeId(RawPost(PublishedPosts(posts)[i]))
    ensures forall i :: 0 <= i < |items| ==>
              && "id" in items[i] && "_id" !in items[i]
              && items[i]["id"] == VStr(PublishedPosts(posts)[i].Id())
              && "published" in items[i] && items[i]["published"] == VBool(true)
  {
    var found := Take(PublishedPosts(posts), limit);
    var docs := seq(|found|, i requires 0 <= i < |found| => RawPost(found[i]));
    items := ExposeIds(docs);
    forall i | 0 <= i < |items|
      ensures items[i]["published"] == VBool(true)
    {
      assert found[i] == PublishedPosts(posts)[i];
      assert IsPublished(found[i].rec);
    }
  }

  // ---------------------------------------------------------------------------
  // Contact
  // ---------------------------------------------------------------------------

  /** The message `submit_contact` stores: always with status "new". */
  function NewContactmessage(req: ContactRequest): Contactmessage {
    Contactmessage(req.name, req.email, req.company, req.message, req.subject, "new")
  }

  /** `submit_contact`: store one new message and acknowledge it with its id. */
  method SubmitContact(store: Store, req: ContactRequest) returns (r: Result<ContactAck, ApiError>)
    requires store.Valid()
    modifies store
    ensures store.Valid()
    ensures !store.present ==> r == Err(ServerError) && unchanged(store)
    ensures store.present ==>
              && store.messages == old(store.messages) + [Stored(old(store.nextId), NewContactmessage(req))]
              && store.users == old(store.users)
              && store.posts == old(store.posts)
              && store.plans == old(store.plans)
              && store.nextId == old(store.nextId) + 1
              && r.Ok?
    ensures r.Ok? ==>
              var m := store.messages[|store.messages| - 1];
              && r.value.status == "ok"
              && r.value.id == m.Id()
              && m.rec.status == "new"
              && m.rec.name == req.name
              && m.rec.email == req.email
              && m.rec.company == req.company
              && m.rec.subject == req.subject
              && m.rec.message == req.message
    ensures old(Consistent(store)) ==> Consistent(store)
  {
    var doc := NewContactmessage(req);
    var created := store.CreateContactmessage(doc);
    match created
    case Err(_) =>
      r := Err(ServerError);
    case Ok(docId) =>
      r := Ok(ContactAck("ok", docId));
  }

  // ---------------------------------------------------------------------------
  // Pricing
  // ---------------------------------------------------------------------------

  /** The three plans seeded into an empty "pricingplan" collection, in order. */
  function DefaultPlans(): seq<Pricingplan> {
    [ Pricingplan("Starter", 49, 490,
        ["Up to 1,000 barrels tracked", "Basic analytics", "Email support"], false),
      Pricingplan("Pro", 199, 1990,
        ["Up to 25,000 barrels tracked", "Advanced analytics", "API access", "Priority support"], true),
      Pricingplan("Enterprise", 0, 0,
        ["Unlimited scale", "Custom SLAs", "Dedicated onboarding", "SAML SSO"], false) ]
  }

  lemma DefaultPlansShape()
    ensures |DefaultPlans()| == 3
    ensures DefaultPlans()[0].name == "Starter"
    ensures DefaultPlans()[1].name == "Pro"
    ensures DefaultPlans()[2].name == "Enterprise"
    ensures forall i :: 0 <= i < |DefaultPlans()| ==>
              (DefaultPlans()[i].mostPopular <==> DefaultPlans()[i].name == "Pro")
    ensures forall i :: 0 <= i < |DefaultPlans()| ==>
              0 <= DefaultPlans()[i].priceMonthly && 0 <= DefaultPlans()[i].priceYearly
  {
  }

  /** A plan as a read returns it. */
  function RawPlan(s: Stored<Pricingplan>): Doc {
    Raw(PlanDoc(s.rec), s.serial)
  }

  /** Whether to seed: a store is configured (`db is not None`) and holds no plan. */
  function SeedGuard(present: bool, count: nat): bool {
    present && count == 0
  }

  /** `get_pricing`: seed the three plans into an empty collection, then list all plans with `id`. */
  method GetPricing(store: Store) returns (items: seq<Doc>)
    requires store.Valid()
    modifies store
    ensures store.Valid()
    ensures store.users == old(store.users) && store.posts == old(store.posts)
    ensures store.messages == old(store.messages)
    ensures old(store.plans) == [] && store.present ==>
              && Records(store.plans) == DefaultPlans()
              && store.nextId == old(store.nextId) + |DefaultPlans()|
              && forall k :: 0 <= k < |store.plans| ==> store.plans[k].serial == old(store.nextId) + k
    ensures !(old(store.plans) == [] && store.present) ==>
              store.plans == old(store.plans) && store.nextId == old(store.nextId)
    ensures |items| == |store.plans|
    ensures forall i :: 0 <= i < |items| ==> items[i] == ExposeId(RawPlan(store.plans[i]))
    ensures forall i :: 0 <= i < |items| ==>
              "id" in items[i] && "_id" !in items[i] && items[i]["id"] == VStr(store.plans[i].Id())
    ensures old(Consistent(store)) ==> Consistent(store)
  {
    var count := if store.present then |store.plans| else 0;
    if SeedGuard(store.present, count) {
      var defaults := DefaultPlans();
      for i := 0 to |defaults|
        invariant store.Valid()
        invariant store.users == old(store.users) && store.posts == old(store.posts)
        invariant store.messages == old(store.messages)
        invariant store.nextId == old(store.nextId) + i
        invariant |store.plans| == i
        invariant forall k :: 0 <= k < i ==> store.plans[k] == Stored(old(store.nextId) + k, defaults[k])
      {
        var created := store.CreatePricingplan(defaults[i]);
      }
      assert Records(store.plans) == defaults;
    }
    var plans := store.plans;
    var docs := seq(|plans|, i requires 0 <= i < |plans| => RawPlan(plans[i]));
    items := ExposeIds(docs);
  }

  /**
   * `get_pricing` as written: `if db` asks a configured database handle for its
   * truth value, which the database driver refuses with an exception.
   */
  function DbTruth(present: bool): Result<bool, ApiError> {
    if present then Err(ServerError) else Ok(false)
  }

  method GetPricingAsWritten(store: Store) returns (r: Result<seq<Doc>, ApiError>)
    requires store.Valid()
    ensures store.present ==> r == Err(ServerError)
    ensures !store.present ==> r == Ok([])
  {
    var truth := DbTruth(store.present);
    if truth.Err? {
      return Err(ServerError);
    }
    // No database: the count is 0, the seeding guard is false, and the read is empty.
    var plans := store.plans;
    var docs := seq(|plans|, i requires 0 <= i < |plans| => RawPlan(plans[i]));
    var items := ExposeIds(docs);
    r := Ok(items);
  }

  /** On a freshly configured store the as-written handler fails where the corrected one seeds three plans. */
  method PricingFindingWitness() returns (asWritten: Result<seq<Doc>, ApiError>, corrected: seq<Doc>)
    ensures asWritten == Err(ServerError)
    ensures |corrected| == 3
  {
    var store := new Store(true);
    asWritten := GetPricingAsWritten(store);
    corrected := GetPricing(store);
  }
}
