/**
 * The record shapes of the application: one datatype per collection, with the
 * field defaults the records declare, and the dictionary form a record takes once
 * it is serialised into the document store.
 */
module Schemas {
  import opened Wrappers

  /** A point in time; `datetime.utcnow()` is supplied by the caller and never inspected. */
  type Timestamp = int

  // ---------------------------------------------------------------------------
  // The example schema `User`: only its age bound is part of the model.
  // ---------------------------------------------------------------------------

  const MinAge := 0
  const MaxAge := 120

  /** An age that passes the field constraint `ge=0, le=120`. */
  type Age = n: int | MinAge <= n <= MaxAge

  datatype User = User(
    name: string,
    email: string,
    address: string,
    age: Option<Age> := None,
    isActive: bool := true)

  /** Field validation of `User.age`: absent, or an integer in 0..120 inclusive. */
  function ValidateAge(age: Option<int>): (r: Result<Option<Age>, string>)
    ensures r.Ok? <==> (age.None? || MinAge <= age.value <= MaxAge)
    ensures r.Ok? ==> (r.value.None? <==> age.None?)
    ensures r.Ok? && age.Some? ==> r.value.value == age.value
  {
    match age
    case None => Ok(None)
    case Some(n) =>
      if MinAge <= n <= MaxAge then Ok(Some(n)) else Err("age must lie in 0..120")
  }

  // ---------------------------------------------------------------------------
  // The application schemas.
  // ---------------------------------------------------------------------------

  /** Collection "userauth". */
  datatype Userauth = Userauth(
    name: string,
    email: string,
    passwordHash: string,
    company: Option<string> := None,
    role: string := "user")

  /** Collection "blogpost". */
  datatype Blogpost = Blogpost(
    title: string,
    slug: string,
    excerpt: Option<string> := None,
    content: string,
    author: string,
    tags: seq<string> := [],
    published: bool := true,
    publishedAt: Option<Timestamp> := None,
    coverImage: Option<string> := None)

  /** The values a contact message's status is meant to take. */
  predicate IsContactStatus(s: string) {
    s == "new" || s == "read" || s == "responded"
  }

  /** Collection "contactmessage". */
  datatype Contactmessage = Contactmessage(
    name: string,
    email: string,
    company: Option<string> := None,
    message: string,
    subject: Option<string> := None,
    status: string := "new")

  /**
   * Collection "pricingplan". The prices are floats in the source; here they are
   * whole numbers, carried as data only.
   */
  datatype Pricingplan = Pricingplan(
    name: string,
    priceMonthly: int,
    priceYearly: int,
    features: seq<string>,
    mostPopular: bool := false)

  lemma UserauthDefaults(name: string, email: string, passwordHash: string)
    ensures Userauth(name, email, passwordHash).role == "user"
    ensures Userauth(name, email, passwordHash).company == None
  {
  }

  lemma BlogpostDefaults(title: string, slug: string, content: string, author: string)
    ensures Blogpost(title := title, slug := slug, content := content, author := author).tags == []
    ensures Blogpost(title := title, slug := slug, content := content, author := author).published
    ensures Blogpost(title := title, slug := slug, content := content, author := author).publishedAt == None
    ensures Blogpost(title := title, slug := slug, content := content, author := author).excerpt == None
    ensures Blogpost(title := title, slug := slug, content := content, author := author).coverImage == None
  {
  }

  lemma ContactmessageDefaults(name: string, email: string, message: string)
    ensures Contactmessage(name := name, email := email, message := message).status == "new"
    ensures IsContactStatus(Contactmessage(name := name, email := email, message := message).status)
    ensures Contactmessage(name := name, email := email, message := message).company == None
    ensures Contactmessage(name := name, email := email, message := message).subject == None
  {
  }

  lemma PricingplanDefaults(name: string, monthly: int, yearly: int, features: seq<string>)
    ensures !Pricingplan(name, monthly, yearly, features).mostPopular
  {
  }

  lemma UserDefaults(name: string, email: string, address: string)
    ensures User(name, email, address).age == None
    ensures User(name, email, address).isActive
  {
  }

  // ---------------------------------------------------------------------------
  // Serialised form: the dictionary a record becomes in the document store.
  // ---------------------------------------------------------------------------

  /** A field value of a stored document. `VOid` is a store-generated object id. */
  datatype Value =
    | VStr(s: string)
    | VBool(b: bool)
    | VNum(n: int)
    | VNull
    | VList(items: seq<string>)
    | VTime(at: Timestamp)
    | VOid(hex: string)

  /** A document: field name to value. */
  type Doc = map<string, Value>

  function OptStr(o: Option<string>): Value {
    match o
    case None => VNull
    case Some(s) => VStr(s)
  }

  function OptTime(o: Option<Timestamp>): Value {
    match o
    case None => VNull
    case Some(t) => VTime(t)
  }

  /** The fields a `Blogpost` is serialised to. */
  function PostDoc(b: Blogpost): Doc {
    map[
      "title" := VStr(b.title),
      "slug" := VStr(b.slug),
      "excerpt" := OptStr(b.excerpt),
      "content" := VStr(b.content),
      "author" := VStr(b.author),
      "tags" := VList(b.tags),
      "published" := VBool(b.published),
      "published_at" := OptTime(b.publishedAt),
      "cover_image" := OptStr(b.coverImage)]
  }

  /** The fields a `Pricingplan` is serialised to. */
  function PlanDoc(p: Pricingplan): Doc {
    map[
      "name" := VStr(p.name),
      "price_monthly" := VNum(p.priceMonthly),
      "price_yearly" := VNum(p.priceYearly),
      "features" := VList(p.features),
      "most_popular" := VBool(p.mostPopular)]
  }
}
