/**
 * An abstract in-memory document store standing in for the database adapter:
 * one sequence of records per collection, kept in insertion order (the store's
 * native order), and a counter from which every insert draws a fresh id.
 * Reads of an absent store (no database configured) see empty collections;
 * inserts into an absent store fail.
 */
module DocStore {
  import opened Wrappers
  import opened Schemas

  // ---------------------------------------------------------------------------
  // Identifiers
  // ---------------------------------------------------------------------------

  function Digit(d: nat): (c: char)
    requires d < 10
    ensures '0' <= c <= '9'
  {
    ('0' as int + d) as char
  }

  /** The string form of the n-th id the store hands out: n in decimal. */
  function IdOf(n: nat): (s: string)
    ensures 1 <= |s|
    ensures |s| == 1 <==> n < 10
    ensures forall i :: 0 <= i < |s| ==> '0' <= s[i] <= '9'
  {
    if n < 10 then [Digit(n)] else IdOf(n / 10) + [Digit(n % 10)]
  }

  /** No two serial numbers share an id string. */
  lemma {:induction false} IdOfInjective(a: nat, b: nat)
    requires IdOf(a) == IdOf(b)
    ensures a == b
  {
    if a < 10 || b < 10 {
      assert |IdOf(a)| == 1 && |IdOf(b)| == 1;
      assert IdOf(a)[0] == IdOf(b)[0];
    } else {
      var x, y := IdOf(a), IdOf(b);
      assert x[|x| - 1] == y[|y| - 1];
      assert a % 10 == b % 10;
      assert x[..|x| - 1] == IdOf(a / 10);
      assert y[..|y| - 1] == IdOf(b / 10);
      IdOfInjective(a / 10, b / 10);
    }
  }

  /** A record as the store keeps it: the serial number its id was drawn from, and the record. */
  datatype Stored<T> = Stored(serial: nat, rec: T) {
    /** The store-generated id, as the string the handlers see. */
    function Id(): string {
      IdOf(serial)
    }
  }

  /** The raw document a read returns: the serialised fields plus `_id`. */
  function Raw(fields: Doc, serial: nat): (d: Doc)
    ensures "_id" in d && d["_id"] == VOid(IdOf(serial))
    ensures forall k :: k in fields && k != "_id" ==> k in d && d[k] == fields[k]
    ensures d.Keys == fields.Keys + {"_id"}
  {
    fields["_id" := VOid(IdOf(serial))]
  }

  /** Serial numbers strictly increase along the collection and all lie below `bound`. */
  ghost predicate Ascending<T>(s: seq<Stored<T>>, bound: nat) {
    && (forall i, j :: 0 <= i < j < |s| ==> s[i].serial < s[j].serial)
    && (forall i :: 0 <= i < |s| ==> s[i].serial < bound)
  }

  /** Within an ascending collection, no two records share an id. */
  lemma IdsDistinct<T>(s: seq<Stored<T>>, bound: nat)
    requires Ascending(s, bound)
    ensures forall i, j :: 0 <= i < j < |s| ==> s[i].Id() != s[j].Id()
  {
    forall i, j | 0 <= i < j < |s|
      ensures s[i].Id() != s[j].Id()
    {
      if s[i].Id() == s[j].Id() {
        IdOfInjective(s[i].serial, s[j].serial);
      }
    }
  }

  lemma AscendingAppend<T>(s: seq<Stored<T>>, bound: nat, r: T)
    requires Ascending(s, bound)
    ensures Ascending(s + [Stored(bound, r)], bound + 1)
  {
  }

  // ---------------------------------------------------------------------------
  // Equality queries
  // ---------------------------------------------------------------------------

  /** The records of `s` whose fields satisfy `p`, in store order (a `find` with a filter). */
  function Where<T>(s: seq<Stored<T>>, p: T -> bool): (r: seq<Stored<T>>)
    ensures |r| <= |s|
    ensures forall i :: 0 <= i < |r| ==> p(r[i].rec) && r[i] in s
    ensures forall i :: 0 <= i < |s| && p(s[i].rec) ==> s[i] in r
  {
    if s == [] then []
    else if p(s[0].rec) then [s[0]] + Where(s[1..], p)
    else Where(s[1..], p)
  }

  /** Filtering a collection that grew by one record at its end. */
  lemma {:induction false} WhereAppend<T>(s: seq<Stored<T>>, x: Stored<T>, p: T -> bool)
    ensures Where(s + [x], p) == Where(s, p) + (if p(x.rec) then [x] else [])
  {
    if s != [] {
      assert (s + [x])[1..] == s[1..] + [x];
      WhereAppend(s[1..], x, p);
    }
  }

  /** The first record a query returns is the earliest matching record of the collection. */
  lemma {:induction false} WhereFirst<T>(s: seq<Stored<T>>, p: T -> bool)
    requires Where(s, p) != []
    ensures exists k :: 0 <= k < |s| && s[k] == Where(s, p)[0]
                     && forall j :: 0 <= j < k ==> !p(s[j].rec)
  {
    if p(s[0].rec) {
      assert s[0] == Where(s, p)[0];
    } else {
      WhereFirst(s[1..], p);
      var k :| 0 <= k < |s[1..]| && s[1..][k] == Where(s[1..], p)[0]
               && forall j :: 0 <= j < k ==> !p(s[1..][j].rec);
      assert s[k + 1] == Where(s, p)[0];
      assert forall j :: 0 <= j < k + 1 ==> !p(s[j].rec) by {
        forall j | 0 <= j < k + 1 ensures !p(s[j].rec) {
          if j > 0 { assert s[j] == s[1..][j - 1]; }
        }
      }
    }
  }

  /** The records of a collection, without their ids. */
  function Records<T>(s: seq<Stored<T>>): (r: seq<T>)
    ensures |r| == |s|
    ensures forall i :: 0 <= i < |s| ==> r[i] == s[i].rec
  {
    seq(|s|, i requires 0 <= i < |s| => s[i].rec)
  }

  /** The first `limit` elements, or all of them when there are fewer. */
  function Take<T>(s: seq<T>, limit: nat): (r: seq<T>)
    ensures |r| == if limit < |s| then limit else |s|
    ensures r <= s
  {
    if limit < |s| then s[..limit] else s
  }

  // ---------------------------------------------------------------------------
  // The store
  // ---------------------------------------------------------------------------

  datatype StoreError = StoreUnavailable

  class Store {
    /** Whether a database is configured at all. */
    const present: bool
    var users: seq<Stored<Userauth>>
    var posts: seq<Stored<Blogpost>>
    var messages: seq<Stored<Contactmessage>>
    var plans: seq<Stored<Pricingplan>>
    /** The serial number the next insert will use. */
    var nextId: nat

    /** The adapter's own invariant: fresh ids, and nothing stored without a database. */
    ghost predicate Valid()
      reads this
    {
      && (!present ==> users == [] && posts == [] && messages == [] && plans == [])
      && Ascending(users, nextId)
      && Ascending(posts, nextId)
      && Ascending(messages, nextId)
      && Ascending(plans, nextId)
    }

    constructor (present: bool)
      ensures Valid()
      ensures this.present == present
      ensures users == [] && posts == [] && messages == [] && plans == []
      ensures nextId == 0
    {
      this.present := present;
      users, posts, messages, plans := [], [], [], [];
      nextId := 0;
    }

    /** `create_document("userauth", u)`. */
    method CreateUserauth(u: Userauth) returns (r: Result<string, StoreError>)
      requires Valid()
      modifies this
      ensures Valid()
      ensures posts == old(posts) && messages == old(messages) && plans == old(plans)
      ensures present ==> r == Ok(IdOf(old(nextId)))
                          && users == old(users) + [Stored(old(nextId), u)]
                          && nextId == old(nextId) + 1
      ensures !present ==> r == Err(StoreUnavailable) && unchanged(this)
    {
      if !present {
        return Err(StoreUnavailable);
      }
      AscendingAppend(users, nextId, u);
      users := users + [Stored(nextId, u)];
      r := Ok(IdOf(nextId));
      nextId := nextId + 1;
    }

    /** `create_document("blogpost", b)`. */
    method CreateBlogpost(b: Blogpost) returns (r: Result<string, StoreError>)
      requires Valid()
      modifies this
      ensures Valid()
      ensures users == old(users) && messages == old(messages) && plans == old(plans)
      ensures present ==> r == Ok(IdOf(old(nextId)))
                          && posts == old(posts) + [Stored(old(nextId), b)]
                          && nextId == old(nextId) + 1
      ensures !present ==> r == Err(StoreUnavailable) && unchanged(this)
    {
      if !present {
        return Err(StoreUnavailable);
      }
      AscendingAppend(posts, nextId, b);
      posts := posts + [Stored(nextId, b)];
      r := Ok(IdOf(nextId));
      nextId := nextId + 1;
    }

    /** `create_document("contactmessage", m)`. */
    method CreateContactmessage(m: Contactmessage) returns (r: Result<string, StoreError>)
      requires Valid()
      modifies this
      ensures Valid()
      ensures users == old(users) && posts == old(posts) && plans == old(plans)
      ensures present ==> r == Ok(IdOf(old(nextId)))
                          && messages == old(messages) + [Stored(old(nextId), m)]
                          && nextId == old(nextId) + 1
      ensures !present ==> r == Err(StoreUnavailable) && unchanged(this)
    {
      if !present {
        return Err(StoreUnavailable);
      }
      AscendingAppend(messages, nextId, m);
      messages := messages + [Stored(nextId, m)];
      r := Ok(IdOf(nextId));
      nextId := nextId + 1;
    }

    /** `create_document("pricingplan", p)`. */
    method CreatePricingplan(p: Pricingplan) returns (r: Result<string, StoreError>)
      requires Valid()
      modifies this
      ensures Valid()
      ensures users == old(users) && posts == old(posts) && messages == old(messages)
      ensures present ==> r == Ok(IdOf(old(nextId)))
                          && plans == old(plans) + [Stored(old(nextId), p)]
                          && nextId == old(nextId) + 1
      ensures !present ==> r == Err(StoreUnavailable) && unchanged(this)
    {
      if !present {
        return Err(StoreUnavailable);
      }
      AscendingAppend(plans, nextId, p);
      plans := plans + [Stored(nextId, p)];
      r := Ok(IdOf(nextId));
      nextId := nextId + 1;
    }
  }
}
