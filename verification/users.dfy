/**
 * The user collection the backend reads and writes through mongoose. The
 * database is external: the model keeps its documents in order, the error
 * every query rejects with while the database is unreachable, and a log of
 * the queries issued, so that contracts can say which requests reached it.
 */
module Users {
  import opened Wrappers
  import opened JsValues

  /** A stored user; `password` holds the bcrypt hash, never the text the
      user typed. */
  datatype UserDoc = UserDoc(id: string, fullName: string, email: string, password: string, profilePic: Option<string>)

  /** A user document read with `.select("-password")`, which is also the
      `{ _id, fullName, email, profilePic }` object the auth handlers send. */
  datatype PublicUser = PublicUser(id: string, fullName: string, email: string, profilePic: Option<string>)

  function WithoutPassword(d: UserDoc): PublicUser
  {
    PublicUser(d.id, d.fullName, d.email, d.profilePic)
  }

  /** The filters the backend queries with: `{ email }` and `_id`. */
  datatype Key = ByEmail(email: string) | ById(id: string)

  predicate Matches(d: UserDoc, k: Key)
  {
    match k
    case ByEmail(e) => d.email == e
    case ById(i) => d.id == i
  }

  /** The position of the document a `findOne` returns: the first one, in
      the collection's order, that the filter matches. */
  function FirstMatch(docs: seq<UserDoc>, k: Key): (r: Option<nat>)
    ensures r.Some? ==> r.value < |docs| && Matches(docs[r.value], k)
    ensures r.Some? ==> forall j :: 0 <= j < r.value ==> !Matches(docs[j], k)
    ensures r.None? <==> forall d :: d in docs ==> !Matches(d, k)
  {
    if docs == [] then None
    else if Matches(docs[0], k) then Some(0)
    else match FirstMatch(docs[1..], k)
      case None => None
      case Some(i) => Some(i + 1)
  }

  /** `findOne(filter)` and `findById(id)` against a collection holding
      `docs`: rejected during an outage, otherwise the first match or
      `null`. */
  function Lookup(docs: seq<UserDoc>, outage: Option<Thrown>, k: Key): (r: Result<Option<UserDoc>, Thrown>)
    ensures outage.Some? <==> r.Err?
    ensures r.Err? ==> r.error == outage.value
    ensures r.Ok? ==> (r.value.None? <==> forall d :: d in docs ==> !Matches(d, k))
    ensures r.Ok? && r.value.Some? ==> r.value.value in docs && Matches(r.value.value, k)
  {
    if outage.Some? then Err(outage.value)
    else match FirstMatch(docs, k)
      case None => Ok(None)
      case Some(i) => Ok(Some(docs[i]))
  }

  /** `findByIdAndUpdate(id, { profilePic: url })` on `docs`: the first
      document with that id gets the new picture; an `undefined` id matches
      nothing. */
  function SetPicture(docs: seq<UserDoc>, id: Option<string>, url: string): (r: seq<UserDoc>)
    ensures |r| == |docs|
    ensures forall j :: 0 <= j < |docs| ==>
      r[j].id == docs[j].id && r[j].fullName == docs[j].fullName &&
      r[j].email == docs[j].email && r[j].password == docs[j].password
    ensures forall j :: 0 <= j < |docs| && r[j] != docs[j] ==>
      id == Some(docs[j].id) && r[j].profilePic == Some(url)
    ensures id.Some? && FirstMatch(docs, ById(id.value)).Some? ==>
      r[FirstMatch(docs, ById(id.value)).value].profilePic == Some(url)
  {
    if id.None? then docs
    else match FirstMatch(docs, ById(id.value))
      case None => docs
      case Some(i) => docs[i := docs[i].(profilePic := Some(url))]
  }

  /** The document `findByIdAndUpdate(..., { new: true })` resolves with. */
  function UpdatedDoc(docs: seq<UserDoc>, id: Option<string>, url: string): (r: Option<UserDoc>)
    ensures r.Some? ==> r.value in SetPicture(docs, id, url) && r.value.profilePic == Some(url)
    ensures r.Some? <==> id.Some? && exists d :: d in docs && d.id == id.value
    // the resolved document is the one with the requested id, after the update
    ensures r.Some? ==>
      (r.value.id == id.value &&
       exists d :: d in docs && d.id == id.value && r.value == d.(profilePic := Some(url)))
  {
    if id.None? then None
    else match FirstMatch(docs, ById(id.value))
      case None => None
      case Some(i) => Some(SetPicture(docs, id, url)[i])
  }

  /** No two documents share an id or an email. */
  ghost predicate Unique(docs: seq<UserDoc>)
  {
    forall i, j :: 0 <= i < j < |docs| ==> docs[i].id != docs[j].id && docs[i].email != docs[j].email
  }

  /** Changing a profile picture keeps ids and emails unique. */
  lemma SetPictureKeepsUnique(docs: seq<UserDoc>, id: Option<string>, url: string)
    requires Unique(docs)
    ensures Unique(SetPicture(docs, id, url))
  {
  }

  /** One request the collection received, as the query log records it. */
  datatype Query = Find(key: Key) | Insert(doc: UserDoc) | Update(id: Option<string>, url: string)

  class UserCollection {
    var docs: seq<UserDoc>
    /** When set, the database is unreachable and every request rejects
        with this error. */
    var outage: Option<Thrown>
    /** Every request issued to the collection, in order. */
    ghost var log: seq<Query>

    constructor (docs: seq<UserDoc>, outage: Option<Thrown>)
      ensures this.docs == docs && this.outage == outage && log == []
    {
      this.docs := docs;
      this.outage := outage;
      log := [];
    }

    /** `findOne(...)` or `findById(...)`. */
    method FindOne(k: Key) returns (r: Result<Option<UserDoc>, Thrown>)
      modifies this`log
      ensures r == Lookup(docs, outage, k)
      ensures log == old(log) + [Find(k)]
    {
      r := Lookup(docs, outage, k);
      log := log + [Find(k)];
    }

    /** `doc.save()`: appends the new document, or rejects. */
    method Save(doc: UserDoc) returns (failure: Option<Thrown>)
      modifies this`docs, this`log
      ensures failure == outage
      ensures docs == if outage.None? then old(docs) + [doc] else old(docs)
      ensures log == old(log) + [Insert(doc)]
    {
      failure := outage;
      if outage.None? {
        docs := docs + [doc];
      }
      log := log + [Insert(doc)];
    }

    /** `findByIdAndUpdate(id, { profilePic: url }, { new: true })`. */
    method FindByIdAndUpdate(id: Option<string>, url: string) returns (r: Result<Option<UserDoc>, Thrown>)
      modifies this`docs, this`log
      ensures outage.Some? ==> r == Err(outage.value) && docs == old(docs)
      ensures outage.None? ==> r == Ok(UpdatedDoc(old(docs), id, url)) && docs == SetPicture(old(docs), id, url)
      ensures log == old(log) + [Update(id, url)]
    {
      if outage.Some? {
        r := Err(outage.value);
      } else {
        r := Ok(UpdatedDoc(docs, id, url));
        docs := SetPicture(docs, id, url);
      }
      log := log + [Update(id, url)];
    }
  }
}
