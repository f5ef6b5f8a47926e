/**
 * The job routes of the backend (`/api/jobs`): list, create and update. The document store is
 * an in-memory sequence of documents; the authenticated identity that the auth middleware
 * attaches (`req.user`) is an input, and so is whether the store operation fails.
 */
module JobsRoutes {
  import opened Wrappers

  /**
   * A stored job document: its `_id`, the creation time that the listing sorts on, and the
   * fields that came in the request body.
   */
  datatype Doc = Doc(id: nat, createdAt: int, fields: map<string, string>)

  /** `req.user`, as the auth middleware attaches it. */
  datatype Identity = Identity(userId: string, role: string)

  /** The JSON the handler sends: a list, one document, `null`, or `{ message }`. */
  datatype Body = DocList(docs: seq<Doc>) | OneDoc(doc: Doc) | NullBody | Message(message: string)

  datatype Response = Response(status: nat, body: Body)

  /** Whether the store operation succeeds, or throws an error with the given message. */
  datatype Storage = Available | Failing(message: string)

  const AccessDenied: string := "Access denied"

  ghost predicate SortedDesc(s: seq<Doc>) {
    forall i, j :: 0 <= i < j < |s| ==> s[i].createdAt >= s[j].createdAt
  }

  lemma SortedCons(h: Doc, t: seq<Doc>)
    requires SortedDesc(t)
    requires forall x :: x in t ==> x.createdAt <= h.createdAt
    ensures SortedDesc([h] + t)
  {
    var r := [h] + t;
    forall i, j | 0 <= i < j < |r| ensures r[i].createdAt >= r[j].createdAt {
      assert r[j] == t[j - 1];
      if i > 0 { assert r[i] == t[i - 1]; } else { assert t[j - 1] in t; }
    }
  }

  /** The head of a newest-first list is at least as recent as every later document, and the tail is newest first. */
  lemma SortedTail(s: seq<Doc>)
    requires SortedDesc(s) && s != []
    ensures SortedDesc(s[1..])
    ensures forall x :: x in s[1..] ==> x.createdAt <= s[0].createdAt
  {
    forall x | x in s[1..] ensures x.createdAt <= s[0].createdAt {
      var k :| 0 <= k < |s[1..]| && s[1..][k] == x;
      assert s[k + 1] == x;
    }
  }

  /** `d` inserted into a list already ordered newest first, keeping that order. */
  function Insert(d: Doc, s: seq<Doc>): (r: seq<Doc>)
    requires SortedDesc(s)
    ensures SortedDesc(r)
    ensures multiset(r) == multiset(s) + multiset{d}
    ensures forall x :: x in r ==> x == d || x in s
  {
    if s == [] || d.createdAt >= s[0].createdAt then
      SortedCons(d, s);
      [d] + s
    else
      SortedTail(s);
      var rest := Insert(d, s[1..]);
      assert s == [s[0]] + s[1..];
      SortedCons(s[0], rest);
      [s[0]] + rest
  }

  /** `sort({ createdAt: -1 })`: the same documents, newest first (ties in any order). */
  function SortNewestFirst(s: seq<Doc>): (r: seq<Doc>)
    ensures SortedDesc(r)
    ensures multiset(r) == multiset(s)
  {
    if s == [] then []
    else
      assert s == [s[0]] + s[1..];
      Insert(s[0], SortNewestFirst(s[1..]))
  }

  /** The first document with the given `_id`, as `findById` finds it. */
  function FindById(jobs: seq<Doc>, id: nat): (r: Option<Doc>)
    ensures r.Some? ==> r.value in jobs && r.value.id == id
    ensures r.None? ==> forall i :: 0 <= i < |jobs| ==> jobs[i].id != id
  {
    if jobs == [] then None
    else if jobs[0].id == id then Some(jobs[0])
    else FindById(jobs[1..], id)
  }

  /**
   * The collection after `findByIdAndUpdate(id, body)`: the document with that id gets the
   * body's fields set over its own; every other document is left as it was.
   */
  function UpdateById(jobs: seq<Doc>, id: nat, body: map<string, string>): (r: seq<Doc>)
    ensures |r| == |jobs|
    ensures forall i :: 0 <= i < |jobs| ==> r[i].id == jobs[i].id && r[i].createdAt == jobs[i].createdAt
    ensures forall i :: 0 <= i < |jobs| && jobs[i].id != id ==> r[i] == jobs[i]
    ensures forall i :: 0 <= i < |jobs| && jobs[i].id == id ==> r[i].fields == jobs[i].fields + body
  {
    if jobs == [] then []
    else
      var head := if jobs[0].id == id then jobs[0].(fields := jobs[0].fields + body) else jobs[0];
      [head] + UpdateById(jobs[1..], id, body)
  }

  /** Sending the same update twice leaves the collection as sending it once. */
  lemma {:induction false} UpdateIdempotent(jobs: seq<Doc>, id: nat, body: map<string, string>)
    ensures UpdateById(UpdateById(jobs, id, body), id, body) == UpdateById(jobs, id, body)
  {
    if jobs != [] {
      UpdateIdempotent(jobs[1..], id, body);
      var once := UpdateById(jobs, id, body);
      assert once[1..] == UpdateById(jobs[1..], id, body);
      if jobs[0].id == id {
        var f := jobs[0].fields;
        assert f + body + body == f + body;
      }
    }
  }

  /** What `findByIdAndUpdate(..., { new: true })` resolves to: the updated document, or `null`. */
  function UpdatedDoc(jobs: seq<Doc>, id: nat, body: map<string, string>): (r: Option<Doc>)
    ensures r.Some? <==> exists i :: 0 <= i < |jobs| && jobs[i].id == id
    ensures r.Some? ==> r.value.id == id && r.value in UpdateById(jobs, id, body)
  {
    var updated := UpdateById(jobs, id, body);
    var r := FindById(updated, id);
    assert r.None? ==> forall i :: 0 <= i < |jobs| ==> jobs[i].id != id by {
      if r.None? {
        forall i | 0 <= i < |jobs| ensures jobs[i].id != id { assert updated[i].id == jobs[i].id; }
      }
    }
    r
  }

  /** The collection behind the routes; ids come from a counter, so each new `_id` is fresh. */
  class JobStore {
    var jobs: seq<Doc>
    var nextId: nat

    ghost predicate Valid()
      reads this
    {
      && (forall i :: 0 <= i < |jobs| ==> jobs[i].id < nextId)
      && (forall i, j :: 0 <= i < j < |jobs| ==> jobs[i].id != jobs[j].id)
    }

    constructor ()
      ensures Valid() && jobs == []
    {
      jobs, nextId := [], 0;
    }

    /** `GET /`: every stored job, newest first; a failing query answers 500 with its message. */
    method List(storage: Storage) returns (resp: Response)
      ensures storage.Failing? ==> resp == Response(500, Message(storage.message))
      ensures storage.Available? ==>
                resp.status == 200 && resp.body.DocList?
                && SortedDesc(resp.body.docs) && multiset(resp.body.docs) == multiset(jobs)
    {
      if storage.Failing? {
        resp := Response(500, Message(storage.message));
      } else {
        resp := Response(200, DocList(SortNewestFirst(jobs)));
      }
    }

    /**
     * `POST /`: only an "Admin" caller may create; anyone else gets 403 "Access denied" and the
     * collection is unchanged. An admin's request adds exactly one document built from the body
     * and gets it back with 201, unless saving fails, which answers 500 and adds nothing.
     */
    method Create(caller: Identity, body: map<string, string>, now: int, storage: Storage) returns (resp: Response)
      requires Valid()
      modifies this
      ensures Valid()
      ensures caller.role != "Admin" ==>
                resp == Response(403, Message(AccessDenied)) && jobs == old(jobs) && nextId == old(nextId)
      ensures caller.role == "Admin" && storage.Failing? ==>
                resp == Response(500, Message(storage.message)) && jobs == old(jobs) && nextId == old(nextId)
      ensures caller.role == "Admin" && storage.Available? ==>
                var doc := Doc(old(nextId), now, body);
                resp == Response(201, OneDoc(doc)) && jobs == old(jobs) + [doc]
                && (forall i :: 0 <= i < |old(jobs)| ==> old(jobs)[i].id != doc.id)
    {
      if caller.role != "Admin" {
        resp := Response(403, Message(AccessDenied));
        return;
      }
      if storage.Failing? {
        resp := Response(500, Message(storage.message));
        return;
      }
      var doc := Doc(nextId, now, body);
      jobs := jobs + [doc];
      nextId := nextId + 1;
      resp := Response(201, OneDoc(doc));
    }

    /**
     * `PUT /:id`: no role check, any authenticated caller may update any job. The document with
     * that id gets the body's fields and is sent back as it is after the update; an unknown id
     * answers `null`. A failing store answers 500 and changes nothing.
     */
    method Update(caller: Identity, id: nat, body: map<string, string>, storage: Storage) returns (resp: Response)
      requires Valid()
      modifies this
      ensures Valid() && nextId == old(nextId)
      ensures storage.Failing? ==> resp == Response(500, Message(storage.message)) && jobs == old(jobs)
      ensures storage.Available? ==>
                jobs == UpdateById(old(jobs), id, body)
                && resp == Response(200, match UpdatedDoc(old(jobs), id, body) { case Some(d) => OneDoc(d) case None => NullBody })
    {
      if storage.Failing? {
        resp := Response(500, Message(storage.message));
        return;
      }
      var updated := UpdatedDoc(jobs, id, body);
      jobs := UpdateById(jobs, id, body);
      match updated {
        case Some(d) => resp := Response(200, OneDoc(d));
        case None => resp := Response(200, NullBody);
      }
    }
  }

  /** A job created by an admin appears in the next listing. */
  lemma CreatedJobIsListed(jobs: seq<Doc>, doc: Doc)
    ensures doc in SortNewestFirst(jobs + [doc])
  {
    assert doc in multiset(jobs + [doc]);
  }

  /** The listing of two jobs created one after the other shows the later one first. */
  lemma {:induction false} LaterJobListedFirst(a: Doc, b: Doc)
    requires a.createdAt < b.createdAt
    ensures SortNewestFirst([a, b]) == [b, a]
  {
    assert [a, b][1..] == [b];
    assert [b][1..] == [];
  }
}
