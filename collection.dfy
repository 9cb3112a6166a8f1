/** A MongoDB collection as the bot uses it, kept in natural order:
    `findOne(filter)` yields the first matching document, `updateOne(filter, update)`
    changes the first matching document and no other, `create` appends a document,
    and `findOneAndUpdate(filter, update, {upsert: true})` updates the first match or
    appends a new document when there is none. A filter is a predicate on documents,
    an update a function from the old document to the new one. */
module Collection {
  import opened Wrappers

  /** Index of the first document matching `p`. */
  function FindFirst<T>(docs: seq<T>, p: T -> bool): (r: Option<nat>)
    ensures r.Some? ==> r.value < |docs| && p(docs[r.value])
    ensures r.Some? ==> forall k :: 0 <= k < r.value ==> !p(docs[k])
    ensures r.None? ==> forall k :: 0 <= k < |docs| ==> !p(docs[k])
  {
    if docs == [] then None
    else if p(docs[0]) then Some(0)
    else
      match FindFirst(docs[1..], p)
      case None => None
      case Some(i) => Some(i + 1)
  }

  /** `findOne(filter)`: the first matching document, if any. */
  function Lookup<T>(docs: seq<T>, p: T -> bool): (r: Option<T>)
    ensures r.None? <==> forall k :: 0 <= k < |docs| ==> !p(docs[k])
    ensures r.Some? ==> p(r.value) && r.value in docs
    ensures r.Some? ==> FindFirst(docs, p).Some? && r.value == docs[FindFirst(docs, p).value]
  {
    match FindFirst(docs, p)
    case None => None
    case Some(i) => Some(docs[i])
  }

  /** `updateOne(filter, update)`: only the first matching document changes. */
  function UpdateFirst<T>(docs: seq<T>, p: T -> bool, f: T -> T): (r: seq<T>)
    ensures |r| == |docs|
    ensures FindFirst(docs, p).None? ==> r == docs
    ensures FindFirst(docs, p).Some? ==>
              var i := FindFirst(docs, p).value; r == docs[i := f(docs[i])]
  {
    if docs == [] then []
    else if p(docs[0]) then [f(docs[0])] + docs[1..]
    else [docs[0]] + UpdateFirst(docs[1..], p, f)
  }

  /** `findOneAndUpdate(filter, update, {upsert: true})`. */
  function Upsert<T>(docs: seq<T>, p: T -> bool, f: T -> T, created: T): (r: seq<T>)
    ensures FindFirst(docs, p).Some? ==>
              var i := FindFirst(docs, p).value; r == docs[i := f(docs[i])]
    ensures FindFirst(docs, p).None? ==> r == docs + [created]
  {
    if FindFirst(docs, p).Some? then UpdateFirst(docs, p, f) else docs + [created]
  }

  /** Replacing a document by one that agrees with it on `q` does not move the first match of `q`. */
  lemma {:induction false} FindFirstAfterSet<T>(docs: seq<T>, i: nat, x: T, q: T -> bool)
    requires i < |docs| && q(x) == q(docs[i])
    ensures FindFirst(docs[i := x], q) == FindFirst(docs, q)
  {
    if i > 0 {
      assert docs[i := x][1..] == docs[1..][i - 1 := x];
      FindFirstAfterSet(docs[1..], i - 1, x, q);
    }
  }

  /** An update that keeps `q` true or false on every document leaves the first match of `q` in place. */
  lemma FindFirstAfterUpdate<T>(docs: seq<T>, p: T -> bool, f: T -> T, q: T -> bool)
    requires forall x :: q(f(x)) == q(x)
    ensures FindFirst(UpdateFirst(docs, p, f), q) == FindFirst(docs, q)
  {
    match FindFirst(docs, p)
    case None =>
    case Some(i) => FindFirstAfterSet(docs, i, f(docs[i]), q);
  }

  /** A narrower filter that still matches the first match of a wider one finds the same document. */
  lemma FindFirstNarrowed<T>(docs: seq<T>, p: T -> bool, q: T -> bool, i: nat)
    requires forall x :: q(x) ==> p(x)
    requires FindFirst(docs, p) == Some(i) && q(docs[i])
    ensures FindFirst(docs, q) == Some(i)
  {
  }

  /** Appending a document leaves an existing first match where it was. */
  lemma {:induction false} FindFirstAfterAppend<T>(docs: seq<T>, x: T, q: T -> bool)
    ensures FindFirst(docs + [x], q) ==
              if FindFirst(docs, q).Some? then FindFirst(docs, q)
              else if q(x) then Some(|docs|) else None
  {
    if docs != [] {
      assert (docs + [x])[1..] == docs[1..] + [x];
      FindFirstAfterAppend(docs[1..], x, q);
    }
  }

  /** The documents of a collection, in natural order. */
  class Collection<T> {
    var docs: seq<T>

    constructor (initial: seq<T>)
      ensures docs == initial
    {
      docs := initial;
    }

    method FindOne(p: T -> bool) returns (r: Option<T>)
      ensures r == Lookup(docs, p)
    {
      var i := FindFirst(docs, p);
      if i.Some? { r := Some(docs[i.value]); } else { r := None; }
    }

    method UpdateOne(p: T -> bool, f: T -> T)
      modifies this
      ensures docs == UpdateFirst(old(docs), p, f)
    {
      docs := UpdateFirst(docs, p, f);
    }

    method Create(x: T)
      modifies this
      ensures docs == old(docs) + [x]
    {
      docs := docs + [x];
    }

    method UpsertOne(p: T -> bool, f: T -> T, created: T)
      modifies this
      ensures docs == Upsert(old(docs), p, f, created)
    {
      docs := Upsert(docs, p, f, created);
    }
  }
}
