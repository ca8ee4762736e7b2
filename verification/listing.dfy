/** `Model.find().sort(...)`: every document of a collection, each once,
    ordered by the handler's sort key. Documents with equal keys may come in
    any order, as MongoDB leaves them. */
module Listing {
  import opened Ids

  /** A document together with its `_id`, as a response lists it. */
  datatype Entry<+T> = Entry(id: ObjectId, doc: T)

  /** `le` orders every pair and is transitive: a sort key. */
  ghost predicate TotalPreorder<T(!new)>(le: (T, T) -> bool) {
    && (forall a, b :: le(a, b) || le(b, a))
    && (forall a, b, c :: le(a, b) && le(b, c) ==> le(a, c))
  }

  predicate Sorted<T>(s: seq<T>, le: (T, T) -> bool) {
    forall i, j :: 0 <= i < j < |s| ==> le(s[i], s[j])
  }

  /** `s` lists the collection `docs`: each document once, under its id. */
  ghost predicate Lists<T>(docs: map<ObjectId, T>, s: seq<Entry<T>>) {
    && (forall i :: 0 <= i < |s| ==> s[i].id in docs && docs[s[i].id] == s[i].doc)
    && (forall i, j :: 0 <= i < j < |s| ==> s[i].id != s[j].id)
    && (forall k :: k in docs ==> exists i :: 0 <= i < |s| && s[i].id == k)
  }

  /** `e` placed into sorted `s` before the first element it precedes. */
  function InsertSorted<T>(s: seq<T>, e: T, le: (T, T) -> bool): (r: seq<T>)
    ensures |r| == |s| + 1
  {
    if s == [] then [e]
    else if le(e, s[0]) then [e] + s
    else [s[0]] + InsertSorted(s[1..], e, le)
  }

  /** Where `InsertSorted` places `e`: before the first element it precedes. */
  function InsertIndex<T>(s: seq<T>, e: T, le: (T, T) -> bool): (n: nat)
    ensures n <= |s|
  {
    if s == [] || le(e, s[0]) then 0 else 1 + InsertIndex(s[1..], e, le)
  }

  /** Insertion puts `e` at `InsertIndex` and keeps the rest in order. */
  lemma {:induction false} InsertSortedAt<T>(s: seq<T>, e: T, le: (T, T) -> bool)
    ensures var n := InsertIndex(s, e, le); InsertSorted(s, e, le) == s[..n] + [e] + s[n..]
  {
    if s != [] && !le(e, s[0]) {
      InsertSortedAt(s[1..], e, le);
      var n := InsertIndex(s[1..], e, le);
      assert s[..n + 1] == [s[0]] + s[1..][..n];
      assert s[n + 1..] == s[1..][n..];
    }
  }

  /** Insertion puts `e` at one position and keeps the rest in order. */
  lemma InsertSortedSplits<T>(s: seq<T>, e: T, le: (T, T) -> bool)
    ensures exists n :: 0 <= n <= |s| && InsertSorted(s, e, le) == s[..n] + [e] + s[n..]
  {
    InsertSortedAt(s, e, le);
  }

  lemma {:induction false} InsertSortedKeepsOrder<T(!new)>(s: seq<T>, e: T, le: (T, T) -> bool)
    requires TotalPreorder(le) && Sorted(s, le)
    ensures Sorted(InsertSorted(s, e, le), le)
  {
    if s != [] && !le(e, s[0]) {
      InsertSortedKeepsOrder(s[1..], e, le);
      InsertSortedSplits(s[1..], e, le);
      var t := InsertSorted(s[1..], e, le);
      var n :| 0 <= n <= |s[1..]| && t == s[1..][..n] + [e] + s[1..][n..];
      var r := InsertSorted(s, e, le);
      assert r == [s[0]] + t;
      forall j | 0 < j < |r| ensures le(s[0], r[j]) {
        if j - 1 < n {
          assert r[j] == s[j];
        } else if j - 1 > n {
          assert r[j] == s[j - 1];
        }
      }
    }
  }

  /** `s` lists exactly the documents of `docs` whose ids are in `done`,
      each once. */
  ghost predicate Covers<T>(docs: map<ObjectId, T>, done: set<ObjectId>, s: seq<Entry<T>>) {
    && (forall i :: 0 <= i < |s| ==> s[i].id in done && s[i].id in docs && docs[s[i].id] == s[i].doc)
    && (forall i, j :: 0 <= i < j < |s| ==> s[i].id != s[j].id)
    && (forall k :: k in done ==> exists i :: 0 <= i < |s| && s[i].id == k)
  }

  lemma CoversInsert<T>(docs: map<ObjectId, T>, done: set<ObjectId>, s: seq<Entry<T>>, k: ObjectId,
                        le: (Entry<T>, Entry<T>) -> bool)
    requires Covers(docs, done, s) && k in docs && k !in done
    ensures Covers(docs, done + {k}, InsertSorted(s, Entry(k, docs[k]), le))
  {
    var e := Entry(k, docs[k]);
    InsertSortedSplits(s, e, le);
    var n :| 0 <= n <= |s| && InsertSorted(s, e, le) == s[..n] + [e] + s[n..];
    CoversAt(docs, done, s, k, n);
  }

  lemma CoversAt<T>(docs: map<ObjectId, T>, done: set<ObjectId>, s: seq<Entry<T>>, k: ObjectId, n: nat)
    requires Covers(docs, done, s) && k in docs && k !in done && n <= |s|
    ensures Covers(docs, done + {k}, s[..n] + [Entry(k, docs[k])] + s[n..])
  {
    var e := Entry(k, docs[k]);
    AtEntries(docs, done, s, e, n);
    AtDistinct(s, e, n);
    AtComplete(done, s, e, n);
  }

  lemma AtEntries<T>(docs: map<ObjectId, T>, done: set<ObjectId>, s: seq<Entry<T>>, e: Entry<T>, n: nat)
    requires forall i :: 0 <= i < |s| ==> s[i].id in done && s[i].id in docs && docs[s[i].id] == s[i].doc
    requires e.id in docs && docs[e.id] == e.doc && n <= |s|
    ensures var r := s[..n] + [e] + s[n..];
      forall i :: 0 <= i < |r| ==> r[i].id in done + {e.id} && r[i].id in docs && docs[r[i].id] == r[i].doc
  {
    var r := s[..n] + [e] + s[n..];
    forall i | 0 <= i < |r| ensures r[i].id in done + {e.id} && r[i].id in docs && docs[r[i].id] == r[i].doc {
      if i < n {
        assert r[i] == s[i];
      } else if i > n {
        assert r[i] == s[i - 1];
      }
    }
  }

  lemma AtDistinct<T>(s: seq<Entry<T>>, e: Entry<T>, n: nat)
    requires forall i, j :: 0 <= i < j < |s| ==> s[i].id != s[j].id
    requires forall i :: 0 <= i < |s| ==> s[i].id != e.id
    requires n <= |s|
    ensures var r := s[..n] + [e] + s[n..];
      forall i, j :: 0 <= i < j < |r| ==> r[i].id != r[j].id
  {
    var r := s[..n] + [e] + s[n..];
    forall i, j | 0 <= i < j < |r| ensures r[i].id != r[j].id {
      if j < n {
        assert r[i] == s[i] && r[j] == s[j];
      } else if i > n {
        assert r[i] == s[i - 1] && r[j] == s[j - 1];
      } else if i < n && j > n {
        assert r[i] == s[i] && r[j] == s[j - 1];
      } else if i == n {
        assert r[j] == s[j - 1];
      } else {
        assert r[i] == s[i];
      }
    }
  }

  lemma AtComplete<T>(done: set<ObjectId>, s: seq<Entry<T>>, e: Entry<T>, n: nat)
    requires forall k :: k in done ==> exists i :: 0 <= i < |s| && s[i].id == k
    requires n <= |s|
    ensures var r := s[..n] + [e] + s[n..];
      forall k :: k in done + {e.id} ==> exists i :: 0 <= i < |r| && r[i].id == k
  {
    var r := s[..n] + [e] + s[n..];
    forall k' | k' in done + {e.id} ensures exists i :: 0 <= i < |r| && r[i].id == k' {
      if k' == e.id {
        assert r[n].id == k';
      } else {
        var i :| 0 <= i < |s| && s[i].id == k';
        if i < n {
          assert r[i] == s[i];
        } else {
          assert r[i + 1] == s[i];
        }
      }
    }
  }

  /** The entries of `docs`, sorted by `le`. */
  method Sort<T(!new)>(docs: map<ObjectId, T>, le: (Entry<T>, Entry<T>) -> bool) returns (r: seq<Entry<T>>)
    requires TotalPreorder(le)
    ensures Sorted(r, le) && Lists(docs, r)
  {
    r := [];
    var rest := docs.Keys;
    while rest != {}
      invariant rest <= docs.Keys
      invariant Sorted(r, le)
      invariant Covers(docs, docs.Keys - rest, r)
      decreases |rest|
    {
      var k :| k in rest;
      InsertSortedKeepsOrder(r, Entry(k, docs[k]), le);
      CoversInsert(docs, docs.Keys - rest, r, k, le);
      assert docs.Keys - rest + {k} == docs.Keys - (rest - {k});
      r := InsertSorted(r, Entry(k, docs[k]), le);
      rest := rest - {k};
    }
    assert docs.Keys - rest == docs.Keys;
  }
}
