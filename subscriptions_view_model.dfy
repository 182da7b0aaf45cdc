/**
 * `SubscriptionsViewModel`: the snapshot listener turns the user's
 * subscription documents into the published list, each record carrying
 * its document id, ordered by next-due date.
 */
module SubscriptionsViewModel {
  import opened Wrappers
  import opened SubscriptionData

  /** A stored document: its id and the record `toObject` decodes from it. */
  datatype Document = Document(id: string, data: Subscription)

  /** `documents.map { it.toObject(...)!!.copy(id = it.id) }`. */
  function WithDocumentIds(docs: seq<Document>): (r: seq<Subscription>)
    ensures |r| == |docs|
    ensures forall i :: 0 <= i < |r| ==> r[i].id == docs[i].id && SameExceptId(r[i], docs[i].data)
  {
    if docs == [] then [] else [WithId(docs[0].data, docs[0].id)] + WithDocumentIds(docs[1..])
  }

  /** Ascending by next-due date. */
  predicate SortedByDue(s: seq<Subscription>) {
    forall i, j :: 0 <= i < j < |s| ==> s[i].nextDueDate <= s[j].nextDueDate
  }

  /** The elements due at time `k`, in their order in `s`. */
  function DueAt(s: seq<Subscription>, k: int): seq<Subscription> {
    if s == [] then []
    else (if s[0].nextDueDate == k then [s[0]] else []) + DueAt(s[1..], k)
  }

  /** Insert `x` before the first element not due earlier than it. */
  function InsertByDue(x: Subscription, s: seq<Subscription>): (r: seq<Subscription>)
    ensures multiset(r) == multiset(s) + multiset{x}
    ensures SortedByDue(s) ==> SortedByDue(r)
  {
    if s == [] || x.nextDueDate <= s[0].nextDueDate then [x] + s
    else
      assert s == [s[0]] + s[1..];
      var rest := InsertByDue(x, s[1..]);
      assert SortedByDue(s) ==> SortedByDue([s[0]] + rest) by {
        if SortedByDue(s) {
          forall i | 0 <= i < |rest|
            ensures s[0].nextDueDate <= rest[i].nextDueDate
          {
            assert rest[i] in multiset(rest);
            assert rest[i] == x || rest[i] in multiset(s[1..]);
          }
          ConsSorted(s[0], rest);
        }
      }
      [s[0]] + rest
  }

  /** A head due no later than every element of a sorted tail keeps the list sorted. */
  lemma ConsSorted(h: Subscription, rest: seq<Subscription>)
    requires SortedByDue(rest)
    requires forall i :: 0 <= i < |rest| ==> h.nextDueDate <= rest[i].nextDueDate
    ensures SortedByDue([h] + rest)
  {
    forall i, j | 0 <= i < j < |[h] + rest|
      ensures ([h] + rest)[i].nextDueDate <= ([h] + rest)[j].nextDueDate
    {
      if i > 0 {
        assert ([h] + rest)[i] == rest[i - 1];
      }
      assert ([h] + rest)[j] == rest[j - 1];
    }
  }

  /** `sortedBy { it.nextDueDate }`, a stable sort. */
  function SortByDue(s: seq<Subscription>): (r: seq<Subscription>)
    ensures SortedByDue(r)
    ensures multiset(r) == multiset(s)
  {
    if s == [] then []
    else
      assert s == [s[0]] + s[1..];
      InsertByDue(s[0], SortByDue(s[1..]))
  }

  /** Inserting `x` puts it ahead of the elements already due at its time. */
  lemma {:induction false} DueAtInsert(x: Subscription, s: seq<Subscription>, k: int)
    ensures DueAt(InsertByDue(x, s), k) == if x.nextDueDate == k then [x] + DueAt(s, k) else DueAt(s, k)
  {
    if s == [] || x.nextDueDate <= s[0].nextDueDate {
      assert ([x] + s)[1..] == s;
    } else {
      DueAtInsert(x, s[1..], k);
      assert ([s[0]] + InsertByDue(x, s[1..]))[1..] == InsertByDue(x, s[1..]);
    }
  }

  /** The sort is stable: elements due at the same time keep their order. */
  lemma {:induction false} SortByDueStable(s: seq<Subscription>, k: int)
    ensures DueAt(SortByDue(s), k) == DueAt(s, k)
  {
    if s != [] {
      SortByDueStable(s[1..], k);
      DueAtInsert(s[0], SortByDue(s[1..]), k);
    }
  }

  /** The list published for a snapshot; a null snapshot publishes the empty list. */
  function Published(snapshot: Option<seq<Document>>): (r: seq<Subscription>)
    ensures snapshot.None? ==> r == []
    ensures SortedByDue(r)
    ensures multiset(r) == multiset(WithDocumentIds(snapshot.GetOr([])))
  {
    SortByDue(WithDocumentIds(snapshot.GetOr([])))
  }

  /**
   * The published list is the documents' records with their ids, sorted by
   * next-due date, stably.
   */
  lemma PublishedSpec(snapshot: Option<seq<Document>>, k: int)
    ensures snapshot.None? ==> Published(snapshot) == []
    ensures SortedByDue(Published(snapshot))
    ensures multiset(Published(snapshot)) == multiset(WithDocumentIds(snapshot.GetOr([])))
    ensures |Published(snapshot)| == |snapshot.GetOr([])|
    ensures DueAt(Published(snapshot), k) == DueAt(WithDocumentIds(snapshot.GetOr([])), k)
  {
    var recs := WithDocumentIds(snapshot.GetOr([]));
    SortByDueStable(recs, k);
    assert |multiset(Published(snapshot))| == |multiset(recs)|;
  }

  /** The view model's published `subs`, fed by the snapshot listener. */
  class ViewModel {
    var subs: seq<Subscription>
    /** Whether `observeSubs` found a signed-in user and attached the listener. */
    const listening: bool

    /** `init { observeSubs() }`: a listener is attached only for a signed-in user. */
    constructor (currentUser: Option<string>)
      ensures listening <==> currentUser.Some?
      ensures subs == []
    {
      listening := currentUser.Some?;
      subs := [];
    }

    /** The snapshot listener: publish the transformed documents. */
    method OnSnapshot(snapshot: Option<seq<Document>>)
      requires listening
      modifies this`subs
      ensures subs == Published(snapshot)
    {
      subs := Published(snapshot);
    }
  }
}
