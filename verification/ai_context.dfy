/**
 * The AI context registry of documents (`AIDocumentContextProvider`): a list
 * of document components kept free of duplicates. Documents are compared by
 * identity, modelled as equality of the type parameter.
 */
module AiContext {

  predicate NoDuplicates<D(==,!new)>(docs: seq<D>)
  {
    forall i, j :: 0 <= i < j < |docs| ==> docs[i] != docs[j]
  }

  /** `register`: append the document unless it is already listed. */
  function Register<D(==,!new)>(docs: seq<D>, doc: D): (r: seq<D>)
    ensures doc in r
    ensures forall x :: x in r <==> x in docs || x == doc
    ensures |docs| <= |r| <= |docs| + 1 && r[..|docs|] == docs
    ensures NoDuplicates(docs) ==> NoDuplicates(r)
  {
    if doc in docs then docs else docs + [doc]
  }

  /** `unregister`: `filter((v) => v !== doc)`. */
  function Unregister<D(==,!new)>(docs: seq<D>, doc: D): (r: seq<D>)
    ensures doc !in r
    ensures forall x :: x in r <==> x in docs && x != doc
    ensures |r| <= |docs|
    ensures NoDuplicates(docs) ==> NoDuplicates(r)
  {
    if |docs| == 0 then []
    else if docs[0] == doc then Unregister(docs[1..], doc)
    else
      var rest := Unregister(docs[1..], doc);
      assert NoDuplicates(docs) ==> docs[0] !in docs[1..];
      [docs[0]] + rest
  }

  // ---------------------------------------------------------------------------

  /** Registering twice is registering once. */
  lemma RegisterIdempotent<D(!new)>(docs: seq<D>, doc: D)
    ensures Register(Register(docs, doc), doc) == Register(docs, doc)
  {
  }

  /** Removing a listed document keeps the others in their original order. */
  lemma {:induction false} UnregisterKeepsOrder<D(!new)>(before: seq<D>, doc: D, after: seq<D>)
    requires doc !in before && doc !in after
    ensures Unregister(before + [doc] + after, doc) == before + after
  {
    UnregisterAbsent(after, doc);
    assert before + [doc] + after == before + ([doc] + after);
    UnregisterAppend(before, [doc] + after, doc);
    UnregisterAbsent(before, doc);
    assert ([doc] + after)[1..] == after;
  }

  /** Unregistering a document that is not listed changes nothing. */
  lemma {:induction false} UnregisterAbsent<D(!new)>(docs: seq<D>, doc: D)
    requires doc !in docs
    ensures Unregister(docs, doc) == docs
  {
    if |docs| > 0 {
      UnregisterAbsent(docs[1..], doc);
      assert [docs[0]] + docs[1..] == docs;
    }
  }

  /** Unregistering distributes over concatenation. */
  lemma {:induction false} UnregisterAppend<D(!new)>(a: seq<D>, b: seq<D>, doc: D)
    ensures Unregister(a + b, doc) == Unregister(a, doc) + Unregister(b, doc)
  {
    if |a| == 0 {
      assert a + b == b;
    } else {
      var x, rest := a[0], a[1..];
      var ua, ub := Unregister(rest, doc), Unregister(b, doc);
      calc {
        Unregister(a + b, doc);
        == { assert a + b == [x] + (rest + b); UnregisterCons(x, rest + b, doc); }
        if x == doc then Unregister(rest + b, doc) else [x] + Unregister(rest + b, doc);
        == { UnregisterAppend(rest, b, doc); }
        if x == doc then ua + ub else [x] + (ua + ub);
        == { assert [x] + (ua + ub) == ([x] + ua) + ub; }
        (if x == doc then ua else [x] + ua) + ub;
        == { assert a == [x] + rest; UnregisterCons(x, rest, doc); }
        Unregister(a, doc) + ub;
      }
    }
  }

  /** One step of `Unregister` on a list with a known head. */
  lemma UnregisterCons<D(!new)>(x: D, rest: seq<D>, doc: D)
    ensures Unregister([x] + rest, doc) == if x == doc then Unregister(rest, doc) else [x] + Unregister(rest, doc)
  {
    assert ([x] + rest)[1..] == rest;
  }

  /** Unregistering undoes registering a new document. */
  lemma UnregisterUndoesRegister<D(!new)>(docs: seq<D>, doc: D)
    requires doc !in docs
    ensures Unregister(Register(docs, doc), doc) == docs
  {
    UnregisterKeepsOrder(docs, doc, []);
    assert docs + [doc] + [] == docs + [doc];
  }
}
