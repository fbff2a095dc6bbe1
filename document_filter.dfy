/**
 * The document filter of `parseKubernetesYAML`: of the documents the YAML
 * parser returns, it keeps those that are present and have a truthy `kind`
 * and a truthy `metadata`, in their original order. It drops the others without
 * raising an error. The parser itself is external: its output is the
 * sequence `docs`, where `None` stands for an empty or non-mapping document.
 */
module DocumentFilter {
  import opened KubeObjects

  /** `doc && doc.kind && doc.metadata` */
  predicate Accepted(doc: Option<Doc>)
  {
    doc.Some? && Truthy(doc.value.kind) && doc.value.metadata.Some?
  }

  /** The accepted documents, in order. */
  function Filter(docs: seq<Option<Doc>>): (r: seq<Doc>)
    ensures |r| <= |docs|
  {
    if docs == [] then []
    else
      var last := docs[|docs| - 1];
      Filter(docs[..|docs| - 1]) + (if Accepted(last) then [last.value] else [])
  }

  /** The filter loop of `parseKubernetesYAML`, pushing each accepted document. */
  method ParseKubernetesYaml(docs: seq<Option<Doc>>) returns (resources: seq<Doc>)
    ensures resources == Filter(docs)
  {
    resources := [];
    var i := 0;
    while i < |docs|
      invariant 0 <= i <= |docs|
      invariant resources == Filter(docs[..i])
    {
      var doc := docs[i];
      assert docs[..i + 1][..i] == docs[..i];
      if doc.Some? && Truthy(doc.value.kind) && doc.value.metadata.Some? {
        resources := resources + [doc.value];
      }
      i := i + 1;
    }
    assert docs[..i] == docs;
  }

  /** A document survives the filter exactly when it was parsed and passes the shape check. */
  lemma {:induction false} FilterMembership(docs: seq<Option<Doc>>, d: Doc)
    ensures d in Filter(docs) <==> Some(d) in docs && Accepted(Some(d))
  {
    if docs != [] {
      var init := docs[..|docs| - 1];
      FilterMembership(init, d);
      assert docs == init + [docs[|docs| - 1]];
    }
  }

  /** Every document that comes out of the filter has a non-empty kind and a metadata mapping. */
  lemma FilterOutputWellShaped(docs: seq<Option<Doc>>)
    ensures forall d :: d in Filter(docs) ==> Truthy(d.kind) && d.metadata.Some?
  {
    forall d | d in Filter(docs)
      ensures Truthy(d.kind) && d.metadata.Some?
    {
      FilterMembership(docs, d);
    }
  }

  /** Filtering distributes over concatenation, so the original order is kept. */
  lemma {:induction false} FilterAppend(a: seq<Option<Doc>>, b: seq<Option<Doc>>)
    ensures Filter(a + b) == Filter(a) + Filter(b)
  {
    if b == [] {
      assert a + b == a;
    } else {
      var init := b[..|b| - 1];
      FilterAppend(a, init);
      assert (a + b)[..|a + b| - 1] == a + init;
      assert (a + b)[|a + b| - 1] == b[|b| - 1];
    }
  }

  /** The documents as the parser would hand them over again. */
  function AsParsed(resources: seq<Doc>): (docs: seq<Option<Doc>>)
    ensures |docs| == |resources|
  {
    seq(|resources|, i requires 0 <= i < |resources| => Some(resources[i]))
  }

  /** Filtering the filter's output again changes nothing. */
  lemma {:induction false} FilterIdempotent(docs: seq<Option<Doc>>)
    ensures Filter(AsParsed(Filter(docs))) == Filter(docs)
  {
    if docs != [] {
      var init := docs[..|docs| - 1];
      var last := docs[|docs| - 1];
      FilterIdempotent(init);
      var tail := if Accepted(last) then [last.value] else [];
      FilterOutputWellShaped(docs);
      assert AsParsed(Filter(docs)) == AsParsed(Filter(init)) + AsParsed(tail);
      FilterAppend(AsParsed(Filter(init)), AsParsed(tail));
    }
  }
}
