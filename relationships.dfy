/**
 * Relationship extractor: for each visible text element of the input
 * (template) document, the class names of the named `div` elements that
 * enclose it, nearest first, up to the document body.
 *
 * The DOM is given explicitly: each element carries its chain of ancestors,
 * parent first, as `parentElement` would walk it.
 */
module Relationships {
  import opened TextUtil

  /** One ancestor on the parent chain: its lower-cased tag and its class attribute. */
  datatype Ancestor = Ancestor(tag: string, className: string)

  /** One element of the input document, with its ancestors, nearest first. */
  datatype InputElement = InputElement(
    tag: string,
    className: string,
    textContent: string,
    display: string,
    visibility: string,
    ancestors: seq<Ancestor>)

  /** A text element and the classes of its named `div` containers, nearest first. */
  datatype Relationship = Relationship(
    textTag: string,
    textClass: string,
    textContent: string,
    divAncestors: seq<string>)

  /** How many ancestors the walk visits before it reaches `body` (or runs out of parents). */
  function BodyDepth(ancestors: seq<Ancestor>): (n: nat)
    ensures n <= |ancestors|
    ensures forall k :: 0 <= k < n ==> ancestors[k].tag != "body"
    ensures n < |ancestors| ==> ancestors[n].tag == "body"
  {
    if ancestors == [] || ancestors[0].tag == "body" then 0
    else 1 + BodyDepth(ancestors[1..])
  }

  predicate IsNamedDiv(a: Ancestor) {
    a.tag == "div" && a.className != ""
  }

  /** The classes of the named `div` ancestors below `body`, nearest first. */
  function DivAncestorClasses(ancestors: seq<Ancestor>): seq<string> {
    if ancestors == [] || ancestors[0].tag == "body" then []
    else
      (if IsNamedDiv(ancestors[0]) then [ancestors[0].className] else [])
      + DivAncestorClasses(ancestors[1..])
  }

  /** The `while (parent && parent is not body)` walk that collects the classes. */
  method CollectDivAncestors(ancestors: seq<Ancestor>) returns (classes: seq<string>)
    ensures classes == DivAncestorClasses(ancestors)
  {
    classes := [];
    var i := 0;
    while i < |ancestors| && ancestors[i].tag != "body"
      invariant 0 <= i <= |ancestors|
      invariant classes + DivAncestorClasses(ancestors[i..]) == DivAncestorClasses(ancestors)
    {
      assert ancestors[i..][1..] == ancestors[i + 1..];
      if IsNamedDiv(ancestors[i]) {
        classes := classes + [ancestors[i].className];
      }
      i := i + 1;
    }
  }

  /**
   * The collected classes are exactly the non-empty class names of the `div`
   * ancestors met before `body`.
   */
  lemma {:induction false} DivAncestorClassesMembers(ancestors: seq<Ancestor>, c: string)
    ensures c in DivAncestorClasses(ancestors) <==>
      exists k :: 0 <= k < BodyDepth(ancestors) && IsNamedDiv(ancestors[k]) && ancestors[k].className == c
  {
    if ancestors != [] && ancestors[0].tag != "body" {
      var rest := ancestors[1..];
      DivAncestorClassesMembers(rest, c);
      assert forall k :: 1 <= k < |ancestors| ==> ancestors[k] == rest[k - 1];
      if c in DivAncestorClasses(ancestors) && !(IsNamedDiv(ancestors[0]) && ancestors[0].className == c) {
        var k :| 0 <= k < BodyDepth(rest) && IsNamedDiv(rest[k]) && rest[k].className == c;
        assert ancestors[k + 1] == rest[k];
      }
    }
  }

  /** Nearest first: the first collected class belongs to the nearest named `div` ancestor. */
  lemma {:induction false} DivAncestorClassesNearestFirst(ancestors: seq<Ancestor>, k: nat)
    requires k < BodyDepth(ancestors) && IsNamedDiv(ancestors[k])
    requires forall j :: 0 <= j < k ==> !IsNamedDiv(ancestors[j])
    ensures DivAncestorClasses(ancestors) != []
    ensures DivAncestorClasses(ancestors)[0] == ancestors[k].className
  {
    if k > 0 {
      var rest := ancestors[1..];
      assert forall j :: 0 <= j < k - 1 ==> rest[j] == ancestors[j + 1];
      DivAncestorClassesNearestFirst(rest, k - 1);
    }
  }

  /** Visible text element with non-blank text: the only elements the extractor looks at. */
  predicate IsCandidateText(e: InputElement) {
    IsTextTag(e.tag) && e.display != "none" && e.visibility != "hidden" && Trim(e.textContent) != []
  }

  function RelationshipOf(e: InputElement): Relationship {
    Relationship(e.tag, e.className, Snippet(Trim(e.textContent)), DivAncestorClasses(e.ancestors))
  }

  /** The relationship, if any, that one element contributes. */
  function ElementRelationships(e: InputElement): seq<Relationship> {
    if IsCandidateText(e) && DivAncestorClasses(e.ancestors) != [] then [RelationshipOf(e)] else []
  }

  /** The relationships of a document's elements, in document order. */
  function RelationshipMap(elements: seq<InputElement>): seq<Relationship> {
    if elements == [] then []
    else
      var n := |elements| - 1;
      RelationshipMap(elements[..n]) + ElementRelationships(elements[n])
  }

  /** The relationship, if any, of one element: one ancestor walk per candidate text element. */
  method ExtractRelationship(e: InputElement) returns (found: seq<Relationship>)
    ensures found == ElementRelationships(e)
  {
    found := [];
    if IsCandidateText(e) {
      var divAncestors := CollectDivAncestors(e.ancestors);
      if |divAncestors| != 0 {
        found := [Relationship(e.tag, e.className, Snippet(Trim(e.textContent)), divAncestors)];
      }
    }
  }

  /** The extractor: one pass over the document, in document order. */
  method ParseInputRelationships(elements: seq<InputElement>) returns (relations: seq<Relationship>)
    ensures relations == RelationshipMap(elements)
  {
    relations := [];
    for i := 0 to |elements|
      invariant relations == RelationshipMap(elements[..i])
    {
      assert elements[..i + 1][..i] == elements[..i];
      var found := ExtractRelationship(elements[i]);
      relations := relations + found;
    }
    assert elements[..|elements|] == elements;
  }

  /**
   * Every relationship comes from a visible, non-blank text element that has
   * at least one named `div` ancestor, and carries a non-empty snippet of at
   * most 80 characters.
   */
  lemma {:induction false} RelationshipMapSound(elements: seq<InputElement>, r: Relationship) returns (k: nat)
    requires r in RelationshipMap(elements)
    ensures k < |elements| && IsCandidateText(elements[k]) && DivAncestorClasses(elements[k].ancestors) != []
    ensures r == RelationshipOf(elements[k])
    ensures r.divAncestors != [] && r.textContent != [] && |r.textContent| <= SnippetLength
  {
    var n := |elements| - 1;
    if r in RelationshipMap(elements[..n]) {
      k := RelationshipMapSound(elements[..n], r);
      assert elements[..n][k] == elements[k];
    } else {
      k := n;
    }
  }

  /** The last element, when it is a candidate with a named `div` ancestor, contributes the last relationship. */
  lemma LastRelationship(elements: seq<InputElement>)
    requires elements != []
    requires IsCandidateText(elements[|elements| - 1]) && DivAncestorClasses(elements[|elements| - 1].ancestors) != []
    ensures RelationshipMap(elements)[|RelationshipMap(elements)| - 1] == RelationshipOf(elements[|elements| - 1])
  {
  }

  /** Every such element contributes its relationship. */
  lemma {:induction false} RelationshipMapComplete(elements: seq<InputElement>, k: nat)
    requires k < |elements| && IsCandidateText(elements[k]) && DivAncestorClasses(elements[k].ancestors) != []
    ensures RelationshipOf(elements[k]) in RelationshipMap(elements)
  {
    var n := |elements| - 1;
    if k < n {
      RelationshipMapComplete(elements[..n], k);
      assert elements[..n][k] == elements[k];
    } else {
      LastRelationship(elements);
    }
  }
}
