/** The search for the leftmost useful element of the notification area, over its accessibility tree. */
module AnchorSearch {

  datatype Rect = Rect(left: int, top: int, right: int, bottom: int)

  datatype Option<T> = None | Some(value: T)

  /** Where an element says it is. */
  datatype Location = Location(left: int, top: int, width: int, height: int)

  /** What can be asked of one element: its visibility, and its place unless that fails. */
  datatype Element = Element(visible: bool, location: Option<Location>)

  /** An accessible object; `children` is empty if they cannot be listed. */
  datatype Object = Object(self: Element, children: seq<Child>)

  /** A child is an element of its parent, an object of its own, or neither. */
  datatype Child = Simple(element: Element) | Nested(node: Object) | Unusable

  // ---------------------------------------------------------------- single elements

  function TryGetAccessibleRect(element: Element): Option<Rect> {
    match element.location
    case None => None
    case Some(at) =>
      if at.width <= 0 || at.height <= 0 then None
      else Some(Rect(at.left, at.top, at.left + at.width, at.top + at.height))
  }

  function Max(a: int, b: int): int {
    if a < b then b else a
  }

  function Min(a: int, b: int): int {
    if a < b then a else b
  }

  predicate Intersect(a: Rect, b: Rect) {
    Max(a.left, b.left) < Min(a.right, b.right) && Max(a.top, b.top) < Min(a.bottom, b.bottom)
  }

  /** Overlaps the tray, is not tiny, and does not fill the tray. */
  predicate IsUsefulAnchorRect(rect: Rect, tray: Rect) {
    && Intersect(rect, tray)
    && rect.right - rect.left >= 4 && rect.bottom - rect.top >= 4
    && !(rect.right - rect.left >= tray.right - tray.left - 4 && rect.bottom - rect.top >= tray.bottom - tray.top - 4)
  }

  /** The element offers this rectangle as an anchor. */
  predicate Offers(element: Element, tray: Rect, rect: Rect) {
    element.visible && TryGetAccessibleRect(element) == Some(rect) && IsUsefulAnchorRect(rect, tray)
  }

  /** Further left, else further up, else wider. */
  predicate Precedes(a: Rect, b: Rect) {
    || a.left < b.left
    || (a.left == b.left && a.top < b.top)
    || (a.left == b.left && a.top == b.top && a.right - a.left > b.right - b.left)
  }

  // ---------------------------------------------------------------- which elements are looked at

  /** The element at the end of a path of child numbers; the empty path leads to the object itself. */
  ghost function ElementAt(node: Object, path: seq<nat>): Option<Element>
    decreases |path|
  {
    if |path| == 0 then Some(node.self)
    else if path[0] >= |node.children| then None
    else
      match node.children[path[0]]
      case Simple(element) => if |path| == 1 then Some(element) else None
      case Nested(inner) => ElementAt(inner, path[1..])
      case Unusable => None
  }

  /** `rect` is offered by an element at most `depth` levels down. */
  ghost predicate IsCandidate(node: Object, tray: Rect, depth: int, includeSelf: bool, rect: Rect) {
    exists path :: OffersAt(node, tray, depth, includeSelf, rect, path)
  }

  ghost predicate OffersAt(node: Object, tray: Rect, depth: int, includeSelf: bool, rect: Rect, path: seq<nat>) {
    && (|path| == 0 ==> includeSelf) && (|path| > 0 ==> |path| <= depth)
    && ElementAt(node, path).Some? && Offers(ElementAt(node, path).value, tray, rect)
  }

  /** `rect` is offered by one of the first `n` children, or below it. */
  ghost predicate IsCandidateBelow(node: Object, tray: Rect, depth: int, n: nat, rect: Rect)
    requires n <= |node.children|
  {
    exists i :: 0 <= i < n && OfferedByChild(node.children[i], tray, depth, rect)
  }

  ghost predicate OfferedByChild(child: Child, tray: Rect, depth: int, rect: Rect) {
    match child
    case Simple(element) => Offers(element, tray, rect)
    case Nested(inner) => IsCandidate(inner, tray, depth - 1, true, rect)
    case Unusable => false
  }

  /** The children account for everything but the object itself. */
  lemma CandidatesSplit(node: Object, tray: Rect, depth: int, includeSelf: bool, rect: Rect)
    requires depth > 0
    ensures IsCandidate(node, tray, depth, includeSelf, rect) <==>
            || (includeSelf && Offers(node.self, tray, rect))
            || IsCandidateBelow(node, tray, depth, |node.children|, rect)
  {
    if IsCandidate(node, tray, depth, includeSelf, rect) {
      var path :| OffersAt(node, tray, depth, includeSelf, rect, path);
      if |path| > 0 {
        var child := node.children[path[0]];
        if child.Nested? {
          assert OffersAt(child.node, tray, depth - 1, true, rect, path[1..]);
        }
        assert OfferedByChild(child, tray, depth, rect);
      }
    }
    if includeSelf && Offers(node.self, tray, rect) {
      assert OffersAt(node, tray, depth, includeSelf, rect, []);
    }
    if i :| 0 <= i < |node.children| && OfferedByChild(node.children[i], tray, depth, rect) {
      var child := node.children[i];
      if child.Simple? {
        assert OffersAt(node, tray, depth, includeSelf, rect, [i]);
      } else {
        var path :| OffersAt(child.node, tray, depth - 1, true, rect, path);
        assert ([i] + path)[1..] == path;
        assert OffersAt(node, tray, depth, includeSelf, rect, [i] + path);
      }
    }
  }

  lemma ShallowCandidates(node: Object, tray: Rect, depth: int, includeSelf: bool, rect: Rect)
    requires depth <= 0
    ensures IsCandidate(node, tray, depth, includeSelf, rect) <==> includeSelf && Offers(node.self, tray, rect)
  {
    if includeSelf && Offers(node.self, tray, rect) {
      assert OffersAt(node, tray, depth, includeSelf, rect, []);
    }
  }

  // ---------------------------------------------------------------- the best of them

  /** What has been found so far. */
  datatype Best = Best(rect: Rect, found: bool)

  /** `after` is the best of `before` and the rectangles that `among` accepts. */
  ghost predicate IsBest(before: Best, among: Rect -> bool, after: Best) {
    && (after.found <==> before.found || exists rect :: among(rect))
    && (!after.found ==> after == before)
    && (after.found ==> (before.found && after == before) || among(after.rect))
    && (before.found ==> !Precedes(before.rect, after.rect))
    && (forall rect :: among(rect) ==> !Precedes(rect, after.rect))
  }

  ghost function OfferedBy(element: Element, tray: Rect): Rect -> bool {
    (rect: Rect) => Offers(element, tray, rect)
  }

  ghost function Candidates(node: Object, tray: Rect, depth: int, includeSelf: bool): Rect -> bool {
    (rect: Rect) => IsCandidate(node, tray, depth, includeSelf, rect)
  }

  /** The object itself if it is included, and its first `n` children with all below them. */
  ghost function CandidatesSoFar(node: Object, tray: Rect, depth: int, includeSelf: bool, n: nat): Rect -> bool
    requires n <= |node.children|
  {
    (rect: Rect) => (includeSelf && Offers(node.self, tray, rect)) || IsCandidateBelow(node, tray, depth, n, rect)
  }

  lemma BestOfNothing(before: Best, among: Rect -> bool)
    requires forall rect :: !among(rect)
    ensures IsBest(before, among, before)
  {
  }

  lemma BestOfSame(before: Best, among: Rect -> bool, same: Rect -> bool, after: Best)
    requires IsBest(before, among, after) && forall rect :: among(rect) <==> same(rect)
    ensures IsBest(before, same, after)
  {
  }

  /** The best of two lots is found one lot at a time. */
  lemma BestInTurn(start: Best, first: Rect -> bool, middle: Best, second: Rect -> bool, end: Best, both: Rect -> bool)
    requires IsBest(start, first, middle) && IsBest(middle, second, end)
    requires forall rect :: both(rect) <==> first(rect) || second(rect)
    ensures IsBest(start, both, end)
  {
  }

  lemma OneMoreChild(node: Object, tray: Rect, depth: int, n: nat, rect: Rect)
    requires n < |node.children|
    ensures IsCandidateBelow(node, tray, depth, n + 1, rect) <==>
            IsCandidateBelow(node, tray, depth, n, rect) || OfferedByChild(node.children[n], tray, depth, rect)
  {
  }

  method ConsiderAnchorRect(candidate: Rect, best: Best, ghost among: Rect -> bool) returns (result: Best)
    requires forall rect :: among(rect) <==> rect == candidate
    ensures IsBest(best, among, result)
  {
    result := best;
    if !best.found || Precedes(candidate, best.rect) {
      result := Best(candidate, true);
    }
    assert among(candidate);
  }

  /** Considers the rectangle of one element, if it offers one. */
  method ConsiderElement(element: Element, tray: Rect, best: Best) returns (result: Best)
    ensures IsBest(best, OfferedBy(element, tray), result)
  {
    if element.visible {
      var rect := TryGetAccessibleRect(element);
      if rect.Some? && IsUsefulAnchorRect(rect.value, tray) {
        result := ConsiderAnchorRect(rect.value, best, OfferedBy(element, tray));
        return;
      }
    }
    result := best;
    BestOfNothing(best, OfferedBy(element, tray));
  }

  /** The search finds a rectangle exactly when some element within the depth bound offers one, and
      ends with one that none of those, nor the one it began with, precedes. */
  method CollectAccessibleAnchorRects(node: Object, tray: Rect, depth: int, includeSelf: bool, best: Best)
    returns (result: Best)
    ensures IsBest(best, Candidates(node, tray, depth, includeSelf), result)
    decreases node
  {
    hide IsBest, IsCandidate, Offers;
    result := best;
    if includeSelf {
      result := ConsiderElement(node.self, tray, best);
      BestOfSame(best, OfferedBy(node.self, tray), CandidatesSoFar(node, tray, depth, includeSelf, 0), result);
    } else {
      BestOfNothing(best, CandidatesSoFar(node, tray, depth, includeSelf, 0));
    }
    if depth <= 0 {
      forall rect { ShallowCandidates(node, tray, depth, includeSelf, rect); }
      BestOfSame(best, CandidatesSoFar(node, tray, depth, includeSelf, 0), Candidates(node, tray, depth, includeSelf),
                 result);
      return;
    }
    var i := 0;
    while i < |node.children|
      invariant i <= |node.children|
      invariant IsBest(best, CandidatesSoFar(node, tray, depth, includeSelf, i), result)
    {
      ghost var middle := result;
      result := ConsiderChild(node, i, tray, depth, result);
      forall rect { OneMoreChild(node, tray, depth, i, rect); }
      BestInTurn(best, CandidatesSoFar(node, tray, depth, includeSelf, i), middle,
                 OfferedByOne(node.children[i], tray, depth),
                 result, CandidatesSoFar(node, tray, depth, includeSelf, i + 1));
      i := i + 1;
    }
    forall rect { CandidatesSplit(node, tray, depth, includeSelf, rect); }
    BestOfSame(best, CandidatesSoFar(node, tray, depth, includeSelf, i), Candidates(node, tray, depth, includeSelf),
               result);
  }

  ghost function OfferedByOne(child: Child, tray: Rect, depth: int): Rect -> bool {
    (rect: Rect) => OfferedByChild(child, tray, depth, rect)
  }

  method ConsiderChild(node: Object, i: nat, tray: Rect, depth: int, best: Best) returns (result: Best)
    requires i < |node.children|
    ensures IsBest(best, OfferedByOne(node.children[i], tray, depth), result)
    decreases node, 0
  {
    hide IsBest, IsCandidate, Offers;
    ghost var offered := OfferedByOne(node.children[i], tray, depth);
    match node.children[i] {
      case Simple(element) =>
        result := ConsiderElement(element, tray, best);
        BestOfSame(best, OfferedBy(element, tray), offered, result);
      case Nested(inner) =>
        result := CollectAccessibleAnchorRects(inner, tray, depth - 1, true, best);
        BestOfSame(best, Candidates(inner, tray, depth - 1, true), offered, result);
      case Unusable =>
        result := best;
        BestOfNothing(best, offered);
    }
  }

  /** Starting from nothing: what is found is offered, nothing offered precedes it, and it is not found
      only if nothing is offered. */
  lemma SearchFromNothing(node: Object, tray: Rect, depth: int, start: Best, result: Best)
    requires !start.found && IsBest(start, Candidates(node, tray, depth, false), result)
    ensures result.found <==> exists rect :: IsCandidate(node, tray, depth, false, rect)
    ensures result.found ==> IsCandidate(node, tray, depth, false, result.rect)
    ensures forall rect :: IsCandidate(node, tray, depth, false, rect) ==> !Precedes(rect, result.rect)
  {
    assert forall rect :: Candidates(node, tray, depth, false)(rect) <==> IsCandidate(node, tray, depth, false, rect);
  }

  const SEARCH_DEPTH := 2

  /** The anchor next to the tray: the best element at most two levels below the notification area. */
  method TryGetTrayAnchorRect(tray: Option<Rect>, root: Option<Object>) returns (anchor: Option<Rect>)
    ensures anchor.Some? <==>
            tray.Some? && root.Some? && exists rect :: IsCandidate(root.value, tray.value, SEARCH_DEPTH, false, rect)
    ensures anchor.Some? ==>
              && IsCandidate(root.value, tray.value, SEARCH_DEPTH, false, anchor.value)
              && forall rect :: IsCandidate(root.value, tray.value, SEARCH_DEPTH, false, rect) ==>
                 !Precedes(rect, anchor.value)
  {
    hide IsBest, IsCandidate, Precedes;
    if tray.None? || root.None? {
      return None;
    }
    var nothing := Best(Rect(0, 0, 0, 0), false);
    var best := CollectAccessibleAnchorRects(root.value, tray.value, SEARCH_DEPTH, false, nothing);
    SearchFromNothing(root.value, tray.value, SEARCH_DEPTH, nothing, best);
    anchor := if best.found then Some(best.rect) else None;
  }
}
