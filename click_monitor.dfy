/** The click monitor: a capture-phase click handler that describes the
    clicked element (tag, id, classes, role, name, text) and builds a short
    CSS selector for it by walking up its ancestors. Elements are plain
    records; the event's composed path is a sequence of node identities. */
module ClickMonitor {
  import opened Text
  import opened Events

  /** What the handler and the selector walk read from one element. The
      attributes are absent when `getAttribute` returns null;
      `prevSiblingTags` are the `tagName`s of the previous element siblings,
      nearest first. */
  datatype Element = Element(
    tagName: String,
    id: Option<String>,
    classAttr: Option<String>,
    role: Option<String>,
    name: Option<String>,
    ariaLabel: Option<String>,
    textContent: Option<String>,
    prevSiblingTags: seq<String>)

  /** The selector never has more parts than this. */
  const MaxSelectorParts: nat := 5

  /** `maxTextChars` when the options leave it out. */
  const DefaultMaxTextChars: int := 120

  /** The id attribute counts only when it is a non-empty string. */
  predicate HasId(e: Element) {
    Truthy(e.id)
  }

  // ---------------------------------------------------------------------------
  // One part of the selector

  /** The first two class names of the class attribute. */
  function SelectorClasses(classAttr: Option<String>): (r: seq<String>)
    ensures var ws := Words(classAttr.GetOr([]));
      |r| == (if |ws| < 2 then |ws| else 2) && r == ws[..|r|]
  {
    WordsTrim(classAttr.GetOr([]));
    FirstTwo(Words(Trim(classAttr.GetOr([]))))
  }

  /** `slice(0, 2)` on a list of names. */
  function FirstTwo(ws: seq<String>): (r: seq<String>)
    ensures |r| == (if |ws| < 2 then |ws| else 2) && r == ws[..|r|]
  {
    if |ws| < 2 then ws else ws[..2]
  }

  /** Each class name with a `.` in front, concatenated. */
  function Dotted(names: seq<String>): (r: String)
    ensures |r| >= |names|
    ensures names != [] ==> r[0] == '.'
    decreases |names|
  {
    if names == [] then [] else "." + names[0] + Dotted(names[1..])
  }

  /** The class suffix is the names joined by `.`, behind a leading `.`. */
  lemma {:induction false} DottedJoin(names: seq<String>)
    requires names != []
    ensures Dotted(names) == "." + Join(names, ".")
    decreases |names|
  {
    if |names| > 1 {
      DottedJoin(names[1..]);
      JoinCons(names[0], names[1..], ".");
      assert [names[0]] + names[1..] == names;
    }
  }

  /** Splitting the suffix after its leading `.` gives the names back, as
      long as no name contains a `.`. */
  lemma DottedSplit(names: seq<String>)
    requires names != []
    requires forall i :: 0 <= i < |names| ==> '.' !in names[i]
    ensures Dotted(names)[0] == '.' && Split(Dotted(names)[1..], '.') == names
  {
    DottedJoin(names);
    assert Dotted(names)[1..] == Join(names, ".");
    SplitJoin(names, '.');
  }

  /** How many of `tags` are exactly `t` (the comparison is on the raw tag
      name, not the lower-cased one). */
  function SameTagCount(tags: seq<String>, t: String): (n: nat)
    ensures n <= |tags|
    ensures n == 0 <==> t !in tags
    decreases |tags|
  {
    if tags == [] then 0
    else
      assert tags == [tags[0]] + tags[1..];
      (if tags[0] == t then 1 else 0) + SameTagCount(tags[1..], t)
  }

  /** The `:nth-of-type` index: one more than the previous siblings with the
      same tag name. */
  function NthOfType(e: Element): (i: nat)
    ensures 1 <= i <= |e.prevSiblingTags| + 1
    ensures i == 1 <==> e.tagName !in e.prevSiblingTags
  {
    1 + SameTagCount(e.prevSiblingTags, e.tagName)
  }

  /** The part of an element with an id: `tag#id`. */
  function IdPart(e: Element): String
    requires HasId(e)
  {
    Lower(e.tagName) + "#" + e.id.value
  }

  /** The part of an element without an id: the tag, up to two classes, and
      its position among same-tag siblings. */
  function PlainPart(e: Element): String {
    Lower(e.tagName) + Dotted(SelectorClasses(e.classAttr)) + ":nth-of-type(" + NatToString(NthOfType(e)) + ")"
  }

  function Part(e: Element): String {
    if HasId(e) then IdPart(e) else PlainPart(e)
  }

  /** Every part is a non-empty string. */
  lemma PartNonEmpty(e: Element)
    ensures Part(e) != []
  {
    if HasId(e) {
      assert IdPart(e)[|Lower(e.tagName)|] == '#';
    } else {
      assert PlainPart(e)[|Lower(e.tagName) + Dotted(SelectorClasses(e.classAttr))|] == ':';
    }
  }

  // ---------------------------------------------------------------------------
  // The walk

  /** How many elements of `chain` (the element, then its ancestors,
      innermost first) the walk visits with room for `budget` parts: it stops
      at the budget, at the top of the chain, or just after the first element
      with an id, and it passes only elements without one. */
  function WalkLength(chain: seq<Element>, budget: nat): (n: nat)
    ensures n <= budget && n <= |chain|
    ensures chain != [] && budget > 0 ==> n > 0
    ensures forall k :: 0 <= k < n - 1 ==> !HasId(chain[k])
    ensures n == budget || n == |chain| || (n > 0 && HasId(chain[n - 1]))
    decreases |chain|
  {
    if chain == [] || budget == 0 then 0
    else if HasId(chain[0]) then 1
    else
      var n := 1 + WalkLength(chain[1..], budget - 1);
      assert forall k :: 1 <= k < n ==> chain[k] == chain[1..][k - 1];
      n
  }

  /** The part of every element of the chain, innermost first. */
  function PartsOf(chain: seq<Element>): (all: seq<String>)
    ensures |all| == |chain|
  {
    seq(|chain|, k requires 0 <= k < |chain| => Part(chain[k]))
  }

  /** The parts of the selector of the element at the head of `chain`: those
      of the elements the walk visits, outermost first. */
  function SelectorParts(chain: seq<Element>): (ps: seq<String>)
    ensures |ps| == WalkLength(chain, MaxSelectorParts)
  {
    Outermost(PartsOf(chain), WalkLength(chain, MaxSelectorParts))
  }

  /** The first `n` of `all`, last one first: the order `unshift` leaves. */
  function Outermost(all: seq<String>, n: nat): (r: seq<String>)
    requires n <= |all|
    ensures |r| == n
  {
    seq(n, j requires 0 <= j < n => all[n - 1 - j])
  }

  /** `buildSelector`: the parts joined with `' > '`. */
  function Selector(chain: seq<Element>): String {
    Join(SelectorParts(chain), " > ")
  }

  /** The walk visits at least one and at most five elements; it passes only
      elements without an id; and it stops short of both the budget and the top
      of the chain only just after an element with an id. */
  lemma WalkShape(chain: seq<Element>)
    requires chain != []
    ensures var n := WalkLength(chain, MaxSelectorParts);
      && 1 <= n <= MaxSelectorParts
      && (forall k :: 0 <= k < n - 1 ==> !HasId(chain[k]))
      && (HasId(chain[0]) ==> n == 1)
      && (n < MaxSelectorParts && n < |chain| ==> HasId(chain[n - 1]))
  {
  }

  /** Reading `Outermost` from the back gives `all` in order. */
  lemma OutermostIndex(all: seq<String>, n: nat, k: nat)
    requires k < n <= |all|
    ensures Outermost(all, n)[n - 1 - k] == all[k]
  {
  }

  /** The element with index k in the chain contributes the part k places
      from the end of the selector, so the innermost part is the element's own
      and the outermost one belongs to the last element visited. */
  lemma SelectorPartsOrder(chain: seq<Element>, k: nat)
    requires k < |SelectorParts(chain)|
    ensures SelectorParts(chain)[|SelectorParts(chain)| - 1 - k] == Part(chain[k])
  {
    OutermostIndex(PartsOf(chain), WalkLength(chain, MaxSelectorParts), k);
  }

  /** An element with an id is a selector of one part, `tag#id`; otherwise the
      walk stops early only at an ancestor with an id, whose `tag#id` is the
      outermost part. */
  lemma SelectorPartsIdStop(chain: seq<Element>)
    requires chain != []
    ensures var ps := SelectorParts(chain);
      && (HasId(chain[0]) ==> ps == [IdPart(chain[0])])
      && (|ps| < MaxSelectorParts && |ps| < |chain| ==> HasId(chain[|ps| - 1]) && ps[0] == IdPart(chain[|ps| - 1]))
  {
    var ps := SelectorParts(chain);
    WalkShape(chain);
    SelectorPartsOrder(chain, |ps| - 1);
    if HasId(chain[0]) {
      assert |ps| == 1 && ps[0] == Part(chain[0]) == IdPart(chain[0]);
    }
  }

  /** Join of non-empty parts is non-empty. */
  lemma JoinNonEmpty(parts: seq<String>, sep: String)
    requires parts != [] && parts[0] != []
    ensures Join(parts, sep) != []
  {
  }

  /** The selector of an element is never the empty string. */
  lemma {:induction false} SelectorNonEmpty(chain: seq<Element>)
    requires chain != []
    ensures Selector(chain) != []
  {
    var ps := SelectorParts(chain);
    WalkShape(chain);
    SelectorPartsOrder(chain, |ps| - 1);
    PartNonEmpty(chain[|ps| - 1]);
    JoinNonEmpty(ps, " > ");
  }

  /** The inner loop of `buildSelector`: count the previous siblings with the
      same tag name, starting from 1. */
  method SiblingIndex(e: Element) returns (idx: nat)
    ensures idx == NthOfType(e)
  {
    idx := 1;
    var j := 0;
    while j < |e.prevSiblingTags|
      invariant 0 <= j <= |e.prevSiblingTags|
      invariant idx == 1 + SameTagCount(e.prevSiblingTags[..j], e.tagName)
    {
      CountStep(e.prevSiblingTags, j, e.tagName);
      if e.prevSiblingTags[j] == e.tagName {
        idx := idx + 1;
      }
      j := j + 1;
    }
    assert e.prevSiblingTags[..j] == e.prevSiblingTags;
  }

  /** Counting one more tag. */
  lemma {:induction false} CountStep(tags: seq<String>, j: nat, t: String)
    requires j < |tags|
    ensures SameTagCount(tags[..j + 1], t) == SameTagCount(tags[..j], t) + (if tags[j] == t then 1 else 0)
    decreases j
  {
    if j > 0 {
      assert tags[..j + 1][1..] == tags[1..][..j];
      assert tags[..j][1..] == tags[1..][..j - 1];
      CountStep(tags[1..], j - 1, t);
    }
  }

  /** No element below index `i` of the chain has an id. */
  predicate NoIdBelow(chain: seq<Element>, i: nat)
    requires i <= |chain|
  {
    forall k :: 0 <= k < i ==> !HasId(chain[k])
  }

  /** `parts` holds the first `i` of `all`, reversed. */
  predicate Collected(all: seq<String>, i: nat, parts: seq<String>)
    requires i <= |all|
  {
    |parts| == i && forall j :: 0 <= j < i ==> parts[j] == all[i - 1 - j]
  }

  lemma WalkStep(all: seq<String>, i: nat, parts: seq<String>)
    requires i < |all| && Collected(all, i, parts)
    ensures Collected(all, i + 1, [all[i]] + parts)
  {
  }

  lemma NoIdStep(chain: seq<Element>, i: nat)
    requires i < |chain| && NoIdBelow(chain, i) && !HasId(chain[i])
    ensures NoIdBelow(chain, i + 1)
  {
  }

  lemma CollectedOutermost(all: seq<String>, i: nat, parts: seq<String>)
    requires i <= |all| && Collected(all, i, parts)
    ensures parts == Outermost(all, i)
  {
  }

  /** The walk ran out of budget or of chain without meeting an id. */
  lemma WalkExhausted(chain: seq<Element>, i: nat)
    requires i <= |chain| && i <= MaxSelectorParts && (i == |chain| || i == MaxSelectorParts)
    requires NoIdBelow(chain, i)
    ensures WalkLength(chain, MaxSelectorParts) == i
  {
  }

  /** The walk met an id at index `i` and stopped after it. */
  lemma WalkMetId(chain: seq<Element>, i: nat)
    requires i < |chain| && i < MaxSelectorParts && HasId(chain[i])
    requires NoIdBelow(chain, i)
    ensures WalkLength(chain, MaxSelectorParts) == i + 1
  {
  }

  /** `buildSelector`: walk up from the element, putting each part in front
      of the ones collected so far, until five parts, the top of the chain,
      or an element with an id. */
  method BuildSelector(chain: seq<Element>) returns (sel: String)
    ensures sel == Selector(chain)
  {
    ghost var all := PartsOf(chain);
    var parts: seq<String> := [];
    var i := 0;
    while i < |chain| && |parts| < MaxSelectorParts
      invariant 0 <= i <= |chain| && i <= MaxSelectorParts && |parts| == i
      invariant NoIdBelow(chain, i) && Collected(all, i, parts)
    {
      var part := ElementPart(chain[i]);
      assert part == all[i];
      WalkStep(all, i, parts);
      parts := [part] + parts;
      if HasId(chain[i]) {
        WalkMetId(chain, i);
        CollectedOutermost(all, i + 1, parts);
        break;
      }
      NoIdStep(chain, i);
      i := i + 1;
    }
    if i == |chain| || i == MaxSelectorParts {
      WalkExhausted(chain, i);
      CollectedOutermost(all, i, parts);
    }
    sel := Join(parts, " > ");
  }

  /** One turn of the walk: the lower-cased tag and the class suffix, then
      either `tag#id` or the tag, the classes and the sibling index. It is a
      method of its own, proved equal to `Part`, so that the walk's loop
      reasons about one element at a time. */
  method ElementPart(cur: Element) returns (part: String)
    ensures part == Part(cur)
  {
    var tag := Lower(cur.tagName);
    var cls := Dotted(SelectorClasses(cur.classAttr));
    if HasId(cur) {
      part := tag + "#" + cur.id.value;
    } else {
      var idx := SiblingIndex(cur);
      part := tag + cls + ":nth-of-type(" + NatToString(idx) + ")";
    }
  }

  // ---------------------------------------------------------------------------
  // Text capture

  /** `textContent`, trimmed, with each whitespace run turned into one space. */
  function NormalizeText(content: Option<String>): (r: String)
    ensures IsTrimmed(r) && |r| <= |content.GetOr([])|
    ensures Collapsed(r)
    ensures Words(r) == Words(content.GetOr([]))
  {
    var t := Trim(content.GetOr([]));
    CollapseKeepsTrimmed(t);
    WordsTrim(content.GetOr([]));
    WordsCollapse(t);
    CollapseSpaces(t)
  }

  /** `s.slice(0, end)`: a negative end counts from the back. */
  function SliceTo(s: String, end: int): (r: String)
    ensures |r| <= |s| && r == s[..|r|]
    ensures 0 <= end ==> |r| == if end < |s| then end else |s|
  {
    if end >= 0 then (if end < |s| then s[..end] else s)
    else if |s| + end > 0 then s[..|s| + end] else []
  }

  /** Text longer than the limit keeps its first `maxTextChars` characters and
      gets an ellipsis; empty text and text within the limit are kept. */
  function ClipText(text: String, maxTextChars: int): (r: String)
    ensures text == [] || |text| <= maxTextChars ==> r == text
    ensures text != [] && |text| > maxTextChars ==>
              1 <= |r| <= |text| + 1 && r[|r| - 1] == '…' && r[..|r| - 1] == text[..|r| - 1]
    ensures 0 <= maxTextChars ==> |r| <= maxTextChars + 1
    ensures 0 <= maxTextChars < |text| ==> r == text[..maxTextChars] + "…"
  {
    if text != [] && |text| > maxTextChars then SliceTo(text, maxTextChars) + "…" else text
  }

  /** The captured text: normalised, clipped, and absent when empty. */
  function ClickText(content: Option<String>, maxTextChars: int): (r: Option<String>)
    ensures r.Some? <==> NormalizeText(content) != []
    ensures r.Some? ==> r.value != [] && (0 <= maxTextChars ==> |r.value| <= maxTextChars + 1)
  {
    var n := NormalizeText(content);
    var t := ClipText(n, maxTextChars);
    assert t == [] <==> n == [];
    if t == [] then None else Some(t)
  }

  // ---------------------------------------------------------------------------
  // The handler

  /** What `ev.target` is: nothing, a node that is not an element, or an
      element together with its ancestors, innermost first. */
  datatype ClickTarget = NoTarget | NonElement | ElementTarget(el: Element, ancestors: seq<Element>)

  /** A click as the handler sees it: the composed path (node identities),
      the target and the client coordinates. */
  datatype Click = Click(path: seq<nat>, target: ClickTarget, clientX: int, clientY: int)

  /** The id and the timestamp of an event (time and randomness are inputs). */
  datatype ClickStamp = ClickStamp(id: String, timestamp: int)

  /** The handler's settings after defaults: the node whose clicks are
      ignored, if any, and the text limit. */
  datatype ClickSettings = ClickSettings(ignoreWithin: Option<nat>, maxTextChars: int)

  /** `ignoreWithin` falls back to the page's widget host, and `maxTextChars`
      to 120, when the options leave them out. */
  function Settings(ignoreWithin: Option<Option<nat>>, maxTextChars: Option<int>, widgetHost: Option<nat>): (s: ClickSettings)
    ensures ignoreWithin.None? ==> s.ignoreWithin == widgetHost
    ensures ignoreWithin.Some? ==> s.ignoreWithin == ignoreWithin.value
    ensures s.maxTextChars == (if maxTextChars.Some? then maxTextChars.value else DefaultMaxTextChars)
  {
    ClickSettings(if ignoreWithin.Some? then ignoreWithin.value else widgetHost, maxTextChars.GetOr(DefaultMaxTextChars))
  }

  /** The click falls inside the ignored node. */
  predicate Ignored(s: ClickSettings, c: Click) {
    s.ignoreWithin.Some? && s.ignoreWithin.value in c.path
  }

  /** `name`, else `aria-label`, each only when non-empty. */
  function AccessibleName(e: Element): (r: Option<String>)
    ensures r.Some? ==> r.value != []
    ensures r.None? <==> !Truthy(e.name) && !Truthy(e.ariaLabel)
  {
    if Truthy(e.name) then e.name else if Truthy(e.ariaLabel) then e.ariaLabel else None
  }

  /** Keeps a non-empty attribute value and drops an empty one. */
  function NonEmpty(a: Option<String>): (r: Option<String>)
    ensures r.Some? <==> Truthy(a)
    ensures r.Some? ==> r == a
  {
    if Truthy(a) then a else None
  }

  /** The event the handler emits for one click, if any. */
  function HandleClick(s: ClickSettings, c: Click, stamp: ClickStamp): Option<ClickLog> {
    if Ignored(s, c) then None
    else match c.target
      case NoTarget => None
      case NonElement => None
      case ElementTarget(el, ancestors) =>
        var selector := Selector([el] + ancestors);
        Some(ClickLog(stamp.id, stamp.timestamp, Lower(el.tagName), NonEmpty(el.id),
                      Words(el.classAttr.GetOr([])), NonEmpty(el.role), AccessibleName(el),
                      ClickText(el.textContent, s.maxTextChars),
                      if selector == [] then None else Some(selector),
                      c.clientX, c.clientY))
  }

  /** A click is reported exactly when it is outside the ignored node and
      lands on an element. */
  lemma ClickReported(s: ClickSettings, c: Click, stamp: ClickStamp)
    ensures HandleClick(s, c, stamp).Some? <==> !Ignored(s, c) && c.target.ElementTarget?
  {
  }

  /** The report carries the stamp, the coordinates and the lower-cased tag. */
  lemma ClickIdentity(s: ClickSettings, c: Click, stamp: ClickStamp)
    requires HandleClick(s, c, stamp).Some?
    ensures var r := HandleClick(s, c, stamp).value;
      && r.id == stamp.id && r.timestamp == stamp.timestamp
      && r.x == c.clientX && r.y == c.clientY
      && r.tag == Lower(c.target.el.tagName) && IsLowerCase(r.tag)
  {
  }

  /** Attributes appear only when non-empty, and the classes are words. */
  lemma ClickAttributes(s: ClickSettings, c: Click, stamp: ClickStamp)
    requires HandleClick(s, c, stamp).Some?
    ensures var r := HandleClick(s, c, stamp).value;
      && (r.idAttr.Some? ==> r.idAttr.value != [])
      && (r.role.Some? ==> r.role.value != [])
      && (r.name.Some? ==> r.name.value != [])
      && (forall i :: 0 <= i < |r.classes| ==> IsWord(r.classes[i]))
  {
  }

  /** The text is never empty and has at most the limit plus one characters. */
  lemma ClickTextBounds(s: ClickSettings, c: Click, stamp: ClickStamp)
    requires HandleClick(s, c, stamp).Some?
    ensures var r := HandleClick(s, c, stamp).value;
      && (r.text.Some? ==> r.text.value != [])
      && (r.text.Some? && 0 <= s.maxTextChars ==> |r.text.value| <= s.maxTextChars + 1)
  {
    var t := ClickText(c.target.el.textContent, s.maxTextChars);
    assert HandleClick(s, c, stamp).value.text == t;
  }

  /** A reported click always carries the selector of its element. */
  lemma ClickSelector(s: ClickSettings, c: Click, stamp: ClickStamp)
    requires HandleClick(s, c, stamp).Some?
    ensures HandleClick(s, c, stamp).value.selector == Some(Selector([c.target.el] + c.target.ancestors))
  {
    SelectorNonEmpty([c.target.el] + c.target.ancestors);
  }
}
