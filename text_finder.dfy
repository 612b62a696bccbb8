/**
 * `findTextNodes`: the text a React element tree would render as raw text
 * nodes, collected depth first, left to right.
 */
module TextFinder {
  import opened Wrappers
  import opened Text

  /**
   * The values an element tree is made of. `Nil` is `null` or `undefined`;
   * numbers are integers shown by their decimal text; `Obj` is any other
   * object, with `props.children` when it has props with a children entry.
   */
  datatype Element =
    | Nil
    | Bool(b: bool)
    | Str(s: string)
    | Num(n: int)
    | Arr(items: seq<Element>)
    | Obj(children: Option<Element>)

  /** JavaScript falsiness: null, undefined, false, "" and 0. */
  predicate Falsy(e: Element) {
    e == Nil || e == Bool(false) || e == Str("") || e == Num(0)
  }

  /** `String(element)` for the two kinds of leaf that render as text. */
  function Shown(e: Element): string
    requires IsText(e)
  {
    if e.Str? then e.s else IntToString(e.n)
  }

  /** A truthy string or number: a text leaf. */
  predicate IsText(e: Element) {
    !Falsy(e) && (e.Str? || e.Num?)
  }

  /** The texts found in each element of `items`, concatenated in order. */
  function FindAll(items: seq<Element>): (r: seq<string>)
    decreases items
  {
    if items == [] then [] else FindTextNodes(items[0]) + FindAll(items[1..])
  }

  /** `findTextNodes`. */
  function FindTextNodes(e: Element): (r: seq<string>)
    ensures Falsy(e) ==> r == []
    ensures IsText(e) ==> r == [Shown(e)]
    ensures e.Bool? || (e.Obj? && e.children.None?) ==> r == []
    decreases e
  {
    if Falsy(e) then []
    else match e
      case Str(s) => [s]
      case Num(n) => [IntToString(n)]
      case Arr(items) => FindAll(items)
      case Obj(children) => if children.Some? && !Falsy(children.value) then FindTextNodes(children.value) else []
      case _ => []
  }

  /** An array's texts are its parts' texts, in order: splitting the array splits the result. */
  lemma {:induction false} FindAllAppend(xs: seq<Element>, ys: seq<Element>)
    ensures FindAll(xs + ys) == FindAll(xs) + FindAll(ys)
  {
    if xs != [] {
      assert (xs + ys)[0] == xs[0];
      assert (xs + ys)[1..] == xs[1..] + ys;
      FindAllAppend(xs[1..], ys);
    } else {
      assert xs + ys == ys;
    }
  }

  lemma ArrayConcatenates(xs: seq<Element>, ys: seq<Element>)
    ensures FindTextNodes(Arr(xs + ys)) == FindTextNodes(Arr(xs)) + FindTextNodes(Arr(ys))
    ensures FindTextNodes(Arr([])) == []
  {
    FindAllAppend(xs, ys);
  }

  /** A flat array of strings and numbers yields one text per element, in order. */
  lemma {:induction false} ArrayOfTexts(items: seq<Element>)
    requires forall i :: 0 <= i < |items| ==> IsText(items[i])
    ensures |FindAll(items)| == |items|
    ensures forall i :: 0 <= i < |items| ==> FindAll(items)[i] == Shown(items[i])
  {
    if items != [] {
      ArrayOfTexts(items[1..]);
    }
  }

  /** A falsy child contributes nothing, wherever it stands. */
  lemma FalsyChildIgnored(xs: seq<Element>, f: Element, ys: seq<Element>)
    requires Falsy(f)
    ensures FindTextNodes(Arr(xs + [f] + ys)) == FindTextNodes(Arr(xs + ys))
  {
    FindAllAppend(xs + [f], ys);
    FindAllAppend(xs, [f]);
    FindAllAppend(xs, ys);
    assert FindAll([f]) == FindTextNodes(f) + FindAll([]);
  }

  /** The truthiness test on `props.children` changes nothing: a wrapper yields what its child yields. */
  lemma WrapperTransparent(e: Element)
    ensures FindTextNodes(Obj(Some(e))) == FindTextNodes(e)
    ensures FindTextNodes(Arr([e])) == FindTextNodes(e)
  {
    assert FindAll([e]) == FindTextNodes(e) + FindAll([]);
  }

  /** No text node found is empty. */
  lemma {:induction false} NoEmptyText(e: Element)
    ensures forall t :: t in FindTextNodes(e) ==> t != ""
    decreases e, 1
  {
    if !Falsy(e) && e.Arr? {
      NoEmptyTextIn(e.items);
    } else if !Falsy(e) && e.Obj? && e.children.Some? && !Falsy(e.children.value) {
      NoEmptyText(e.children.value);
    }
  }

  lemma {:induction false} NoEmptyTextIn(items: seq<Element>)
    ensures forall t :: t in FindAll(items) ==> t != ""
    decreases items, 0
  {
    if items != [] {
      NoEmptyText(items[0]);
      NoEmptyTextIn(items[1..]);
    }
  }
}
