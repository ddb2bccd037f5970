/**
 * The part of the browser's document model that the ripple touches: an
 * element's inline style, its class list, its children and parent, and the
 * animation started on it.
 */
module Dom {
  import opened Wrappers

  /**
   * An element's inline style. Unset string properties are "", unset lengths
   * are None. Lengths are in CSS pixels; the "px" suffix is not modelled.
   * `scale` stands for the transform "translateZ(0) scale(s)".
   */
  datatype Style = Style(
    position: string,
    overflow: string,
    contain: string,
    willChange: string,
    backgroundColor: string,
    borderRadius: string,
    pointerEvents: string,
    mixBlendMode: string,
    left: Option<real>,
    top: Option<real>,
    width: Option<real>,
    height: Option<real>,
    scale: Option<real>,
    opacity: Option<real>)

  /** The inline style of a freshly created element: nothing set. */
  const EmptyStyle := Style("", "", "", "", "", "", "", "", None, None, None, None, None, None)

  /** The two coordinates of a bounding client rectangle that the ripple reads. */
  datatype Rect = Rect(left: real, top: real)

  /** One keyframe of a scale-and-fade animation. */
  datatype Keyframe = Keyframe(scale: real, opacity: real)

  /** The arguments of `element.animate(keyframes, {duration, easing, fill})`. */
  datatype Animation = Animation(keyframes: seq<Keyframe>, duration: nat, easing: string, fill: string)

  /** `s` with every occurrence of `e` taken out, order kept. */
  function Without<T(==)>(s: seq<T>, e: T): (r: seq<T>)
    ensures |r| <= |s|
    ensures forall i :: 0 <= i < |r| ==> r[i] in s && r[i] != e
    ensures forall i :: 0 <= i < |s| && s[i] != e ==> s[i] in r
    ensures e !in s ==> r == s
    ensures multiset(r) == multiset(s)[e := 0]
  {
    if s == [] then []
    else
      assert s == [s[0]] + s[1..];
      if s[0] == e then Without(s[1..], e)
      else [s[0]] + Without(s[1..], e)
  }

  /** Removal works element by element, so the kept children stay in their order. */
  lemma {:induction false} WithoutConcat<T>(s: seq<T>, t: seq<T>, e: T)
    ensures Without(s + t, e) == Without(s, e) + Without(t, e)
  {
    if s == [] {
      assert s + t == t;
    } else {
      assert (s + t)[0] == s[0];
      assert (s + t)[1..] == s[1..] + t;
      WithoutConcat(s[1..], t, e);
    }
  }

  /** Taking out a child that was appended last, and nowhere else, restores the list. */
  lemma {:induction false} WithoutAppended<T>(s: seq<T>, e: T)
    requires e !in s
    ensures Without(s + [e], e) == s
  {
    if s == [] {
      assert [e][1..] == [];
    } else {
      assert (s + [e])[1..] == s[1..] + [e];
      WithoutAppended(s[1..], e);
    }
  }

  class Element {
    /** The name the element was created with, in lower case as written ("span"), not the upper-case `tagName`. */
    const localName: string
    var classes: set<string>
    var style: Style
    var children: seq<Element>
    var parent: Element?
    /** The animation started on this element, if any. */
    var animation: Option<Animation>

    /** `document.createElement(localName)`. */
    constructor (localName: string)
      ensures this.localName == localName
      ensures classes == {} && style == EmptyStyle && children == []
      ensures parent == null && animation == None
    {
      this.localName := localName;
      classes := {};
      style := EmptyStyle;
      children := [];
      parent := null;
      animation := None;
    }

    /** `element.remove()`: detach from the parent, if there is one. */
    method Remove()
      modifies this, parent
      ensures parent == null
      ensures old(parent) != null ==> old(parent).children == Without(old(parent.children), this)
      ensures old(parent) != this ==> children == old(children)
      ensures classes == old(classes) && style == old(style) && animation == old(animation)
      ensures old(parent) != null ==>
        old(parent).style == old(parent.style) && old(parent).classes == old(parent.classes)
      ensures old(parent) != null && old(parent) != this ==> old(parent).parent == old(parent.parent)
      ensures old(parent) != null && old(parent) != this ==> old(parent).animation == old(parent.animation)
    {
      if parent != null {
        parent.children := Without(parent.children, this);
        parent := null;
      }
    }
  }
}
