/**
 * The clickable button of odms.ui.Button, reduced to what decides which
 * handler a mouse release can fire: its rectangle, the hit test, the
 * visibility flag and the visibility gate of click().  The Runnable a button
 * carries is a type parameter: the button only hands it back when clicked.
 */
module Widgets {
  import opened Wrappers

  class Button<A> {
    // Position and size; the source never reassigns them after construction.
    const x: int
    const y: int
    const w: int
    const h: int
    // Display text (only drawn, which is not modelled).
    const text: string
    // The handler that a click on a visible button dispatches.
    const onClick: A
    // Whether the button is shown and clickable.
    var visible: bool

    constructor (x: int, y: int, w: int, h: int, t: string, oc: A, v: bool)
      ensures this.x == x && this.y == y && this.w == w && this.h == h
      ensures text == t && onClick == oc && visible == v
    {
      this.x := x;
      this.y := y;
      this.w := w;
      this.h := h;
      this.text := t;
      this.onClick := oc;
      this.visible := v;
    }

    /** The hit test: the mouse is strictly inside the rectangle. */
    function MouseOver(mouseX: int, mouseY: int): (r: bool)
      // points on the border are outside
      ensures (mouseX == x || mouseX == x + w || mouseY == y || mouseY == y + h) ==> !r
      // so a button narrower or shorter than two pixels can never be hovered
      ensures r ==> 2 <= w && 2 <= h
      ensures r ==> x < mouseX < x + w && y < mouseY < y + h
    {
      mouseX > x && mouseX < x + w && mouseY > y && mouseY < y + h
    }

    /**
     * The visibility gate of click(): a visible button hands out its handler
     * to be run; a hidden one does nothing.
     */
    method Click() returns (fired: Option<A>)
      ensures fired.Some? <==> visible
      ensures fired.Some? ==> fired.value == onClick
    {
      if visible {
        fired := Some(onClick);
      } else {
        fired := None;
      }
    }

    method SetVisibility(v: bool)
      modifies this`visible
      ensures visible == v
    {
      visible := v;
    }
  }

  /** Two buttons with the same rectangle agree on every hit test. */
  lemma SharedRectangleSameHit<A, B>(a: Button<A>, b: Button<B>, mouseX: int, mouseY: int)
    requires a.x == b.x && a.y == b.y && a.w == b.w && a.h == b.h
    ensures a.MouseOver(mouseX, mouseY) == b.MouseOver(mouseX, mouseY)
  {
  }
}
