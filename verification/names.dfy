/**
 * The names editor: an ordered list of names that the user extends at the
 * end and shortens at any position. After every change the whole list is
 * emitted through the `update` output. Each emission is recorded, as a copy of the list,
 * in the component's history of emissions.
 */
module Names {
  import opened Hex
  import opened Palette
  import Roulette
  import RouletteCanvas

  /**
   * `items.splice(index, 1)` for a non-negative index: the element at
   * `index` is removed and the rest keep their order; an index past the end
   * removes nothing.
   */
  function SpliceOne(items: seq<string>, index: nat): (r: seq<string>)
    ensures index < |items| ==> |r| == |items| - 1
    ensures index < |items| ==> forall k :: 0 <= k < index ==> r[k] == items[k]
    ensures index < |items| ==> forall k :: index <= k < |r| ==> r[k] == items[k + 1]
    ensures index >= |items| ==> r == items
  {
    if index < |items| then items[..index] + items[index + 1..] else items
  }

  /** Removing one element takes exactly that element out of the list's contents. */
  lemma SpliceOneRemovesOne(items: seq<string>, index: nat)
    requires index < |items|
    ensures multiset(SpliceOne(items, index)) + multiset{items[index]} == multiset(items)
  {
    assert items == items[..index] + [items[index]] + items[index + 1..];
  }

  /** Deleting the name just added at the end gives the list back. */
  lemma DeleteUndoesAdd(items: seq<string>, name: string)
    ensures SpliceOne(items + [name], |items|) == items
  {
    assert (items + [name])[..|items|] == items;
  }

  /**
   * `background(index)`: the inline style of row `index`, whose only
   * property is `background`, set to palette colour `index mod 9`.
   */
  function Background(index: nat): (style: map<string, string>)
    ensures style.Keys == {"background"}
    ensures style["background"] in Colors && IsHexColor(style["background"])
  {
    map["background" := ColorAt(index)]
  }

  /**
   * Row `i` of the editor and wedge `i` of the wheel are painted in the same
   * colour, whatever the names and the canvas size.
   */
  lemma BackgroundMatchesWedge(items: seq<string>, width: nat, height: nat, i: nat)
    requires i < |items|
    ensures var plan := RouletteCanvas.DrawPlan(Colors, Roulette.InverseColor, items, width, height);
      1 + i < |plan| && plan[1 + i].Filled? && plan[1 + i].fill == Background(i)["background"]
  {
    RouletteCanvas.WedgeFill(Colors, Roulette.InverseColor, items, width, height, i);
  }

  class NamesComponent {
    /** The names, in the order they are listed and drawn. */
    var items: seq<string>
    /** Every list passed to `update.emit`, oldest first. */
    var emitted: seq<seq<string>>

    /** A new editor holds no names and has emitted nothing. */
    constructor()
      ensures items == [] && emitted == []
    {
      items := [];
      emitted := [];
    }

    /**
     * `add_item`: the name typed in is appended as it is (an empty or
     * repeated name included), then the list is emitted.
     */
    method AddItem(name: string)
      modifies this
      ensures items == old(items) + [name]
      ensures emitted == old(emitted) + [items]
    {
      items := items + [name];
      EmitChange();
    }

    /** `delete_item`: `splice(index, 1)`, then the list is emitted. */
    method DeleteItem(index: nat)
      modifies this
      ensures items == SpliceOne(old(items), index)
      ensures emitted == old(emitted) + [items]
    {
      if index < |items| {
        items := items[..index] + items[index + 1..];
      }
      EmitChange();
    }

    /** `emit_change`: the current list is emitted once; the list is unchanged. */
    method EmitChange()
      modifies this
      ensures items == old(items)
      ensures emitted == old(emitted) + [items]
    {
      emitted := emitted + [items];
    }
  }
}
