/**
 * The scene-graph sprite of the sketch in src/main_old.c: each sprite keeps a
 * parent link and a growable array of child pointers, and the three parenting
 * operations keep the two sides of the link consistent. The same record
 * carries the grid cell it was filed under and its animation controller.
 */
module Scene {
  import opened Seqs
  import opened Animation

  class Sprite {
    var definition: SpriteDefinition
    /** NULL for a root sprite. */
    var parent: Sprite?
    /** The child pointer array; its length is the capacity (0 before the first child). */
    var children: array<Sprite?>
    var childCount: nat
    var transformDirty: bool
    /** The grid cell the sprite was last filed under. */
    var cellX: int
    var cellY: int
    /** NULL when the sprite has no animations. */
    var animations: AnimationController?

    /**
     * createSprite (the version that also sets the animation and grid
     * fields), for the fields modelled here: no parent, no children,
     * capacity 0, transform dirty, no animation controller, and cell
     * (-1, -1), which lies outside every grid.
     */
    constructor (definition: SpriteDefinition)
      ensures Valid() && this.definition == definition && parent == null
      ensures children.Length == 0 && childCount == 0 && transformDirty
      ensures cellX == -1 && cellY == -1 && animations == null
    {
      this.definition := definition;
      parent := null;
      children := new Sprite?[0];
      childCount := 0;
      transformDirty := true;
      cellX, cellY := -1, -1;
      animations := null;
    }

    ghost predicate Valid()
      reads this
    {
      childCount <= children.Length
    }

    /** The children, in insertion order. */
    ghost function Children(): seq<Sprite?>
      reads this, children
      requires Valid()
    {
      children[..childCount]
    }
  }

  /** The capacity a full child array grows to: 4 from empty, otherwise double. */
  function GrownCapacity(capacity: nat): (r: nat)
    ensures r > capacity
    ensures capacity == 0 ==> r == 4
    ensures capacity > 0 ==> r == 2 * capacity
  {
    if capacity == 0 then 4 else capacity * 2
  }

  /**
   * addChild: when the array is full it is reallocated at the grown capacity
   * (the children are copied over); the child is appended, points back at the
   * parent and is marked dirty.
   */
  method AddChild(parent: Sprite, child: Sprite)
    requires parent.Valid()
    modifies parent`children, parent`childCount, parent.children, child`parent, child`transformDirty
    ensures parent.Valid()
    ensures parent.Children() == old(parent.Children()) + [child]
    ensures old(parent.childCount) < old(parent.children.Length) ==> parent.children == old(parent.children)
    ensures old(parent.childCount) >= old(parent.children.Length) ==>
      fresh(parent.children) && parent.children.Length == GrownCapacity(old(parent.children.Length))
    ensures child.parent == parent && child.transformDirty
  {
    if parent.childCount >= parent.children.Length {
      var grown := new Sprite?[GrownCapacity(parent.children.Length)](_ => null);
      forall k | 0 <= k < parent.childCount {
        grown[k] := parent.children[k];
      }
      parent.children := grown;
    }
    parent.children[parent.childCount] := child;
    parent.childCount := parent.childCount + 1;
    child.parent := parent;
    child.transformDirty := true;
  }

  /**
   * removeChild: the first occurrence of the child is removed by shifting the
   * later children down; the child loses its parent and is marked dirty.
   * When the child is not among the children nothing changes.
   */
  method RemoveChild(parent: Sprite, child: Sprite)
    requires parent.Valid()
    modifies parent`childCount, parent.children, child`parent, child`transformDirty
    ensures parent.Valid()
    ensures child in old(parent.Children()) ==>
      && parent.Children() == RemoveFirstOf(old(parent.Children()), child)
      && child.parent == null && child.transformDirty
    ensures child !in old(parent.Children()) ==>
      && parent.childCount == old(parent.childCount) && parent.children[..] == old(parent.children[..])
      && child.parent == old(child.parent) && child.transformDirty == old(child.transformDirty)
  {
    var found := RemoveFirst(parent.children, parent.childCount, child);
    if found {
      parent.childCount := parent.childCount - 1;
      child.parent := null;
      child.transformDirty := true;
    }
  }

  /**
   * setSpriteParent: the sprite leaves its old parent's children (if it is
   * among them), takes the new parent (NULL makes it a root), joins the end of
   * the new parent's children, and is marked dirty. Two distinct sprites
   * never share a child array.
   */
  method SetSpriteParent(sprite: Sprite, parent: Sprite?)
    requires sprite.parent != null ==> sprite.parent.Valid()
    requires parent != null ==> parent.Valid()
    requires sprite.parent != null && parent != null && sprite.parent != parent ==>
               sprite.parent.children != parent.children
    modifies sprite`parent, sprite`transformDirty
    modifies if sprite.parent != null then {sprite.parent, sprite.parent.children} else {}
    modifies if parent != null then {parent, parent.children} else {}
    ensures sprite.parent == parent && sprite.transformDirty
    ensures var was := old(sprite.parent);
      was != null && was != parent ==>
        was.Valid() && was.Children() == RemoveFirstOf(old(was.Children()), sprite)
    ensures var was := old(sprite.parent);
      parent != null ==>
        && parent.Valid()
        && parent.Children() == (if was == parent then RemoveFirstOf(old(parent.Children()), sprite)
                                 else old(parent.Children())) + [sprite]
  {
    ghost var was := sprite.parent;
    if sprite.parent != null {
      RemoveChild(sprite.parent, sprite);
    }
    sprite.parent := parent;
    if parent != null {
      AddChild(parent, sprite);
    }
    sprite.transformDirty := true;
  }

  /** Appending and then removing a child gives back the children as they were, when it was not there before. */
  lemma AddThenRemove(children: seq<Sprite?>, child: Sprite)
    requires child !in children
    ensures RemoveFirstOf(children + [child], child) == children
  {
    var s := children + [child];
    assert forall k :: 0 <= k < |children| ==> s[k] != child;
    assert s[|children|] == child;
    assert IndexOf(s, child) == |children|;
  }
}
