/**
 * The state of a tag button (TagCanvas): whether it is enabled, grayed and
 * selected, how a refresh derives those from the taggables in view, and the
 * compact or default layout. Painting, colours, images, fonts and SWT event
 * handling are not modelled; redraw() and requestLayout() do nothing here.
 */
module TagButton {
  import opened Common

  const DEF_CURVE_WIDTH: int := 25
  const COMPACT_CURVE_WIDTH: int := 15
  const DEF_PADDING_IMAGE_X: int := 5
  const COMPACT_PADDING_IMAGE_X: int := 0
  const DEF_PADDING_IMAGE_Y: int := 2
  const COMPACT_PADDING_IMAGE_Y: int := 1
  const DEF_CONTENT_PADDING_Y: int := 2
  const COMPACT_CONTENT_PADDING_Y: int := 2
  const DEF_CONTENT_PADDING_X0: int := 5
  const COMPACT_CONTENT_PADDING_X0: int := 3
  const DEF_CONTENT_PADDING_X1: int := 8
  const COMPACT_CONTENT_PADDING_X1: int := 5

  /** A taggable (a download, say), known only by its identity. */
  type TaggableId = nat

  /** Some taggable in the list carries the tag. */
  predicate SomeTagged(taggables: seq<TaggableId>, members: set<TaggableId>)
  {
    exists i :: 0 <= i < |taggables| && taggables[i] in members
  }

  /** Some taggable in the list lacks the tag. */
  predicate SomeUntagged(taggables: seq<TaggableId>, members: set<TaggableId>)
  {
    exists i :: 0 <= i < |taggables| && taggables[i] !in members
  }

  /**
   * The loop of updateState over the taggables, with its early breaks: they
   * stop the scan once both flags are set, so the flags still report whether
   * some taggable has the tag and whether some taggable lacks it.
   */
  method ScanTaggables(taggables: seq<TaggableId>, members: set<TaggableId>) returns (hasTag: bool, hasNoTag: bool)
    ensures hasTag == SomeTagged(taggables, members)
    ensures hasNoTag == SomeUntagged(taggables, members)
  {
    hasTag, hasNoTag := false, false;
    var i := 0;
    while i < |taggables|
      invariant 0 <= i <= |taggables|
      invariant hasTag == exists j :: 0 <= j < i && taggables[j] in members
      invariant hasNoTag == exists j :: 0 <= j < i && taggables[j] !in members
    {
      var curHasTag := taggables[i] in members;
      if !hasTag && curHasTag {
        hasTag := true;
        if hasNoTag {
          break;
        }
      } else if !hasNoTag && !curHasTag {
        hasNoTag := true;
        if hasTag {
          break;
        }
      }
      i := i + 1;
    }
  }

  /** The inputs to the final rule: the override wins over the taggables; no list and no override is neither. */
  function HasTagInput(taggables: Option<seq<TaggableId>>, members: set<TaggableId>, override: Option<bool>): bool
  {
    if override.Some? then override.value
    else taggables.Some? && SomeTagged(taggables.value, members)
  }

  function HasNoTagInput(taggables: Option<seq<TaggableId>>, members: set<TaggableId>, override: Option<bool>): bool
  {
    if override.Some? then !override.value
    else taggables.Some? && SomeUntagged(taggables.value, members)
  }

  /** The enabled, grayed and selected flags of a tag button. */
  datatype Look = Look(enabled: bool, grayed: bool, selected: bool)

  /**
   * The final rule of updateState. A mixed selection shows grayed and
   * selected; a uniform one is selected exactly when it carries the tag; an
   * auto-add tag can be clicked only to remove it from a uniformly tagged
   * selection, and not at all when it also auto-removes.
   */
  function FinalLook(hasTag: bool, hasNoTag: bool, autoAdd: bool, autoRem: bool): (r: Look)
    ensures r.selected == hasTag
    ensures r.grayed <==> (hasTag && hasNoTag) || (autoAdd && autoRem && !hasTag)
    ensures r.enabled <==> !autoAdd || (hasTag && !hasNoTag && !autoRem)
  {
    if hasTag && hasNoTag then Look(!autoAdd, true, true)
    else if autoAdd && autoRem then Look(false, !hasTag, hasTag)
    else Look(hasTag || (!hasTag && !autoAdd), false, hasTag)
  }

  class TagCanvas {
    const isTagAuto: bool
    var enabled: bool
    var selected: bool
    var grayed: bool
    var disableAuto: bool
    var enableWhenNoTaggables: bool
    var compact: bool
    var showImage: bool
    var paddingContentY: int
    var paddingContentX0: int
    var paddingContentX1: int
    var paddingImageX: int
    var paddingImageY: int
    var curveWidth: int

    /**
     * The padding, curve and image fields follow the compact flag. Only the
     * constructor and SetCompact write those fields; the other setters and
     * UpdateState leave them untouched, as their modifies frames show.
     */
    ghost predicate Valid()
      reads this
    {
      if compact then
        && paddingImageX == COMPACT_PADDING_IMAGE_X && paddingImageY == COMPACT_PADDING_IMAGE_Y
        && paddingContentY == COMPACT_CONTENT_PADDING_Y && paddingContentX0 == COMPACT_CONTENT_PADDING_X0
        && paddingContentX1 == COMPACT_CONTENT_PADDING_X1 && curveWidth == COMPACT_CURVE_WIDTH
        && !showImage
      else
        && paddingImageX == DEF_PADDING_IMAGE_X && paddingImageY == DEF_PADDING_IMAGE_Y
        && paddingContentY == DEF_CONTENT_PADDING_Y && paddingContentX0 == DEF_CONTENT_PADDING_X0
        && paddingContentX1 == DEF_CONTENT_PADDING_X1 && curveWidth == DEF_CURVE_WIDTH
        && showImage
    }

    /** The look the user sees. */
    function Shown(): Look
      reads this
    {
      Look(enabled, grayed, selected)
    }

    /**
     * TagCanvas(parent, tag, disableAuto, enableWhenNoTaggables), where auto
     * is tag.isTagAuto(). The control starts enabled, then setDisableAuto
     * runs on the default false.
     */
    constructor (auto: seq<bool>, disableAuto: bool, enableWhenNoTaggables: bool)
      ensures Valid()
      ensures isTagAuto == (|auto| >= 2 && auto[0] && auto[1])
      ensures this.disableAuto == disableAuto && this.enableWhenNoTaggables == enableWhenNoTaggables
      ensures enabled == (!isTagAuto || !disableAuto)
      ensures !selected && !grayed && !compact
    {
      isTagAuto := |auto| >= 2 && auto[0] && auto[1];
      this.enableWhenNoTaggables := enableWhenNoTaggables;
      enabled := true;
      selected := false;
      grayed := false;
      this.disableAuto := false;
      compact := false;
      showImage := true;
      paddingContentY := DEF_CONTENT_PADDING_Y;
      paddingContentX0 := DEF_CONTENT_PADDING_X0;
      paddingContentX1 := DEF_CONTENT_PADDING_X1;
      paddingImageX := DEF_PADDING_IMAGE_X;
      paddingImageY := DEF_PADDING_IMAGE_Y;
      curveWidth := DEF_CURVE_WIDTH;
      new;
      SetDisableAuto(disableAuto);
    }

    /** setEnabled: the control's enabled flag. */
    method SetEnabled(e: bool)
      modifies this`enabled
      ensures enabled == e
    {
      enabled := e;
    }

    /** setDisableAuto: on a change, an auto tag is disabled exactly when auto is disabled. */
    method SetDisableAuto(d: bool)
      modifies this`disableAuto, this`enabled
      ensures disableAuto == d
      ensures d == old(disableAuto) ==> enabled == old(enabled)
      ensures d != old(disableAuto) ==> enabled == (!isTagAuto || !d)
    {
      if disableAuto == d {
        return;
      }
      disableAuto := d;
      var enable := !isTagAuto || !d;
      SetEnabled(enable);
    }

    /** The public setSelected: selecting or deselecting also clears the gray. */
    method SetSelected(select: bool)
      modifies this`selected, this`grayed
      ensures selected == select
      ensures select == old(selected) ==> grayed == old(grayed)
      ensures select != old(selected) ==> !grayed
    {
      SetSelectedWith(select, true);
    }

    /** The private setSelected(select, unGray). */
    method SetSelectedWith(select: bool, unGray: bool)
      modifies this`selected, this`grayed
      ensures selected == select
      ensures grayed == (old(grayed) && (select == old(selected) || !unGray))
    {
      if select != selected {
        selected := select;
        if grayed && unGray {
          grayed := false;
        }
      }
    }

    method SetGrayed(b: bool)
      modifies this`grayed
      ensures grayed == b
    {
      if b == grayed {
        return;
      }
      grayed := b;
    }

    method SetEnableWhenNoTaggables(e: bool)
      modifies this`enableWhenNoTaggables
      ensures enableWhenNoTaggables == e
    {
      if enableWhenNoTaggables == e {
        return;
      }
      enableWhenNoTaggables := e;
    }

    /** setCompact: a change of the flag switches every padding and curve field and the image. */
    method SetCompact(c: bool)
      requires Valid()
      modifies this`compact, this`showImage, this`paddingImageX, this`paddingImageY,
               this`paddingContentY, this`paddingContentX0, this`paddingContentX1, this`curveWidth
      ensures Valid() && compact == c
      ensures c == old(compact) ==> unchanged(this)
    {
      if compact == c {
        return;
      }
      compact := c;
      if c {
        paddingImageX := COMPACT_PADDING_IMAGE_X;
        paddingImageY := COMPACT_PADDING_IMAGE_Y;
        paddingContentY := COMPACT_CONTENT_PADDING_Y;
        paddingContentX0 := COMPACT_CONTENT_PADDING_X0;
        paddingContentX1 := COMPACT_CONTENT_PADDING_X1;
        curveWidth := COMPACT_CURVE_WIDTH;
        showImage := false;
      } else {
        paddingImageX := DEF_PADDING_IMAGE_X;
        paddingImageY := DEF_PADDING_IMAGE_Y;
        paddingContentY := DEF_CONTENT_PADDING_Y;
        paddingContentX0 := DEF_CONTENT_PADDING_X0;
        paddingContentX1 := DEF_CONTENT_PADDING_X1;
        curveWidth := DEF_CURVE_WIDTH;
        showImage := true;
      }
    }

    /**
     * updateState(taggables): taggables is the list in view (None for null),
     * members the taggables that carry the tag, override the trigger's
     * tagSelectedOverride (None when there is no trigger or it has no
     * opinion), and auto the tag's current isTagAuto() array. The source
     * reads auto[0] and auto[1] unguarded after the early return: a shorter
     * array throws (raised), once setEnabled may already have run.
     */
    method UpdateState(taggables: Option<seq<TaggableId>>, members: set<TaggableId>,
                       override: Option<bool>, auto: seq<bool>) returns (raised: bool)
      modifies this`enabled, this`grayed, this`selected
      ensures taggables.None? && !enableWhenNoTaggables ==>
                !raised && !enabled && !selected && grayed == old(grayed)
      ensures !(taggables.None? && !enableWhenNoTaggables) && |auto| < 2 ==>
                && raised && selected == old(selected) && grayed == old(grayed)
                && enabled == (if taggables.None? then enableWhenNoTaggables else old(enabled))
      ensures !(taggables.None? && !enableWhenNoTaggables) && |auto| >= 2 ==>
                !raised && Shown() == FinalLook(HasTagInput(taggables, members, override),
                                                HasNoTagInput(taggables, members, override), auto[0], auto[1])
    {
      raised := false;
      if taggables.None? {
        SetEnabled(enableWhenNoTaggables);
        if !enableWhenNoTaggables {
          SetSelectedWith(false, false);
          return;
        }
      }
      var hasTag, hasNoTag := false, false;
      if taggables.Some? && override.None? {
        hasTag, hasNoTag := ScanTaggables(taggables.value, members);
      } else if override.Some? {
        hasNoTag := !override.value;
        hasTag := override.value;
      }
      if |auto| < 2 {
        // ArrayIndexOutOfBoundsException at auto[0] or auto[1]
        raised := true;
        return;
      }
      var autoAdd, autoRem := auto[0], auto[1];
      if hasTag && hasNoTag {
        SetEnabled(!autoAdd);
        SetGrayed(true);
        SetSelectedWith(true, false);
      } else {
        if autoAdd && autoRem {
          SetGrayed(!hasTag);
          SetEnabled(false);
        } else {
          SetEnabled(hasTag || (!hasTag && !autoAdd));
          SetGrayed(false);
        }
        SetSelectedWith(hasTag, false);
      }
    }
  }
}
