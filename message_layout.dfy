/**
 * The layout cache of one displayed message: a flag bit set, and a change
 * detector that compares the stored width, emote generation, font
 * generation, word mask and scale with the current ones to decide whether to
 * lay the message out again and what to do with its pixel buffer.
 */
module Layouts {
  import Messages

  /** The layout flag bits. */
  type LayoutFlags = bv8

  const Collapsed: LayoutFlags := 1
  const RequiresBufferUpdate: LayoutFlags := 2

  /** The display scale; only compared for equality. */
  type Scale = real

  /**
   * `hasFlags`: at least one bit of `f` is set, that is, clearing the bits
   * of `f` would change the flags.
   */
  predicate Intersects(flags: LayoutFlags, f: LayoutFlags)
    ensures Intersects(flags, f) <==> flags & !f != flags
    ensures Intersects(flags, f) ==> flags != 0 && f != 0
  {
    flags & f != 0
  }

  /** `addFlags`: the bits of `f` set, every other bit kept. */
  function WithFlags(flags: LayoutFlags, f: LayoutFlags): (r: LayoutFlags)
    ensures r & f == f
    ensures r & flags == flags
    ensures r & !(flags | f) == 0
    ensures r | f == r
    ensures Intersects(r, f) <==> f != 0
  {
    flags | f
  }

  /** `removeFlags`: the bits of `f` cleared, every other bit kept. */
  function WithoutFlags(flags: LayoutFlags, f: LayoutFlags): (r: LayoutFlags)
    ensures r & f == 0
    ensures r & !f == flags & !f
    ensures !Intersects(r, f)
    ensures r & !flags == 0
  {
    flags & !f
  }

  /** Adding the same flags twice is the same as adding them once. */
  lemma AddFlagsIdempotent(flags: LayoutFlags, f: LayoutFlags)
    ensures WithFlags(WithFlags(flags, f), f) == WithFlags(flags, f)
  {
  }

  /** Removing flags after adding them is the same as removing them outright. */
  lemma RemoveAfterAdd(flags: LayoutFlags, f: LayoutFlags)
    ensures WithoutFlags(WithFlags(flags, f), f) == WithoutFlags(flags, f)
  {
  }

  /** What a layout depends on: width, emote and font generations, word mask and scale. */
  datatype LayoutKey = LayoutKey(
    width: int,
    emoteGeneration: int,
    fontGeneration: int,
    wordMask: int,
    scale: Scale)

  /** The application-wide values `layout` reads: emote and font generations and the word-type mask. */
  datatype Generations = Generations(emote: int, font: int, wordMask: int)

  /** The element container's height after the message's elements are added, and after `finish`. */
  datatype ContainerHeights = ContainerHeights(laidOut: int, finished: int)

  datatype Decision = Decision(relayout: bool, deleteBuffer: bool, requireBufferUpdate: bool)

  /**
   * The change detector. A layout is needed exactly when something differs;
   * width or word mask changes discard the buffer, generation or scale
   * changes only ask for it to be redrawn.
   */
  function Decide(stored: LayoutKey, current: LayoutKey): (d: Decision)
    ensures d.relayout <==> stored != current
    ensures d.deleteBuffer <==> stored.width != current.width || stored.wordMask != current.wordMask
    ensures d.requireBufferUpdate <==>
      stored.emoteGeneration != current.emoteGeneration ||
      stored.fontGeneration != current.fontGeneration ||
      stored.scale != current.scale
    ensures d.relayout <==> d.deleteBuffer || d.requireBufferUpdate
  {
    var widthChanged := stored.width != current.width;
    var imagesChanged := stored.emoteGeneration != current.emoteGeneration;
    var textChanged := stored.fontGeneration != current.fontGeneration;
    var wordMaskChanged := stored.wordMask != current.wordMask;
    var scaleChanged := stored.scale != current.scale;
    var layoutRequired := widthChanged || imagesChanged || textChanged || wordMaskChanged || scaleChanged;
    Decision(layoutRequired, widthChanged || wordMaskChanged,
             imagesChanged || scaleChanged || textChanged)
  }

  /** Everything `layout` may change, as a value. */
  datatype LayoutState = LayoutState(
    flags: LayoutFlags,
    key: LayoutKey,
    hasBuffer: bool,
    bufferValid: bool,
    height: int,
    containerWidth: int,
    containerScale: Scale)

  /** The whole effect of one `layout` call: the new state and whether a redraw is required. */
  function LayoutStep(s: LayoutState, current: LayoutKey, c: ContainerHeights): (r: (LayoutState, bool))
    ensures r.1 <==> s.key != current
    ensures r.0.key == current
    ensures !r.1 ==> r.0 == s
    ensures r.1 ==> !r.0.bufferValid && r.0.height == c.finished
    ensures r.1 ==> r.0.containerWidth == current.width && r.0.containerScale == current.scale
    ensures r.0.flags == if Decide(s.key, current).requireBufferUpdate
      then WithFlags(s.flags, RequiresBufferUpdate) else s.flags
    ensures r.0.hasBuffer <==>
      s.hasBuffer && !Decide(s.key, current).deleteBuffer && (r.1 ==> s.height == c.laidOut)
  {
    var d := Decide(s.key, current);
    var flags := if d.requireBufferUpdate then WithFlags(s.flags, RequiresBufferUpdate) else s.flags;
    var s1 := s.(key := current, flags := flags, hasBuffer := s.hasBuffer && !d.deleteBuffer);
    if !d.relayout then (s1, false)
    else
      (s1.(containerWidth := current.width, containerScale := current.scale,
           hasBuffer := s1.hasBuffer && s1.height == c.laidOut,
           height := c.finished, bufferValid := false), true)
  }

  /** A second `layout` with unchanged inputs reports no redraw and changes nothing. */
  lemma {:induction false} LayoutSettles(s: LayoutState, current: LayoutKey, c: ContainerHeights, c2: ContainerHeights)
    ensures var after := LayoutStep(s, current, c).0;
      LayoutStep(after, current, c2) == (after, false)
  {
  }

  /** A change only in generations or scale keeps the buffer unless the height changes. */
  lemma GenerationChangeKeepsBuffer(s: LayoutState, current: LayoutKey, c: ContainerHeights)
    requires s.key.width == current.width && s.key.wordMask == current.wordMask
    requires s.key != current && s.hasBuffer && s.height == c.laidOut
    ensures LayoutStep(s, current, c).0.hasBuffer
    ensures Intersects(LayoutStep(s, current, c).0.flags, RequiresBufferUpdate)
  {
  }

  class MessageLayout {
    const message: Messages.Message
    var flags: LayoutFlags
    var currentLayoutWidth: int
    var emoteGeneration: int
    var fontGeneration: int
    var currentWordTypes: int
    var scale: Scale
    var hasBuffer: bool
    var bufferValid: bool
    var height: int
    var containerWidth: int
    var containerScale: Scale

    function Key(): LayoutKey
      reads this
    {
      LayoutKey(currentLayoutWidth, emoteGeneration, fontGeneration, currentWordTypes, scale)
    }

    function State(): LayoutState
      reads this
    {
      LayoutState(flags, Key(), hasBuffer, bufferValid, height, containerWidth, containerScale)
    }

    /** A layout starts without a buffer, collapsed exactly when its message is. */
    constructor(message: Messages.Message)
      ensures this.message == message && !hasBuffer
      ensures flags == if Messages.Collapsed in message.flags then Collapsed else 0
    {
      this.message := message;
      hasBuffer := false;
      flags := 0;
      new;
      if Messages.Collapsed in message.flags {
        AddFlags(Collapsed);
      }
    }

    predicate HasFlags(f: LayoutFlags)
      reads this
      ensures HasFlags(f) <==> flags & !f != flags
    {
      Intersects(flags, f)
    }

    method AddFlags(f: LayoutFlags)
      modifies this
      ensures State() == old(State()).(flags := WithFlags(old(flags), f))
    {
      flags := flags | f;
    }

    method RemoveFlags(f: LayoutFlags)
      modifies this
      ensures State() == old(State()).(flags := WithoutFlags(old(flags), f))
    {
      flags := flags & !f;
    }

    method InvalidateBuffer()
      modifies this
      ensures State() == old(State()).(bufferValid := false)
    {
      bufferValid := false;
    }

    method DeleteBuffer()
      modifies this
      ensures State() == old(State()).(hasBuffer := false)
    {
      hasBuffer := false;
    }

    /**
     * Lays the elements out at `width`; the buffer is discarded when the
     * height the elements take differs from the previous height.
     */
    method ActuallyLayout(width: int, c: ContainerHeights)
      modifies this
      ensures State() == old(State()).(
        containerWidth := width, containerScale := scale,
        hasBuffer := old(hasBuffer) && old(height) == c.laidOut,
        height := c.finished)
    {
      containerWidth := width;
      containerScale := scale;
      if height != c.laidOut {
        DeleteBuffer();
      }
      height := c.finished;
    }

    /**
     * The first half of `layout`: stores the new width, generations, word
     * mask and scale, marks the buffer for an update or discards it, and
     * reports whether anything changed.
     */
    method DetectChanges(width: int, scale: Scale, g: Generations) returns (layoutRequired: bool)
      modifies this
      ensures var current := LayoutKey(width, g.emote, g.font, g.wordMask, scale);
        var d := Decide(old(Key()), current);
        && layoutRequired == d.relayout
        && State() == old(State()).(
             key := current,
             flags := if d.requireBufferUpdate then WithFlags(old(flags), RequiresBufferUpdate) else old(flags),
             hasBuffer := old(hasBuffer) && !d.deleteBuffer)
    {
      ghost var before := State();
      layoutRequired := false;

      var widthChanged := width != currentLayoutWidth;
      layoutRequired := layoutRequired || widthChanged;
      currentLayoutWidth := width;

      var imagesChanged := emoteGeneration != g.emote;
      layoutRequired := layoutRequired || imagesChanged;
      emoteGeneration := g.emote;

      var textChanged := fontGeneration != g.font;
      layoutRequired := layoutRequired || textChanged;
      fontGeneration := g.font;

      var wordMaskChanged := currentWordTypes != g.wordMask;
      layoutRequired := layoutRequired || wordMaskChanged;
      currentWordTypes := g.wordMask;

      var scaleChanged := this.scale != scale;
      layoutRequired := layoutRequired || scaleChanged;
      this.scale := scale;
      imagesChanged := imagesChanged || scaleChanged;
      textChanged := textChanged || scaleChanged;

      ghost var keyed := State();
      assert keyed == before.(key := LayoutKey(width, g.emote, g.font, g.wordMask, scale));
      MarkBufferUpdate(imagesChanged, textChanged);
      if widthChanged || wordMaskChanged {
        DeleteBuffer();
      }
    }

    /** Requests a buffer update when either the images or the text changed. */
    method MarkBufferUpdate(imagesChanged: bool, textChanged: bool)
      modifies this
      ensures State() == old(State()).(flags :=
        if imagesChanged || textChanged then WithFlags(old(flags), RequiresBufferUpdate) else old(flags))
    {
      ghost var before := flags;
      if imagesChanged {
        AddFlags(RequiresBufferUpdate);
      }
      if textChanged {
        AddFlags(RequiresBufferUpdate);
        AddFlagsIdempotent(before, RequiresBufferUpdate);
      }
    }

    /** Returns whether a redraw is required. */
    method Layout(width: int, scale: Scale, g: Generations, c: ContainerHeights) returns (redraw: bool)
      modifies this
      ensures State() == LayoutStep(old(State()), LayoutKey(width, g.emote, g.font, g.wordMask, scale), c).0
      ensures redraw == LayoutStep(old(State()), LayoutKey(width, g.emote, g.font, g.wordMask, scale), c).1
    {
      var layoutRequired := DetectChanges(width, scale, g);
      if !layoutRequired {
        return false;
      }

      ActuallyLayout(width, c);
      InvalidateBuffer();
      return true;
    }
  }
}
