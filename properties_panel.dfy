/** The properties panel of the selected clip: which callback each of its
    controls fires, and the nested `properties` merge of `handlePropChange`. */
module PropertiesPanel {
  import opened Seqs
  import opened Types

  /** `keyof Clip['properties']`. */
  datatype PropKey = X | Y | Scale | Opacity | Rotation

  function GetProp(p: ClipProperties, key: PropKey): real {
    match key
    case X => p.x
    case Y => p.y
    case Scale => p.scale
    case Opacity => p.opacity
    case Rotation => p.rotation
  }

  /** `{ ...p, [key]: value }`: the record with one field replaced. */
  function SetProp(p: ClipProperties, key: PropKey, value: real): (r: ClipProperties)
    ensures GetProp(r, key) == value
    ensures forall k :: k != key ==> GetProp(r, k) == GetProp(p, k)
  {
    match key
    case X => p.(x := value)
    case Y => p.(y := value)
    case Scale => p.(scale := value)
    case Opacity => p.(opacity := value)
    case Rotation => p.(rotation := value)
  }

  /** The three range inputs of the Transform section. */
  datatype Slider = ScaleSlider | RotationSlider | OpacitySlider

  function SliderKey(s: Slider): PropKey {
    match s
    case ScaleSlider => Scale
    case RotationSlider => Rotation
    case OpacitySlider => Opacity
  }

  /** The `min` attribute of each range input. */
  function SliderMin(s: Slider): real {
    match s
    case ScaleSlider => 0.1
    case RotationSlider => -180.0
    case OpacitySlider => 0.0
  }

  /** The `max` attribute of each range input. */
  function SliderMax(s: Slider): real {
    match s
    case ScaleSlider => 3.0
    case RotationSlider => 180.0
    case OpacitySlider => 1.0
  }

  /** The value a range input reports: the browser keeps it within the
      input's `min` and `max`. */
  function SliderValue(s: Slider, raw: real): (v: real)
    ensures SliderMin(s) <= v <= SliderMax(s)
    ensures SliderMin(s) <= raw <= SliderMax(s) ==> v == raw
  {
    if raw < SliderMin(s) then SliderMin(s)
    else if raw > SliderMax(s) then SliderMax(s)
    else raw
  }

  /** A user action on one of the panel's controls. */
  datatype PanelInput =
    | SliderInput(slider: Slider, raw: real)
    | ContentInput(text: string)
    | DeleteClick

  /** A call of `onUpdateClip(id, updates)` or `onDeleteClip(id)`. */
  datatype PanelCallback =
    | UpdateClipCall(clipId: string, updates: ClipPatch)
    | DeleteClipCall(clipId: string)

  /** `handlePropChange(key, value)`: an update of the displayed clip whose
      only field is the whole properties record, equal to the clip's own
      except at `key`. */
  function HandlePropChange(clip: Clip, key: PropKey, value: real): (cb: PanelCallback)
    ensures cb.UpdateClipCall? && cb.clipId == clip.id
    ensures cb.updates == EmptyClipPatch.(properties := cb.updates.properties)
    ensures cb.updates.properties.Some?
    ensures GetProp(cb.updates.properties.value, key) == value
    ensures forall k :: k != key ==> GetProp(cb.updates.properties.value, k) == GetProp(clip.properties, k)
  {
    UpdateClipCall(clip.id, EmptyClipPatch.(properties := Some(SetProp(clip.properties, key, value))))
  }

  /** What the panel fires for an input. With no clip only the placeholder is
      shown, so nothing fires; the content editor exists only for TEXT clips
      and sends only `content`; every callback names the displayed clip. */
  function PanelEvent(clip: Option<Clip>, input: PanelInput): (cb: Option<PanelCallback>)
    ensures clip.None? ==> cb.None?
    ensures cb.Some? ==> clip.Some? && cb.value.clipId == clip.value.id
    ensures input.ContentInput? ==>
              (cb.Some? <==> clip.Some? && clip.value.kind == Text) &&
              (cb.Some? ==> cb.value == UpdateClipCall(clip.value.id, EmptyClipPatch.(content := Some(input.text))))
    ensures input.DeleteClick? ==> (cb.Some? <==> clip.Some?) && (cb.Some? ==> cb.value.DeleteClipCall?)
    ensures input.SliderInput? && clip.Some? ==>
              cb == Some(HandlePropChange(clip.value, SliderKey(input.slider), SliderValue(input.slider, input.raw)))
  {
    match clip
    case None => None
    case Some(c) =>
      match input
      case SliderInput(s, raw) => Some(HandlePropChange(c, SliderKey(s), SliderValue(s, raw)))
      case ContentInput(text) =>
        if c.kind == Text then Some(UpdateClipCall(c.id, EmptyClipPatch.(content := Some(text)))) else None
      case DeleteClick => Some(DeleteClipCall(c.id))
  }

  /** A slider edit sends a properties record whose edited field lies within
      that slider's range and whose other fields are the clip's own. */
  lemma SliderEditBounded(c: Clip, s: Slider, raw: real)
    ensures var cb := PanelEvent(Some(c), SliderInput(s, raw));
            && cb.Some? && cb.value.UpdateClipCall? && cb.value.updates.properties.Some?
            && SliderMin(s) <= GetProp(cb.value.updates.properties.value, SliderKey(s)) <= SliderMax(s)
            && forall k :: k != SliderKey(s) ==> GetProp(cb.value.updates.properties.value, k) == GetProp(c.properties, k)
  {
  }
}
