/**
 * The state of the post-processing curve editor: its registry of curves, the
 * keyframe selection, the dirty flag, and the keyframe edits it performs on
 * AnimationCurve objects before writing them back to their serialized
 * properties. Drawing and event dispatch are not part of this model.
 */
module CurveEditing {
  import opened Common
  import opened CurveMath

  datatype Color = Color(r: real, g: real, b: real, a: real)

  const White: Color := Color(1.0, 1.0, 1.0, 1.0)
  const Yellow: Color := Color(1.0, 0.921568632, 0.0156862754, 1.0)

  /** Unity's RectOffset; Remove shrinks a rectangle by the four borders. */
  datatype RectOffset = RectOffset(left: int, right: int, top: int, bottom: int) {
    function Remove(r: Rect): (s: Rect)
      ensures s.XMin() == r.XMin() + left as real && s.XMax() == r.XMax() - right as real
      ensures s.YMin() == r.YMin() + top as real && s.YMax() == r.YMax() - bottom as real
    {
      Rect(r.x + left as real, r.y + top as real,
           r.width - (left + right) as real, r.height - (top + bottom) as real)
    }
  }

  datatype Settings = Settings(
    bounds: Rect,
    padding: RectOffset,
    selectionColor: Color,
    curvePickingDistance: real,
    keyTimeClampingDistance: real)

  const DefaultSettings: Settings :=
    Settings(Rect(0.0, 0.0, 1.0, 1.0), RectOffset(10, 10, 10, 10), Yellow, 6.0, 0.0001)

  /** How one registered curve is shown and edited (minPointCount is a uint). */
  datatype CurveState = CurveState(
    visible: bool,
    editable: bool,
    minPointCount: nat,
    zeroKeyConstantValue: real,
    color: Color,
    width: real,
    handleWidth: real,
    showNonEditableHandles: bool,
    onlyShowHandlesOnSelection: bool,
    loopInBounds: bool)

  const DefaultState: CurveState :=
    CurveState(true, true, 2, 0.0, White, 2.0, 2.0, true, false, false)

  /** A serialized property, identified as the editor's dictionary identifies it. */
  datatype Property = Property(id: nat)

  datatype Selection = Selection(curve: Option<Property>, keyframeIndex: int, keyframe: Option<Keyframe>)

  /**
   * The exceptions the editor lets escape: NotAnAnimationCurve and DuplicateKey are
   * both ArgumentExceptions in the source (the second thrown by Dictionary.Add).
   */
  datatype EditorError = NotAnAnimationCurve | DuplicateKey | KeyNotFound | NullReference | IndexOutOfRange

  /**
   * The parts of the engine the editor calls but does not define:
   * AnimationCurve.Evaluate, AnimationCurve.AddKey and AnimationCurve.RemoveKey
   * (whose placement of keys is Unity's), and Mathf.Approximately.
   */
  datatype Engine = Engine(
    evaluate: (Curve, real) -> real,
    addKey: (Curve, Keyframe) -> Curve,
    removeKey: (Curve, int) -> Curve,
    approx: Approx)

  /** The key EditCreateKeyframe adds at `position`: both tangents are the slope estimated there. */
  function CreatedKey(keys: Curve, position: Vec2, createOnCurve: bool, zeroKeyConstantValue: real, engine: Engine): (r: Keyframe)
    ensures r.time == position.x
    ensures r.inTangent == r.outTangent == TangentAt(keys, position.x, engine.evaluate, engine.approx)
    ensures !createOnCurve ==> r.value == position.y
    ensures createOnCurve && keys == [] ==> r.value == zeroKeyConstantValue
    ensures createOnCurve && keys != [] ==> r.value == engine.evaluate(keys, position.x)
  {
    var tangent := TangentAt(keys, position.x, engine.evaluate, engine.approx);
    var y := if !createOnCurve then position.y
             else if |keys| == 0 then zeroKeyConstantValue
             else engine.evaluate(keys, position.x);
    Keyframe(position.x, y, tangent, tangent)
  }

  /** A curve the context menu adds a key to. */
  predicate TakesNewKeys(state: CurveState) { state.editable && state.visible }

  /** A curve after the context menu's "Add key" at `hit`: a created key is added when the curve takes new keys. */
  function WithMenuKey(state: CurveState, keys: Curve, hit: Vec2, createOnCurve: bool, engine: Engine): (r: Curve)
    ensures r != keys ==> state.editable && state.visible
    ensures state.editable && state.visible ==>
              r == engine.addKey(keys, CreatedKey(keys, hit, createOnCurve, state.zeroKeyConstantValue, engine))
  {
    if TakesNewKeys(state)
    then engine.addKey(keys, CreatedKey(keys, hit, createOnCurve, state.zeroKeyConstantValue, engine))
    else keys
  }

  /** The registry and the outcome after adding several curves, stopping at the first exception. */
  datatype Registration = Registration(curves: map<Property, CurveState>, outcome: Outcome<EditorError>)

  /**
   * Add(curve) for each property in turn. An existing entry is never changed; every new entry is a
   * property with the default state; the only exceptions are those of Add.
   */
  function AddEach(curves: map<Property, CurveState>, properties: map<Property, Curve>, cs: seq<Property>): (r: Registration)
    ensures curves.Keys <= r.curves.Keys
    ensures forall p :: p in curves ==> r.curves[p] == curves[p]
    ensures forall p :: p in r.curves && p !in curves ==> p in properties && r.curves[p] == DefaultState
    ensures r.outcome.Fail? ==> r.outcome.error == NotAnAnimationCurve || r.outcome.error == DuplicateKey
    decreases |cs|
  {
    if cs == [] then Registration(curves, Pass)
    else if cs[0] !in properties then Registration(curves, Fail(NotAnAnimationCurve))
    else if cs[0] in curves then Registration(curves, Fail(DuplicateKey))
    else AddEach(curves[cs[0] := DefaultState], properties, cs[1..])
  }

  /** Adding distinct, unregistered curve properties registers each with the default state. */
  lemma {:induction false} AddEachFresh(curves: map<Property, CurveState>, properties: map<Property, Curve>, cs: seq<Property>)
    requires forall i :: 0 <= i < |cs| ==> cs[i] in properties && cs[i] !in curves
    requires forall i, j :: 0 <= i < j < |cs| ==> cs[i] != cs[j]
    ensures AddEach(curves, properties, cs).outcome == Pass
    ensures AddEach(curves, properties, cs).curves.Keys == curves.Keys + set i | 0 <= i < |cs| :: cs[i]
    ensures forall i :: 0 <= i < |cs| ==> AddEach(curves, properties, cs).curves[cs[i]] == DefaultState
    decreases |cs|
  {
    if cs != [] {
      var next := curves[cs[0] := DefaultState];
      forall i | 0 <= i < |cs[1..]| ensures cs[1..][i] in properties && cs[1..][i] !in next {
        assert cs[1..][i] == cs[i + 1];
      }
      forall i, j | 0 <= i < j < |cs[1..]| ensures cs[1..][i] != cs[1..][j] {
        assert cs[1..][i] == cs[i + 1] && cs[1..][j] == cs[j + 1];
      }
      AddEachFresh(next, properties, cs[1..]);
      var r := AddEach(next, properties, cs[1..]);
      assert (set i | 0 <= i < |cs| :: cs[i]) == {cs[0]} + set i | 0 <= i < |cs[1..]| :: cs[1..][i] by {
        forall i | 0 <= i < |cs| ensures cs[i] in {cs[0]} + set i | 0 <= i < |cs[1..]| :: cs[1..][i] {
          if i > 0 { assert cs[i] == cs[1..][i - 1]; }
        }
      }
      forall i | 0 <= i < |cs| ensures r.curves[cs[i]] == DefaultState {
        if i > 0 { assert cs[i] == cs[1..][i - 1]; }
      }
    }
  }

  /** Unity's AnimationCurve: a reference object whose keys are changed in place. */
  class AnimationCurve {
    var keys: Curve

    constructor (keys: Curve)
      ensures this.keys == keys
    {
      this.keys := keys;
    }

    /** MoveKey is modelled as replacement at the index. */
    method MoveKey(index: int, key: Keyframe)
      requires 0 <= index < |keys|
      modifies this
      ensures keys == old(keys)[index := key]
    {
      keys := keys[index := key];
    }

    method AddKey(key: Keyframe, engine: Engine)
      modifies this
      ensures keys == engine.addKey(old(keys), key)
    {
      keys := engine.addKey(keys, key);
    }

    method RemoveKey(index: int, engine: Engine)
      modifies this
      ensures keys == engine.removeKey(old(keys), index)
    {
      keys := engine.removeKey(keys, index);
    }
  }

  class CurveEditor {
    const settings: Settings
    /** m_Curves: the registered curves and how each is shown. */
    var curves: map<Property, CurveState>
    /** m_CurveArea: the drawing rectangle, set by every OnGUI call. */
    var curveArea: Rect
    var selectedCurve: Option<Property>
    var selectedKeyframeIndex: int
    var dirty: bool
    /**
     * What SerializedProperty.animationCurveValue gives for each property the
     * editor can see; a property outside the map is not an AnimationCurve
     * (its animationCurveValue is null).
     */
    var properties: map<Property, Curve>

    /** Every registered curve is an AnimationCurve property. */
    ghost predicate Valid()
      reads this
    {
      curves.Keys <= properties.Keys
    }

    /** CurveEditor(): the default settings. */
    constructor (properties: map<Property, Curve>)
      ensures Valid()
      ensures settings == DefaultSettings && this.properties == properties
      ensures curves == map[] && selectedCurve == None && selectedKeyframeIndex == -1 && !dirty
    {
      settings := DefaultSettings;
      this.properties := properties;
      curves := map[];
      curveArea := Rect(0.0, 0.0, 0.0, 0.0);
      selectedCurve := None;
      selectedKeyframeIndex := -1;
      dirty := false;
    }

    constructor WithSettings(settings: Settings, properties: map<Property, Curve>)
      ensures Valid()
      ensures this.settings == settings && this.properties == properties
      ensures curves == map[] && selectedCurve == None && selectedKeyframeIndex == -1 && !dirty
    {
      this.settings := settings;
      this.properties := properties;
      curves := map[];
      curveArea := Rect(0.0, 0.0, 0.0, 0.0);
      selectedCurve := None;
      selectedKeyframeIndex := -1;
      dirty := false;
    }

    // -------------------------------------------------------------------------
    // Registry

    /** Registers a curve property with a state; a non-curve or an already registered one raises. */
    method Add(curve: Property, state: CurveState) returns (r: Outcome<EditorError>)
      requires Valid()
      modifies this`curves
      ensures Valid()
      ensures curve !in properties ==> r == Fail(NotAnAnimationCurve) && curves == old(curves)
      ensures curve in properties && curve in old(curves) ==> r == Fail(DuplicateKey) && curves == old(curves)
      ensures curve in properties && curve !in old(curves) ==> r == Pass && curves == old(curves)[curve := state]
    {
      if curve !in properties {
        return Fail(NotAnAnimationCurve);
      }
      // the source logs a warning here, then Dictionary.Add throws
      if curve in curves {
        return Fail(DuplicateKey);
      }
      curves := curves[curve := state];
      r := Pass;
    }

    /** Add(SerializedProperty): the default state. */
    method AddDefault(curve: Property) returns (r: Outcome<EditorError>)
      requires Valid()
      modifies this`curves
      ensures Valid()
      ensures Registration(curves, r) == AddEach(old(curves), properties, [curve])
      ensures r == Pass ==> curves == old(curves)[curve := DefaultState]
    {
      r := Add(curve, DefaultState);
    }

    /** Add(params SerializedProperty[]): each with the default state, in order, until one raises. */
    method AddAll(cs: seq<Property>) returns (r: Outcome<EditorError>)
      requires Valid()
      modifies this`curves
      ensures Valid()
      ensures Registration(curves, r) == AddEach(old(curves), properties, cs)
    {
      var i := 0;
      while i < |cs|
        invariant 0 <= i <= |cs|
        invariant Valid()
        invariant AddEach(old(curves), properties, cs) == AddEach(curves, properties, cs[i..])
      {
        assert cs[i..][1..] == cs[i + 1..];
        var o := Add(cs[i], DefaultState);
        if o.Fail? {
          return o;
        }
        i := i + 1;
      }
      r := Pass;
    }

    method Remove(curve: Property)
      requires Valid()
      modifies this`curves
      ensures Valid()
      ensures curves == old(curves) - {curve}
    {
      curves := curves - {curve};
    }

    method RemoveAll()
      requires Valid()
      modifies this`curves
      ensures Valid()
      ensures curves == map[]
    {
      curves := map[];
    }

    method GetCurveState(curve: Property) returns (r: Result<CurveState, EditorError>)
      ensures curve in curves <==> r.Ok?
      ensures r.Ok? ==> r.value == curves[curve]
      ensures r.Err? ==> r.error == KeyNotFound
    {
      if curve !in curves {
        return Err(KeyNotFound);
      }
      r := Ok(curves[curve]);
    }

    /** Replaces the state of a registered curve and of no other. */
    method SetCurveState(curve: Property, state: CurveState) returns (r: Outcome<EditorError>)
      requires Valid()
      modifies this`curves
      ensures Valid()
      ensures curve !in old(curves) ==> r == Fail(KeyNotFound) && curves == old(curves)
      ensures curve in old(curves) ==> r == Pass && curves.Keys == old(curves).Keys && curves[curve] == state
      ensures forall p :: p in old(curves) && p != curve ==> curves[p] == old(curves)[p]
    {
      if curve !in curves {
        return Fail(KeyNotFound);
      }
      curves := curves[curve := state];
      r := Pass;
    }

    // -------------------------------------------------------------------------
    // Selection and the dirty flag

    method Invalidate()
      modifies this`dirty
      ensures dirty
    {
      dirty := true;
    }

    method SelectKeyframe(curve: Option<Property>, keyframeIndex: int)
      modifies this`selectedKeyframeIndex, this`selectedCurve, this`dirty
      ensures selectedCurve == curve && selectedKeyframeIndex == keyframeIndex && dirty
    {
      selectedKeyframeIndex := keyframeIndex;
      selectedCurve := curve;
      Invalidate();
    }

    /**
     * Reports the selection, first dropping an index that has run off the end of
     * the selected curve. A selected index with no curve behind it dereferences null.
     */
    method GetSelection() returns (r: Result<Selection, EditorError>)
      modifies this`selectedKeyframeIndex
      ensures r.Err? <==> old(selectedKeyframeIndex) > -1 && (selectedCurve.None? || selectedCurve.value !in properties)
      ensures r.Err? ==> r.error == NullReference && selectedKeyframeIndex == old(selectedKeyframeIndex)
      ensures r.Ok? ==> r.value.curve == selectedCurve && r.value.keyframeIndex == selectedKeyframeIndex
      ensures r.Ok? && old(selectedKeyframeIndex) > -1 ==>
                selectedKeyframeIndex ==
                  (if old(selectedKeyframeIndex) >= |properties[selectedCurve.value]| then -1 else old(selectedKeyframeIndex))
      ensures r.Ok? && old(selectedKeyframeIndex) <= -1 ==> selectedKeyframeIndex == old(selectedKeyframeIndex)
      ensures r.Ok? && selectedKeyframeIndex > -1 ==> selectedKeyframeIndex < |properties[selectedCurve.value]|
      ensures r.Ok? ==> (r.value.keyframe.Some? <==> selectedKeyframeIndex > -1)
      ensures r.Ok? && r.value.keyframe.Some? ==> r.value.keyframe.value == properties[selectedCurve.value][selectedKeyframeIndex]
    {
      var key: Option<Keyframe> := None;
      if selectedKeyframeIndex > -1 {
        if selectedCurve.None? || selectedCurve.value !in properties {
          return Err(NullReference);
        }
        var curve := properties[selectedCurve.value];
        if selectedKeyframeIndex >= |curve| {
          selectedKeyframeIndex := -1;
        } else {
          key := Some(curve[selectedKeyframeIndex]);
        }
      }
      r := Ok(Selection(selectedCurve, selectedKeyframeIndex, key));
    }

    /** The selection OnCurveGUI repairs: a visible registered curve whose key count the index has passed. */
    ghost predicate SelectionNeedsRepair()
      reads this
      requires Valid()
    {
      && selectedCurve.Some?
      && selectedCurve.value in curves
      && curves[selectedCurve.value].visible
      && selectedKeyframeIndex >= |properties[selectedCurve.value]|
    }

    /** The per-curve pass of OnGUI, less its drawing: undo may have removed the selected key. */
    method OnCurveGUI(curve: Property, state: CurveState)
      requires curve in properties
      modifies this`selectedKeyframeIndex
      ensures selectedKeyframeIndex ==
                (if state.visible && selectedCurve == Some(curve) && old(selectedKeyframeIndex) >= |properties[curve]|
                 then -1 else old(selectedKeyframeIndex))
    {
      if !state.visible {
        return;
      }
      var length := |properties[curve]|;
      if selectedCurve == Some(curve) && selectedKeyframeIndex >= length {
        selectedKeyframeIndex := -1;
      }
    }

    /**
     * One GUI pass: a repaint clears the dirty flag, the curve area is the
     * rectangle less the padding, every registered curve is visited, and the
     * flag is returned.
     */
    method OnGUI(rect: Rect, isRepaint: bool) returns (r: bool)
      requires Valid()
      modifies this`dirty, this`curveArea, this`selectedKeyframeIndex
      ensures r == dirty && dirty == (old(dirty) && !isRepaint)
      ensures curveArea == settings.padding.Remove(Rect(0.0, 0.0, rect.width, rect.height))
      ensures selectedKeyframeIndex == if old(SelectionNeedsRepair()) then -1 else old(selectedKeyframeIndex)
    {
      if isRepaint {
        dirty := false;
      }
      curveArea := settings.padding.Remove(Rect(0.0, 0.0, rect.width, rect.height));
      var todo := curves.Keys;
      while todo != {}
        invariant todo <= curves.Keys
        invariant dirty == (old(dirty) && !isRepaint)
        invariant curveArea == settings.padding.Remove(Rect(0.0, 0.0, rect.width, rect.height))
        invariant selectedKeyframeIndex ==
                    if old(SelectionNeedsRepair()) && selectedCurve.value !in todo then -1 else old(selectedKeyframeIndex)
        decreases todo
      {
        var c :| c in todo;
        OnCurveGUI(c, curves[c]);
        todo := todo - {c};
      }
      r := dirty;
    }

    // -------------------------------------------------------------------------
    // Keyframe manipulations

    method SaveCurve(prop: Property, curve: AnimationCurve)
      modifies this`properties
      ensures properties == old(properties)[prop := curve.keys]
    {
      properties := properties[prop := curve.keys];
    }

    method AddKeyframe(curve: AnimationCurve, newValue: Keyframe, engine: Engine)
      modifies curve, this`dirty
      ensures curve.keys == engine.addKey(old(curve.keys), newValue) && dirty
    {
      curve.AddKey(newValue, engine);
      Invalidate();
    }

    method RemoveKeyframe(curve: AnimationCurve, keyframeIndex: int, engine: Engine)
      modifies curve, this`dirty
      ensures curve.keys == engine.removeKey(old(curve.keys), keyframeIndex) && dirty
    {
      curve.RemoveKey(keyframeIndex, engine);
      Invalidate();
    }

    method EditDeleteKeyframe(curve: AnimationCurve, keyframeIndex: int, engine: Engine)
      modifies curve, this`dirty
      ensures curve.keys == engine.removeKey(old(curve.keys), keyframeIndex) && dirty
    {
      RemoveKeyframe(curve, keyframeIndex, engine);
    }

    /** The search loop of EvaluateTangent, then the difference quotient over the sample window. */
    method EvaluateTangent(curve: AnimationCurve, time: real, engine: Engine) returns (r: Tangent)
      ensures r == TangentAt(curve.keys, time, engine.evaluate, engine.approx)
    {
      var prev, next := -1, 0;
      var i := 0;
      while i < |curve.keys|
        invariant 0 <= i <= |curve.keys|
        invariant next == i && prev == i - 1
        invariant forall j :: 0 <= j < i ==> curve.keys[j].time < time
      {
        if time > curve.keys[i].time {
          prev := i;
          next := i + 1;
        } else {
          break;
        }
        i := i + 1;
      }
      LeadingBeforeUnique(curve.keys, time, next);
      if next == 0 {
        return Finite(0.0);
      }
      if prev == |curve.keys| - 1 {
        return Finite(0.0);
      }
      var tp := Max(time - SampleDistance, curve.keys[prev].time);
      var tn := Min(time + SampleDistance, curve.keys[next].time);
      var vp := engine.evaluate(curve.keys, tp);
      var vn := engine.evaluate(curve.keys, tn);
      if engine.approx(tn, tp) {
        return if vn - vp > 0.0 then PosInf else NegInf;
      }
      r := Finite((vn - vp) / (tn - tp));
    }

    /** Adds the key created at `position`: on the curve, or at the clicked height. */
    method EditCreateKeyframe(curve: AnimationCurve, position: Vec2, createOnCurve: bool, zeroKeyConstantValue: real, engine: Engine)
      modifies curve, this`dirty
      ensures curve.keys == engine.addKey(old(curve.keys), CreatedKey(old(curve.keys), position, createOnCurve, zeroKeyConstantValue, engine))
      ensures dirty
    {
      var tangent := EvaluateTangent(curve, position.x, engine);
      var y := position.y;
      if createOnCurve {
        y := if |curve.keys| == 0 then zeroKeyConstantValue else engine.evaluate(curve.keys, position.x);
      }
      AddKeyframe(curve, Keyframe(position.x, y, tangent, tangent), engine);
    }

    /** The body of the loop in ContextMenuAddKey, for one registered curve. */
    method AddKeyToCurve(c: Property, hit: Vec2, createOnCurve: bool, engine: Engine)
      requires Valid() && c in curves
      modifies this`properties, this`dirty
      ensures Valid()
      ensures properties == old(properties)[c := WithMenuKey(curves[c], old(properties)[c], hit, createOnCurve, engine)]
    {
      var state := curves[c];
      if TakesNewKeys(state) {
        var animCurve := new AnimationCurve(properties[c]);
        EditCreateKeyframe(animCurve, hit, createOnCurve, state.zeroKeyConstantValue, engine);
        SaveCurve(c, animCurve);
      }
    }

    /** Adds a key at `hit` to every registered curve that is editable and visible, and no other. */
    method ContextMenuAddKey(hit: Vec2, createOnCurve: bool, engine: Engine)
      requires Valid()
      modifies this`properties, this`dirty
      ensures Valid() && dirty
      ensures properties.Keys == old(properties).Keys
      ensures forall p :: p in properties ==>
                properties[p] == if p in curves then WithMenuKey(curves[p], old(properties)[p], hit, createOnCurve, engine) else old(properties)[p]
    {
      var todo := curves.Keys;
      while todo != {}
        invariant todo <= curves.Keys
        invariant properties.Keys == old(properties).Keys
        invariant forall p :: p in properties ==>
                    properties[p] ==
                      if p in curves && p !in todo then WithMenuKey(curves[p], old(properties)[p], hit, createOnCurve, engine) else old(properties)[p]
        decreases todo
      {
        var c :| c in todo;
        AddKeyToCurve(c, hit, createOnCurve, engine);
        todo := todo - {c};
      }
      Invalidate();
    }

    /**
     * Moves key `keyframeIndex` of an AnimationCurve: its time is clamped against
     * its neighbours, and on a curve whose times increase the order survives.
     */
    method SetKeyframeOnCurve(curve: AnimationCurve, keyframeIndex: int, newValue: Keyframe)
      requires 0 <= keyframeIndex < |curve.keys|
      modifies curve, this`dirty
      ensures curve.keys == MovedCurve(old(curve.keys), keyframeIndex, newValue, settings.keyTimeClampingDistance)
      ensures dirty
      ensures settings.keyTimeClampingDistance > 0.0 && StrictlyIncreasing(old(curve.keys))
              && (0 < keyframeIndex < |curve.keys| - 1 ==>
                    old(curve.keys)[keyframeIndex + 1].time - old(curve.keys)[keyframeIndex - 1].time > settings.keyTimeClampingDistance)
              ==> StrictlyIncreasing(curve.keys)
    {
      var keys := curve.keys;
      var d := settings.keyTimeClampingDistance;
      var k := newValue;
      if keyframeIndex > 0 {
        k := k.(time := Max(keys[keyframeIndex - 1].time + d, k.time));
      }
      if keyframeIndex < |keys| - 1 {
        k := k.(time := Min(keys[keyframeIndex + 1].time - d, k.time));
      }
      curve.MoveKey(keyframeIndex, k);
      Invalidate();
      if d > 0.0 && StrictlyIncreasing(keys)
         && (0 < keyframeIndex < |keys| - 1 ==> keys[keyframeIndex + 1].time - keys[keyframeIndex - 1].time > d) {
        MoveKeepsOrder(keys, keyframeIndex, newValue, d);
      }
    }

    /** SetKeyframe(SerializedProperty, ...): read the curve, move the key, write the curve back. */
    method SetKeyframe(curve: Property, keyframeIndex: int, keyframe: Keyframe) returns (r: Outcome<EditorError>)
      requires Valid()
      modifies this`properties, this`dirty
      ensures Valid()
      ensures curve !in old(properties) ==> r == Fail(NullReference) && properties == old(properties) && dirty == old(dirty)
      ensures curve in old(properties) && !(0 <= keyframeIndex < |old(properties)[curve]|) ==>
                r == Fail(IndexOutOfRange) && properties == old(properties) && dirty == old(dirty)
      ensures curve in old(properties) && 0 <= keyframeIndex < |old(properties)[curve]| ==>
                && r == Pass && dirty
                && properties == old(properties)[curve := MovedCurve(old(properties)[curve], keyframeIndex, keyframe, settings.keyTimeClampingDistance)]
    {
      if curve !in properties {
        return Fail(NullReference);
      }
      var animCurve := new AnimationCurve(properties[curve]);
      if !(0 <= keyframeIndex < |animCurve.keys|) {
        return Fail(IndexOutOfRange);
      }
      SetKeyframeOnCurve(animCurve, keyframeIndex, keyframe);
      SaveCurve(curve, animCurve);
      r := Pass;
    }

    /** The key a drag to `mousePosition` asks for: the pointer's curve position, the key's own tangents. */
    function DraggedKey(keys: Curve, keyframeIndex: int, mousePosition: Vec2): (k: Keyframe)
      reads this
      requires 0 <= keyframeIndex < |keys| && NonDegenerate(curveArea)
      ensures k.inTangent == keys[keyframeIndex].inTangent && k.outTangent == keys[keyframeIndex].outTangent
      ensures settings.bounds.height >= 0.0 ==> settings.bounds.YMin() <= k.value <= settings.bounds.YMax()
      ensures settings.bounds.width >= 0.0 ==> settings.bounds.XMin() <= k.time <= settings.bounds.XMax()
    {
      var p := CanvasToCurve(settings.bounds, curveArea, mousePosition);
      Keyframe(p.x, p.y, keys[keyframeIndex].inTangent, keys[keyframeIndex].outTangent)
    }

    method EditMoveKeyframe(curve: AnimationCurve, keys: Curve, keyframeIndex: int, mousePosition: Vec2)
      requires 0 <= keyframeIndex < |keys| == |curve.keys| && NonDegenerate(curveArea)
      modifies curve, this`dirty
      ensures curve.keys == MovedCurve(old(curve.keys), keyframeIndex, DraggedKey(keys, keyframeIndex, mousePosition), settings.keyTimeClampingDistance)
      ensures dirty
    {
      var key := CanvasToCurve(settings.bounds, curveArea, mousePosition);
      var inTgt := keys[keyframeIndex].inTangent;
      var outTgt := keys[keyframeIndex].outTangent;
      SetKeyframeOnCurve(curve, keyframeIndex, Keyframe(key.x, key.y, inTgt, outTgt));
    }

    /** The drag offset of the pointer from a key, in curve space. */
    function TangentOffset(key: Keyframe, mousePosition: Vec2): (r: Vec2)
      reads this
      requires NonDegenerate(curveArea)
      ensures settings.bounds.width >= 0.0 ==>
                settings.bounds.XMin() - key.time <= r.x <= settings.bounds.XMax() - key.time
      ensures settings.bounds.height >= 0.0 ==>
                settings.bounds.YMin() - key.value <= r.y <= settings.bounds.YMax() - key.value
    {
      var pos := CanvasToCurve(settings.bounds, curveArea, mousePosition);
      Vec2(pos.x - key.time, pos.y - key.value)
    }

    method EditMoveTangent(curve: AnimationCurve, keys: Curve, keyframeIndex: int, targetTangent: TangentSide,
                           linkTangents: bool, mousePosition: Vec2, approx: Approx)
      requires 0 <= keyframeIndex < |keys| == |curve.keys| && NonDegenerate(curveArea)
      modifies curve, this`dirty
      ensures curve.keys ==
                MovedCurve(old(curve.keys), keyframeIndex,
                           TangentEdited(keys[keyframeIndex], targetTangent, linkTangents,
                                         TangentOffset(keys[keyframeIndex], mousePosition), approx),
                           settings.keyTimeClampingDistance)
      ensures dirty
    {
      var pos := CanvasToCurve(settings.bounds, curveArea, mousePosition);
      var time := keys[keyframeIndex].time;
      var value := keys[keyframeIndex].value;
      var dx, dy := pos.x - time, pos.y - value;
      if targetTangent == In && dx > 0.0 {
        dx := 0.0;
      }
      if targetTangent == Out && dx < 0.0 {
        dx := 0.0;
      }
      var tangent;
      if ApproxZero(approx, dx) {
        tangent := if dy < 0.0 then PosInf else NegInf;
      } else {
        tangent := Finite(dy / dx);
      }
      var inTangent := keys[keyframeIndex].inTangent;
      var outTangent := keys[keyframeIndex].outTangent;
      if targetTangent == In || linkTangents {
        inTangent := tangent;
      }
      if targetTangent == Out || linkTangents {
        outTangent := tangent;
      }
      SetKeyframeOnCurve(curve, keyframeIndex, Keyframe(time, value, inTangent, outTangent));
    }
  }
}
