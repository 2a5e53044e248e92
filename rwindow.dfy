/** One window (src/RWindow.js): its configuration and runtime state, the
 *  reducer that changes it, the size rules around it, and the controller
 *  object (api) that holds the subscriber list and drives the reducer. */
module RWindow {
  import opened Wrappers
  import opened JsValues
  import opened JsArrays
  import Titlebar
  import R = RWindowRealm

  // ---------------------------------------------------------------------
  // State and the merge

  /** The four nested groups `spreadToState` merges key by key. */
  const Groups: set<string> := {"draggable", "wrapperStyle", "titlebarStyle", "contentStyle"}

  /** Every nested group is present and is a plain object. */
  predicate GroupsAreObjects(s: Props)
  {
    && "draggable" in s && s["draggable"].Obj?
    && "wrapperStyle" in s && s["wrapperStyle"].Obj?
    && "titlebarStyle" in s && s["titlebarStyle"].Obj?
    && "contentStyle" in s && s["contentStyle"].Obj?
  }

  /** None of the nested groups is a key. */
  predicate NamesNoGroup(m: Props)
  {
    "draggable" !in m && "wrapperStyle" !in m && "titlebarStyle" !in m && "contentStyle" !in m
  }

  /** The configuration every window starts from. */
  function Defaults(): (d: Props)
    ensures GroupsAreObjects(d)
    ensures Get(d, "size") == Str("md") && Get(d, "width") == Num(600) && Get(d, "height") == Num(400)
  {
    map[
      "handleArea" := Str("titlebar"),
      "width" := Num(600),
      "height" := Num(400),
      "size" := Str("md"),
      "title" := Str("Example Titlebar"),
      "minHeight" := Str("24px"),
      "hasTitlebar" := Bool(true),
      "hasMinimizeButton" := Bool(true),
      "hasCloseButton" := Bool(true),
      "isHidden" := Bool(false),
      "isMinimized" := Bool(false),
      "isCloseable" := Bool(true),
      "draggable" := Obj(map[
        "axis" := Str("both"),
        "defaultPosition" := Obj(map["x" := Num(0), "y" := Num(0)]),
        "bounds" := Str("parent"),
        "grid" := Arr([Num(10), Num(10)]),
        "onMouseDown" := Func(0),
        "scale" := Num(1)]),
      "wrapperStyle" := Obj(map["border" := Str("1px solid black")]),
      "titlebarStyle" := Obj(map[
        "borderBottom" := Str("1px solid black"),
        "backgroundColor" := Str("#E0E0E0FF")]),
      "contentStyle" := Obj(map["backgroundColor" := Str("#FDFAFD")])
    ]
  }

  /** A default window is shown, expanded and closeable, carries a titlebar
   *  with both buttons, and is dragged by that titlebar. */
  lemma DefaultWindowIsOpen()
    ensures var d := Defaults();
      && Get(d, "isHidden") == Bool(false) && Get(d, "isMinimized") == Bool(false)
      && Get(d, "isCloseable") == Bool(true) && Get(d, "hasTitlebar") == Bool(true)
      && Get(d, "hasMinimizeButton") == Bool(true) && Get(d, "hasCloseButton") == Bool(true)
      && Get(d, "handleArea") == Str("titlebar")
  {
  }

  /** `{...state[g], ...obj[g]}`. */
  function MergeGroup(state: Value, obj: Value, g: string): Props
  {
    Spread(Prop(state, g)) + Spread(Prop(obj, g))
  }

  /** The four nested groups of a merge, each merged leaf by leaf. */
  function MergedGroups(state: Value, obj: Value): (m: Props)
    ensures m.Keys == Groups
  {
    map g | g in Groups :: Obj(MergeGroup(state, obj, g))
  }

  /** `spreadToState(state, obj)`: the defaults when either argument is falsy;
   *  otherwise `obj`'s top-level keys over `state`'s, with the four nested
   *  groups merged leaf by leaf (see MergeIsKeyWise). */
  function SpreadToState(state: Value, obj: Value): (r: Props)
    ensures !Truthy(state) || !Truthy(obj) ==> r == Defaults()
    ensures GroupsAreObjects(r)
  {
    if !Truthy(state) || !Truthy(obj) then Defaults()
    else Spread(state) + Spread(obj) + MergedGroups(state, obj)
  }

  /** With both arguments truthy, every top-level key of the partial takes
   *  the partial's value, every other key keeps the old one, and inside the
   *  four groups the same holds leaf by leaf: a leaf missing from the
   *  partial's group survives. */
  lemma MergeIsKeyWise(state: Value, obj: Value)
    requires Truthy(state) && Truthy(obj)
    ensures var r := SpreadToState(state, obj);
      && r.Keys == Spread(state).Keys + Spread(obj).Keys + Groups
      && (forall k :: k in Spread(obj) && k !in Groups ==> r[k] == Spread(obj)[k])
      && (forall k :: k in Spread(state) && k !in Spread(obj) && k !in Groups ==> r[k] == Spread(state)[k])
      && (forall g :: g in Groups ==>
            Spread(r[g]).Keys == Spread(Prop(state, g)).Keys + Spread(Prop(obj, g)).Keys)
      && (forall g, leaf :: g in Groups && leaf in Spread(Prop(obj, g)) ==>
            Spread(r[g])[leaf] == Spread(Prop(obj, g))[leaf])
      && (forall g, leaf :: g in Groups && leaf in Spread(Prop(state, g)) && leaf !in Spread(Prop(obj, g)) ==>
            Spread(r[g])[leaf] == Spread(Prop(state, g))[leaf])
  {
    MergeUnfolds(state, obj);
    OverlayKeyWise(Spread(state), Spread(obj), MergedGroups(state, obj));
  }

  /** Sequence concatenation regroups freely. */
  lemma AppendIsAssociative<T>(a: seq<T>, b: seq<T>, c: seq<T>)
    ensures a + b + c == a + (b + c)
  {
  }

  /** `a + b + c` key by key. */
  lemma OverlayKeyWise<K, V>(a: map<K, V>, b: map<K, V>, c: map<K, V>)
    ensures (a + b + c).Keys == a.Keys + b.Keys + c.Keys
    ensures forall k :: k in c ==> (a + b + c)[k] == c[k]
    ensures forall k :: k in b && k !in c ==> (a + b + c)[k] == b[k]
    ensures forall k :: k in a && k !in b && k !in c ==> (a + b + c)[k] == a[k]
  {
  }

  /** With both arguments truthy the merge is the overlay plus the merged groups. */
  lemma MergeUnfolds(state: Value, obj: Value)
    requires Truthy(state) && Truthy(obj)
    ensures SpreadToState(state, obj) == Spread(state) + Spread(obj) + MergedGroups(state, obj)
  {
  }

  /** Re-merging groups that the partial does not name gives them back unchanged. */
  lemma GroupsSurvive(s: Props, m: Props)
    requires GroupsAreObjects(s)
    requires NamesNoGroup(m)
    ensures s + m + MergedGroups(Obj(s), Obj(m)) == s + m
  {
    var groups := MergedGroups(Obj(s), Obj(m));
    forall g | g in Groups ensures groups[g] == (s + m)[g] {
      assert Prop(Obj(m), g) == Undefined;
      assert MergeGroup(Obj(s), Obj(m), g) == s[g].props + map[];
      assert s[g].props + map[] == s[g].props;
    }
    assert (s + m + groups).Keys == (s + m).Keys;
  }

  /** Merging an object that names none of the nested groups into a state whose
   *  groups are objects is plain top-level override. */
  lemma MergeWithoutGroups(s: Props, m: Props)
    requires GroupsAreObjects(s)
    requires NamesNoGroup(m)
    ensures SpreadToState(Obj(s), Obj(m)) == s + m
  {
    MergeUnfolds(Obj(s), Obj(m));
    GroupsSurvive(s, m);
  }

  /** `updateState({})` changes nothing, while `updateState(null)` (or any
   *  falsy partial) resets the window to the defaults. */
  lemma EmptyAndAbsentPartials(s: Props)
    requires GroupsAreObjects(s)
    ensures SpreadToState(Obj(s), Obj(map[])) == s
    ensures SpreadToState(Obj(s), Null) == Defaults()
    ensures SpreadToState(Obj(s), Undefined) == Defaults()
  {
    MergeWithoutGroups(s, map[]);
    assert s + map[] == s;
  }

  // ---------------------------------------------------------------------
  // The reducer

  /** A tag the window reducer does not know. */
  type UnknownTag = t: string | t !in {"toggle_isMinimized", "get_state", "update_state", "set_isHidden"}
    witness ""

  /** A function supplied by a caller, known by its identity. */
  type Callback = nat

  /** The actions the window reducer receives. */
  datatype WindowAction =
    | ToggleMinimized               // "toggle_isMinimized"
    | GetState(callback: Callback)  // "get_state"
    | UpdateState(partial: Value)   // "update_state"
    | SetHidden(hidden: Value)      // "set_isHidden"
    | Unknown(tag: UnknownTag)

  /** An invocation of a caller's function with one argument. */
  datatype Call = Call(callee: Callback, arg: Value)

  /** A reducer step: the next state and the callbacks it invoked, or a throw. */
  datatype Reduction = Reduced(state: Props, invoked: seq<Call>) | Threw(message: string)

  /** `after` differs from `before` at most in key `k`, which it has. */
  predicate OnlyChanged(before: Props, after: Props, k: string)
  {
    after.Keys == before.Keys + {k} && forall j :: j in before && j != k ==> after[j] == before[j]
  }

  /** The window reducer. */
  function Reduce(state: Props, a: WindowAction): (r: Reduction)
    ensures r.Threw? <==> a.Unknown?
    ensures a.Unknown? ==> r.message == "Unknown dispatch type: " + a.tag
    ensures r.Reduced? && !a.GetState? ==> r.invoked == []
    ensures a.GetState? ==> r.Reduced? && r.state == state && r.invoked == [Call(a.callback, Obj(state))]
    ensures a.ToggleMinimized? ==>
              && r.Reduced? && OnlyChanged(state, r.state, "isMinimized")
              && Get(r.state, "isMinimized") == Bool(!Truthy(Get(state, "isMinimized")))
    ensures a.SetHidden? ==>
              && r.Reduced? && OnlyChanged(state, r.state, "isHidden")
              && Get(r.state, "isHidden") == a.hidden
    ensures a.UpdateState? ==> r == Reduced(SpreadToState(Obj(state), a.partial), [])
    ensures GroupsAreObjects(state) && r.Reduced? ==> GroupsAreObjects(r.state)
  {
    match a
    case ToggleMinimized =>
      Reduced(state["isMinimized" := Bool(!Truthy(Get(state, "isMinimized")))], [])
    case GetState(callback) =>
      Reduced(state, [Call(callback, Obj(state))])
    case UpdateState(partial) =>
      Reduced(SpreadToState(Obj(state), partial), [])
    case SetHidden(hidden) =>
      Reduced(state["isHidden" := hidden], [])
    case Unknown(tag) =>
      Threw("Unknown dispatch type: " + tag)
  }

  /** Toggling twice restores `isMinimized` as a boolean: the state itself
   *  when it held a boolean, `!!isMinimized` otherwise. */
  lemma ToggleTwice(s: Props)
    ensures var twice := Reduce(Reduce(s, ToggleMinimized).state, ToggleMinimized).state;
      && twice == s["isMinimized" := Bool(Truthy(Get(s, "isMinimized")))]
      && ("isMinimized" in s && s["isMinimized"].Bool? ==> twice == s)
  {
    var twice := Reduce(Reduce(s, ToggleMinimized).state, ToggleMinimized).state;
    assert twice.Keys == s["isMinimized" := Bool(Truthy(Get(s, "isMinimized")))].Keys;
    if "isMinimized" in s && s["isMinimized"].Bool? {
      assert twice.Keys == s.Keys;
    }
  }

  // ---------------------------------------------------------------------
  // Size and geometry

  /** The fixed proportion table behind the `size` presets. */
  function PresetGeometry(size: Value): Option<(int, int)>
  {
    match size
    case Str(name) =>
      if name == "sm" then Some((400, 200))
      else if name == "md" then Some((600, 400))
      else if name == "lg" then Some((800, 600))
      else None
    case _ => None
  }

  /** The window's width and height, when both are numbers. */
  function GeometryOf(s: Props): Option<(int, int)>
  {
    var w, h := Get(s, "width"), Get(s, "height");
    if w.Num? && h.Num? then Some((w.n, h.n)) else None
  }

  function GeometryUpdate(w: int, h: int): Value
  {
    Obj(map["width" := Num(w), "height" := Num(h)])
  }

  function SizeUpdate(name: string): Value
  {
    Obj(map["size" := Str(name)])
  }

  /** The partial the size effect dispatches for a state, or None where it
   *  returns without dispatching ("custom"). */
  function SizeEffect(s: Props): (partial: Option<Value>)
    ensures partial.Some? ==> partial.value.Obj? && NamesNoGroup(partial.value.props)
  {
    var size := Get(s, "size");
    if size == Str("custom") then None
    else if size == Str("sm") then Some(GeometryUpdate(400, 200))
    else if size == Str("md") then Some(GeometryUpdate(600, 400))
    else if size == Str("lg") then Some(GeometryUpdate(800, 600))
    else Some(SizeUpdate("custom"))
  }

  /** `syncSizeToWh`: the preset name for an exact preset geometry, or no
   *  update at all. It is not called anywhere in the window. */
  function SyncSizeToWh(s: Props): (partial: Option<Value>)
    ensures partial.None? ==>
      forall size :: PresetGeometry(size).Some? ==> GeometryOf(s) != PresetGeometry(size)
    ensures partial.Some? ==>
      exists name :: partial == Some(SizeUpdate(name)) && GeometryOf(s) == PresetGeometry(Str(name))
  {
    var w, h := Get(s, "width"), Get(s, "height");
    if w == Num(400) && h == Num(200) then Some(SizeUpdate("sm"))
    else if w == Num(600) && h == Num(400) then Some(SizeUpdate("md"))
    else if w == Num(800) && h == Num(600) then Some(SizeUpdate("lg"))
    else None
  }

  /** The size effect's partial never names a nested group, so applying it is
   *  a plain top-level overlay. */
  lemma SizeEffectOverlays(s: Props)
    requires GroupsAreObjects(s)
    requires SizeEffect(s).Some?
    ensures SpreadToState(Obj(s), SizeEffect(s).value) == s + Spread(SizeEffect(s).value)
  {
    var m := SizeEffect(s).value.props;
    assert SizeEffect(s).value == Obj(m);
    MergeWithoutGroups(s, m);
  }

  /** Overlaying a preset's geometry update. */
  lemma PresetOverlay(s: Props)
    requires PresetGeometry(Get(s, "size")).Some?
    ensures SizeEffect(s).Some?
    ensures var s' := s + Spread(SizeEffect(s).value);
      && GeometryOf(s') == PresetGeometry(Get(s, "size"))
      && Get(s', "size") == Get(s, "size")
      && (forall k :: k != "width" && k != "height" ==> Get(s', k) == Get(s, k))
      && SyncSizeToWh(s') == Some(SizeUpdate(Get(s, "size").s))
  {
    var s' := s + Spread(SizeEffect(s).value);
    assert Get(s', "width").Num? && Get(s', "height").Num?;
  }

  /** Overlaying `{size: "custom"}`. */
  lemma CustomOverlay(s: Props)
    ensures var s' := s + Spread(SizeUpdate("custom"));
      && Get(s', "size") == Str("custom")
      && (forall k :: k != "size" ==> Get(s', k) == Get(s, k))
      && GeometryOf(s') == GeometryOf(s)
  {
  }

  /** The state after the size effect has run once on `s`. */
  function AfterSizeEffect(s: Props): (s': Props)
    ensures SizeEffect(s).None? ==> s' == s
    ensures GroupsAreObjects(s) ==> GroupsAreObjects(s')
  {
    match SizeEffect(s)
    case None => s
    case Some(partial) => SpreadToState(Obj(s), partial)
  }

  /** A preset size forces that preset's geometry and keeps the size, and
   *  `syncSizeToWh` maps the forced geometry back to the same size. */
  lemma PresetForcesGeometry(s: Props)
    requires GroupsAreObjects(s)
    requires PresetGeometry(Get(s, "size")).Some?
    ensures var s' := AfterSizeEffect(s);
      && GeometryOf(s') == PresetGeometry(Get(s, "size"))
      && Get(s', "size") == Get(s, "size")
      && (forall k :: k != "width" && k != "height" ==> Get(s', k) == Get(s, k))
      && SyncSizeToWh(s') == Some(SizeUpdate(Get(s, "size").s))
  {
    PresetOverlay(s);
    SizeEffectOverlays(s);
  }

  /** "custom" leaves the state alone; any size that is neither a preset nor
   *  "custom" is rewritten to "custom", leaving the geometry as it is. */
  lemma NonPresetSizes(s: Props)
    requires GroupsAreObjects(s)
    requires PresetGeometry(Get(s, "size")).None?
    ensures Get(s, "size") == Str("custom") <==> SizeEffect(s).None?
    ensures var s' := AfterSizeEffect(s);
      && Get(s', "size") == Str("custom")
      && (forall k :: k != "size" ==> Get(s', k) == Get(s, k))
      && GeometryOf(s') == GeometryOf(s)
  {
    if SizeEffect(s).Some? {
      assert SizeEffect(s).value == SizeUpdate("custom");
      CustomOverlay(s);
      SizeEffectOverlays(s);
    }
  }

  /** The size effect settles after one run: what it leaves either keeps the
   *  size (so the effect does not run again) or has size "custom" (on which it
   *  dispatches nothing). */
  lemma SizeEffectSettles(s: Props)
    requires GroupsAreObjects(s)
    ensures var s' := AfterSizeEffect(s);
      Get(s', "size") == Get(s, "size") || SizeEffect(s') == None
  {
    if PresetGeometry(Get(s, "size")).Some? {
      PresetForcesGeometry(s);
    } else {
      NonPresetSizes(s);
    }
  }

  /** The table and `syncSizeToWh` agree: every exact preset geometry maps to
   *  its preset name. */
  lemma SyncSizeToWhFindsEveryPreset(s: Props, size: Value)
    requires PresetGeometry(size).Some? && GeometryOf(s) == PresetGeometry(size)
    ensures SyncSizeToWh(s) == Some(SizeUpdate(size.s))
  {
  }

  // ---------------------------------------------------------------------
  // One dispatch with the effects that follow it

  /** What one dispatch does: the callbacks the reducer invoked and the states
   *  committed one after another, or the error the reducer threw. */
  datatype Outcome = Thrown(message: string) | Rendered(invoked: seq<Call>, commits: seq<Props>)

  /** The commit the size effect adds after `next` replaced `prev`: the effect
   *  runs only when `size` changed. */
  function SizeSync(prev: Props, next: Props): seq<Props>
  {
    if Get(next, "size") == Get(prev, "size") || SizeEffect(next).None? then []
    else [AfterSizeEffect(next)]
  }

  /** Dispatching an action: `get_state` returns the same state object, so
   *  nothing is re-rendered; every other step commits the reducer's state and
   *  then whatever the size effect dispatches. */
  function Run(state: Props, a: WindowAction): (o: Outcome)
    ensures o.Thrown? <==> a.Unknown?
    ensures o.Rendered? ==> |o.commits| <= 2 && (a.GetState? <==> o.commits == [])
  {
    match Reduce(state, a)
    case Threw(message) => Thrown(message)
    case Reduced(next, invoked) =>
      if a.GetState? then Rendered(invoked, [])
      else Rendered(invoked, [next] + SizeSync(state, next))
  }

  /** The state after a dispatch: the last commit, if any. */
  function After(state: Props, a: WindowAction): Props
  {
    match Run(state, a)
    case Thrown(_) => state
    case Rendered(_, commits) => if commits == [] then state else commits[|commits| - 1]
  }

  /** The nested groups stay objects through every dispatch. */
  lemma AfterKeepsGroups(s: Props, a: WindowAction)
    requires GroupsAreObjects(s)
    ensures GroupsAreObjects(After(s, a))
  {
  }

  /** `get_state` hands the current state to the callback and commits nothing. */
  lemma GetStateReadsCurrentState(s: Props, callback: Callback)
    ensures Run(s, GetState(callback)) == Rendered([Call(callback, Obj(s))], [])
    ensures After(s, GetState(callback)) == s
  {
  }

  /** An unknown action type throws "Unknown dispatch type: <type>" and leaves
   *  the state as it was. */
  lemma UnknownActionThrows(s: Props, tag: UnknownTag)
    ensures Run(s, Unknown(tag)) == Thrown("Unknown dispatch type: " + tag)
    ensures After(s, Unknown(tag)) == s
  {
  }

  /** Toggling and hiding commit exactly one state and never trigger the size
   *  effect, since they leave `size` alone. */
  lemma ToggleAndHideCommitOnce(s: Props, hidden: Value)
    ensures Run(s, ToggleMinimized) == Rendered([], [Reduce(s, ToggleMinimized).state])
    ensures Run(s, SetHidden(hidden)) == Rendered([], [s["isHidden" := hidden]])
  {
    assert Get(Reduce(s, ToggleMinimized).state, "size") == Get(s, "size");
    assert Get(s["isHidden" := hidden], "size") == Get(s, "size");
  }

  /** Where a committed `next` ends once the size effect has run after it. */
  function Settled(prev: Props, next: Props): Props
  {
    if Get(next, "size") == Get(prev, "size") then next else AfterSizeEffect(next)
  }

  /** The size effect commits exactly when `size` changed and the new size
   *  is not "custom"; otherwise the commit is final. */
  lemma SettledCases(prev: Props, next: Props)
    ensures Get(next, "size") == Get(prev, "size") || SizeEffect(next).None? ==>
      [next] + SizeSync(prev, next) == [next] && Settled(prev, next) == next
    ensures Get(next, "size") != Get(prev, "size") && SizeEffect(next).Some? ==>
      [next] + SizeSync(prev, next) == [next, AfterSizeEffect(next)] && Settled(prev, next) == AfterSizeEffect(next)
  {
    if Get(next, "size") != Get(prev, "size") && SizeEffect(next).Some? {
      assert SizeSync(prev, next) == [AfterSizeEffect(next)];
    }
  }

  /** Every committing, non-throwing dispatch ends where the reducer's state settles. */
  lemma AfterIsSettled(s: Props, a: WindowAction)
    requires !a.GetState? && !a.Unknown?
    ensures Reduce(s, a).Reduced? && After(s, a) == Settled(s, Reduce(s, a).state)
  {
    RunCommits(s, a);
    SettledCases(s, Reduce(s, a).state);
  }

  /** A committing dispatch renders the reducer's state, then the size
   *  effect's commit when there is one. */
  lemma RunCommits(s: Props, a: WindowAction)
    requires !a.GetState? && !a.Unknown?
    ensures Run(s, a) == Rendered([], [Reduce(s, a).state] + SizeSync(s, Reduce(s, a).state))
  {
  }

  /** An update that changes `size` to a preset ends with that preset's geometry. */
  lemma UpdateToPresetForcesGeometry(s: Props, partial: Value)
    requires GroupsAreObjects(s)
    requires var next := SpreadToState(Obj(s), partial);
      Get(next, "size") != Get(s, "size") && PresetGeometry(Get(next, "size")).Some?
    ensures var next := SpreadToState(Obj(s), partial);
      && Get(After(s, UpdateState(partial)), "size") == Get(next, "size")
      && GeometryOf(After(s, UpdateState(partial))) == PresetGeometry(Get(next, "size"))
  {
    var next := SpreadToState(Obj(s), partial);
    AfterIsSettled(s, UpdateState(partial));
    PresetForcesGeometry(next);
  }

  /** An update that changes `size` to anything but a preset or "custom" ends
   *  with `size == "custom"` and the geometry the update left. */
  lemma UpdateToOtherSizeBecomesCustom(s: Props, partial: Value)
    requires GroupsAreObjects(s)
    requires var next := SpreadToState(Obj(s), partial);
      Get(next, "size") != Get(s, "size") && PresetGeometry(Get(next, "size")).None?
    ensures var next := SpreadToState(Obj(s), partial);
      && Get(After(s, UpdateState(partial)), "size") == Str("custom")
      && GeometryOf(After(s, UpdateState(partial))) == GeometryOf(next)
  {
    AfterIsSettled(s, UpdateState(partial));
    SettledToCustom(s, SpreadToState(Obj(s), partial));
  }

  /** A commit that changes `size` to a non-preset settles on "custom" with
   *  its geometry untouched. */
  lemma SettledToCustom(prev: Props, next: Props)
    requires GroupsAreObjects(next)
    requires Get(next, "size") != Get(prev, "size") && PresetGeometry(Get(next, "size")).None?
    ensures Get(Settled(prev, next), "size") == Str("custom")
    ensures GeometryOf(Settled(prev, next)) == GeometryOf(next)
  {
    NonPresetSizes(next);
  }

  /** Overlaying a geometry update sets exactly the width and the height. */
  lemma GeometryOverlay(s: Props, w: int, h: int)
    ensures var s' := s + Spread(GeometryUpdate(w, h));
      && GeometryOf(s') == Some((w, h))
      && (forall k :: k != "width" && k != "height" ==> Get(s', k) == Get(s, k))
  {
  }

  /** Overlaying the geometry a state already has changes nothing. */
  lemma GeometryOverlayIdempotent(s: Props, w: int, h: int)
    requires Get(s, "width") == Num(w) && Get(s, "height") == Num(h)
    ensures s + Spread(GeometryUpdate(w, h)) == s
  {
    assert "width" in s && "height" in s;
    assert (s + Spread(GeometryUpdate(w, h))).Keys == s.Keys;
  }

  /** A commit that keeps `size` is final. */
  lemma SettledKeepingSize(prev: Props, next: Props)
    requires Get(next, "size") == Get(prev, "size")
    ensures Settled(prev, next) == next
  {
  }

  /** An update that keeps `size` is not synchronised at all: a default window
   *  given the large preset's geometry still reports "md". */
  lemma GeometryUpdateKeepsSize()
    ensures GeometryOf(After(Defaults(), UpdateState(GeometryUpdate(800, 600)))) == Some((800, 600))
    ensures Get(After(Defaults(), UpdateState(GeometryUpdate(800, 600))), "size") == Str("md")
  {
    var d, m := Defaults(), Spread(GeometryUpdate(800, 600));
    MergeWithoutGroups(d, m);
    GeometryOverlay(d, 800, 600);
    AfterIsSettled(d, UpdateState(GeometryUpdate(800, 600)));
    SettledKeepingSize(d, d + m);
  }

  /** `updateState(null)` resets any window to the defaults, however its size
   *  differed from them. */
  lemma UpdateNullResets(s: Props)
    ensures After(s, UpdateState(Null)) == Defaults()
  {
    AfterIsSettled(s, UpdateState(Null));
    DefaultsAreSettled();
  }

  /** The size effect leaves the defaults as they are. */
  lemma DefaultsAreSettled()
    ensures AfterSizeEffect(Defaults()) == Defaults()
  {
    var d, m := Defaults(), Spread(GeometryUpdate(600, 400));
    SizeEffectOverlays(d);
    GeometryOverlayIdempotent(d, 600, 400);
  }

  /** The state a mounted window settles in: the defaults with its options
   *  merged in (its first render), after the size effect's first run. */
  function InitialState(options: Props): (s: Props)
    ensures GroupsAreObjects(s)
    ensures "size" in options && PresetGeometry(options["size"]).Some? ==>
      GeometryOf(s) == PresetGeometry(options["size"]) && Get(s, "size") == options["size"]
    ensures "size" !in options ==> GeometryOf(s) == Some((600, 400)) && Get(s, "size") == Str("md")
  {
    DefaultSizeApplies(options);
    PresetOptionWins(Defaults(), options);
    AfterSizeEffect(SpreadToState(Obj(Defaults()), Obj(options)))
  }

  /** Options without a `size` start at the default "md" geometry, whatever
   *  width and height they give. */
  lemma DefaultSizeApplies(options: Props)
    ensures "size" !in options ==>
      var s := AfterSizeEffect(SpreadToState(Obj(Defaults()), Obj(options)));
      GeometryOf(s) == Some((600, 400)) && Get(s, "size") == Str("md")
  {
    var d := Defaults();
    assert PresetGeometry(Get(d, "size")) == Some((600, 400));
    StateSizeWins(d, options);
  }

  /** Options without a `size`, merged into a state with a preset size, end
   *  with that size and its geometry: their own width and height are lost. */
  lemma StateSizeWins(state: Props, options: Props)
    ensures "size" !in options && PresetGeometry(Get(state, "size")).Some? ==>
      var s := AfterSizeEffect(SpreadToState(Obj(state), Obj(options)));
      GeometryOf(s) == PresetGeometry(Get(state, "size")) && Get(s, "size") == Get(state, "size")
  {
    if "size" !in options && PresetGeometry(Get(state, "size")).Some? {
      OptionWithoutSizeKeepsSize(state, options);
      PresetForcesGeometry(SpreadToState(Obj(state), Obj(options)));
    }
  }

  /** Options without a `size` keep the size they are merged into. */
  lemma OptionWithoutSizeKeepsSize(state: Props, options: Props)
    requires "size" !in options
    ensures Get(SpreadToState(Obj(state), Obj(options)), "size") == Get(state, "size")
  {
    MergeUnfolds(Obj(state), Obj(options));
    assert "size" !in MergedGroups(Obj(state), Obj(options));
  }

  /** A window created with `size: "lg"` starts 800 by 600. */
  lemma LargeWindowStartsLarge(options: Props)
    requires Get(options, "size") == Str("lg")
    ensures GeometryOf(InitialState(options)) == Some((800, 600))
    ensures Get(InitialState(options), "size") == Str("lg")
  {
    assert "size" in options && PresetGeometry(options["size"]) == Some((800, 600));
    PresetOptionWins(Defaults(), options);
  }

  /** Merging options that name a preset size, then running the size effect,
   *  ends with that size and its geometry. */
  lemma PresetOptionWins(state: Props, options: Props)
    ensures "size" in options && PresetGeometry(options["size"]).Some? ==>
      var s := AfterSizeEffect(SpreadToState(Obj(state), Obj(options)));
      GeometryOf(s) == PresetGeometry(options["size"]) && Get(s, "size") == options["size"]
  {
    if "size" in options && PresetGeometry(options["size"]).Some? {
      OptionSizeWins(state, options);
      PresetForcesGeometry(SpreadToState(Obj(state), Obj(options)));
    }
  }

  /** A `size` the options give overrides the one they are merged into. */
  lemma OptionSizeWins(state: Props, options: Props)
    requires "size" in options
    ensures Get(SpreadToState(Obj(state), Obj(options)), "size") == options["size"]
  {
    MergeUnfolds(Obj(state), Obj(options));
    assert "size" !in MergedGroups(Obj(state), Obj(options));
  }

  /** `size` is one of the four values the size effect settles on. */
  predicate SizeIsKnown(s: Props)
  {
    var size := Get(s, "size");
    size == Str("sm") || size == Str("md") || size == Str("lg") || size == Str("custom")
  }

  /** A mounted window's `size` is one of "sm", "md", "lg" and "custom",
   *  whatever `size` its options give. */
  lemma MountedSizeIsKnown(options: Props)
    ensures SizeIsKnown(InitialState(options))
  {
    var merged := SpreadToState(Obj(Defaults()), Obj(options));
    if PresetGeometry(Get(merged, "size")).Some? {
      PresetForcesGeometry(merged);
    } else {
      NonPresetSizes(merged);
    }
  }

  /** No dispatch takes `size` out of the four values the size effect
   *  settles on. */
  lemma {:induction false} SizeStaysKnown(s: Props, a: WindowAction)
    requires GroupsAreObjects(s) && SizeIsKnown(s)
    ensures SizeIsKnown(After(s, a))
  {
    match a
    case GetState(callback) => GetStateReadsCurrentState(s, callback);
    case Unknown(tag) => UnknownActionThrows(s, tag);
    case _ =>
      AfterIsSettled(s, a);
      SettledSizeIsKnown(s, Reduce(s, a).state);
  }

  /** A commit settles on a known size: an unchanged size was known already,
   *  and a changed one is settled by the size effect. */
  lemma SettledSizeIsKnown(prev: Props, next: Props)
    requires GroupsAreObjects(next) && SizeIsKnown(prev)
    ensures SizeIsKnown(Settled(prev, next))
  {
    if Get(next, "size") != Get(prev, "size") {
      if PresetGeometry(Get(next, "size")).Some? {
        PresetForcesGeometry(next);
      } else {
        NonPresetSizes(next);
      }
    }
  }

  // ---------------------------------------------------------------------
  // Subscribers and notification

  /** An entry of `stateSubscribers`: `{ id, func }`. */
  datatype Subscriber = Subscriber(id: string, func: Callback)

  function SubscriberId(e: Subscriber): string { e.id }

  /** `for (let sub of subs) sub.func(arg)`: one call per entry, in list order. */
  function Notifications(subs: seq<Subscriber>, arg: Value): seq<Call>
  {
    if subs == [] then []
    else Notifications(subs[..|subs| - 1], arg) + [Call(subs[|subs| - 1].func, arg)]
  }

  /** Notifying makes exactly one call per subscriber entry, to that entry's
   *  function, in the order of the list. */
  lemma {:induction false} NotificationsCallEachOnce(subs: seq<Subscriber>, arg: Value)
    ensures |Notifications(subs, arg)| == |subs|
    ensures forall k :: 0 <= k < |subs| ==> Notifications(subs, arg)[k] == Call(subs[k].func, arg)
  {
    if subs != [] {
      NotificationsCallEachOnce(subs[..|subs| - 1], arg);
    }
  }

  /** The notifications for a run of commits, commit by commit. */
  function Broadcast(subs: seq<Subscriber>, commits: seq<Props>): seq<Call>
  {
    if commits == [] then []
    else Notifications(subs, Obj(commits[0])) + Broadcast(subs, commits[1..])
  }

  /** The notifications for one commit, and for two. */
  lemma BroadcastOneOrTwo(subs: seq<Subscriber>, x: Props, y: Props)
    ensures Broadcast(subs, [x]) == Notifications(subs, Obj(x))
    ensures Broadcast(subs, [x, y]) == Notifications(subs, Obj(x)) + Notifications(subs, Obj(y))
  {
    assert [x][1..] == [];
    assert [x, y][1..] == [y];
    assert [y][1..] == [];
  }

  /** Subscribing twice under one id leaves two entries; one unsubscribe
   *  removes both, and unsubscribing an id no entry has changes nothing. */
  lemma SubscribeDuplicatesUnsubscribeRemovesAll(subs: seq<Subscriber>, id: string, f: Callback, g: Callback)
    ensures var twice := subs + [Subscriber(id, f)] + [Subscriber(id, g)];
      && |twice| == |subs| + 2
      && (forall j :: 0 <= j < |Without(twice, SubscriberId, id)| ==> Without(twice, SubscriberId, id)[j].id != id)
      && Without(twice, SubscriberId, id) == Without(subs, SubscriberId, id)
    ensures (forall j :: 0 <= j < |subs| ==> subs[j].id != id) ==> Without(subs, SubscriberId, id) == subs
  {
    var one := [Subscriber(id, f)];
    var two := [Subscriber(id, g)];
    WithoutConcat(subs + one, two, SubscriberId, id);
    WithoutConcat(subs, one, SubscriberId, id);
    assert Without(one, SubscriberId, id) == [] by { assert one[1..] == []; }
    assert Without(two, SubscriberId, id) == [] by { assert two[1..] == []; }
  }

  // ---------------------------------------------------------------------
  // Derived values the window renders

  /** The props the window passes to its titlebar, which it renders only when
   *  `hasTitlebar` is truthy. */
  function TitlebarFor(id: string, s: Props): (p: Option<Titlebar.TitlebarProps>)
    ensures p.Some? <==> Truthy(Get(s, "hasTitlebar"))
  {
    if !Truthy(Get(s, "hasTitlebar")) then None
    else Some(Titlebar.TitlebarProps(
      handleId := "titlebar-" + id,
      minHeight := Get(s, "minHeight"),
      hasCloseButton := Get(s, "hasCloseButton"),
      hasMinimizeButton := Get(s, "hasMinimizeButton"),
      title := Get(s, "title"),
      isMinimized := Get(s, "isMinimized"),
      isCloseable := Get(s, "isCloseable")))
  }

  /** The selector of the element that starts a drag. */
  function HandleSelector(id: string, s: Props): (sel: string)
    ensures |sel| > |id| + 1 && sel[0] == '.'
    ensures sel[|sel| - |id| - 1..] == "-" + id
  {
    "." + ToJsString(Get(s, "handleArea")) + "-" + id
  }

  /** The stacking layer: the focused window above all others. */
  function ZIndex(focused: Option<string>, id: string): (z: int)
    ensures z == 9 || z == 10
    ensures z > 9 <==> focused == Some(id)
  {
    if focused == Some(id) then 10 else 9
  }

  /** The rendered height: `minHeight` while minimized. */
  function RenderedHeight(s: Props): (h: Value)
    ensures h == Get(s, "height") || h == Get(s, "minHeight")
    ensures Truthy(Get(s, "isMinimized")) ==> h == Get(s, "minHeight")
    ensures !Truthy(Get(s, "isMinimized")) ==> h == Get(s, "height")
  {
    if Truthy(Get(s, "isMinimized")) then Get(s, "minHeight") else Get(s, "height")
  }

  /** The CSS display of the wrapper: hidden windows are not displayed. */
  function Display(s: Props): (d: string)
    ensures d == "none" || d == "flex"
    ensures d == "none" <==> Truthy(Get(s, "isHidden"))
  {
    if Truthy(Get(s, "isHidden")) then "none" else "flex"
  }

  /** The drag handle selects the title element exactly when `handleArea`
   *  reads "titlebar". */
  lemma HandleSelectsTitle(id: string, s: Props)
    requires Truthy(Get(s, "hasTitlebar"))
    ensures HandleSelector(id, s) == "." + Titlebar.TitleClassName(TitlebarFor(id, s).value)
            <==> ToJsString(Get(s, "handleArea")) == "titlebar"
  {
    var area := ToJsString(Get(s, "handleArea"));
    var title := "." + Titlebar.TitleClassName(TitlebarFor(id, s).value);
    assert title == "." + "titlebar" + "-" + id;
    if HandleSelector(id, s) == title {
      assert |area| == 8;
      assert area == HandleSelector(id, s)[1..9] == title[1..9];
    }
  }

  /** After "set_focused", the focused window is the one on top and every
   *  other window shares the layer below. */
  lemma FocusedWindowOnTop<C, A>(realm: R.Realm<C, A>, id: string, other: string)
    requires other != id
    ensures R.Reduce(realm, R.SetFocused(Some(id))).Ok?
    ensures var f := R.Reduce(realm, R.SetFocused(Some(id))).value.focused;
      ZIndex(f, id) == 10 && ZIndex(f, other) == 9
  {
  }

  /** Toggling flips the rendered height between `height` and `minHeight`
   *  and flips the minimize glyph. */
  lemma ToggleFlipsHeightAndGlyph(s: Props)
    ensures var t := Reduce(s, ToggleMinimized).state;
      && RenderedHeight(t) == (if Truthy(Get(s, "isMinimized")) then Get(s, "height") else Get(s, "minHeight"))
      && Titlebar.MinimizeGlyph(Get(t, "isMinimized")) != Titlebar.MinimizeGlyph(Get(s, "isMinimized"))
  {
  }

  /** A window whose `isCloseable` is falsy answers a close click by hiding. */
  lemma UncloseableCloseClickHides(id: string, s: Props)
    requires Truthy(Get(s, "hasTitlebar")) && !Truthy(Get(s, "isCloseable"))
    ensures Titlebar.CloseClick(TitlebarFor(id, s).value) == Titlebar.SetIsHidden(true)
    ensures Display(Reduce(s, SetHidden(Bool(true))).state) == "none"
  {
  }

  // ---------------------------------------------------------------------
  // The controller

  /** A mounted window: its state, the subscriber list its api keeps, and the
   *  record of every call it has made to a caller's function. */
  class Window {
    const id: string
    var state: Props
    var subscribers: seq<Subscriber>
    var calls: seq<Call>

    /** The nested groups of the state are always objects. */
    ghost predicate Valid()
      reads this
    {
      GroupsAreObjects(state)
    }

    /** Mounting the element the realm created with this id and options. */
    constructor (id: string, options: Props)
      requires Get(options, "id") == Str(id)
      ensures Valid()
      ensures this.id == id && state == InitialState(options)
      ensures subscribers == [] && calls == []
    {
      this.id := id;
      var s0 := SpreadToState(Obj(Defaults()), Obj(options));
      state := AfterSizeEffect(s0);
      subscribers := [];
      calls := [];
    }

    /** Calls every subscriber's function with `arg`. */
    method NotifySubscribers(arg: Value)
      modifies this`calls
      ensures calls == old(calls) + Notifications(subscribers, arg)
    {
      for i := 0 to |subscribers|
        invariant calls == old(calls) + Notifications(subscribers[..i], arg)
      {
        assert subscribers[..i + 1][..i] == subscribers[..i];
        calls := calls + [Call(subscribers[i].func, arg)];
      }
      assert subscribers[..|subscribers|] == subscribers;
    }

    /** `dispatch(action)`, then the effects the new state triggers: the
     *  subscribers see each committed state, and a changed `size` runs the
     *  size effect. A throw leaves everything as it was. */
    method Dispatch(action: WindowAction) returns (thrown: Option<string>)
      requires Valid()
      modifies this`state, this`calls
      ensures Valid()
      ensures Run(old(state), action).Thrown? ==>
        thrown == Some(Run(old(state), action).message) && state == old(state) && calls == old(calls)
      ensures Run(old(state), action).Rendered? ==>
        && thrown == None
        && state == After(old(state), action)
        && calls == old(calls) + Run(old(state), action).invoked
                    + Broadcast(subscribers, Run(old(state), action).commits)
    {
      var r := Reduce(state, action);
      if r.Threw? {
        return Some(r.message);
      }
      calls := calls + r.invoked;
      if action.GetState? {
        return None;
      }
      var prev := state;
      AfterIsSettled(prev, action);
      RunCommits(prev, action);
      state := r.state;
      CommitAndSync(prev);
      return None;
    }

    /** The committed `state` replaced `prev`: every subscriber sees it, and a
     *  changed `size` runs the size effect, whose commit they see as well. */
    method CommitAndSync(prev: Props)
      requires Valid()
      modifies this`state, this`calls
      ensures Valid()
      ensures state == Settled(prev, old(state))
      ensures calls == old(calls) + Broadcast(subscribers, [old(state)] + SizeSync(prev, old(state)))
    {
      ghost var next, before := state, calls;
      SettledCases(prev, next);
      NotifySubscribers(Obj(state));
      if Get(state, "size") != Get(prev, "size") && SizeEffect(state).Some? {
        ghost var first := Notifications(subscribers, Obj(next));
        state := AfterSizeEffect(state);
        NotifySubscribers(Obj(state));
        BroadcastOneOrTwo(subscribers, next, state);
        AppendIsAssociative(before, first, Notifications(subscribers, Obj(state)));
      } else {
        BroadcastOneOrTwo(subscribers, next, next);
      }
    }

    /** `toggleIsMinimized()`: only `isMinimized` changes, and every subscriber
     *  sees the new state once. */
    method ToggleIsMinimized()
      requires Valid()
      modifies this`state, this`calls
      ensures Valid()
      ensures OnlyChanged(old(state), state, "isMinimized")
      ensures Get(state, "isMinimized") == Bool(!Truthy(Get(old(state), "isMinimized")))
      ensures calls == old(calls) + Notifications(subscribers, Obj(state))
    {
      ToggleAndHideCommitOnce(state, Undefined);
      var _ := Dispatch(ToggleMinimized);
    }

    /** `setIsHidden(value)`: `isHidden` becomes `value`, nothing else changes,
     *  and every subscriber sees the new state once. */
    method SetIsHidden(value: Value)
      requires Valid()
      modifies this`state, this`calls
      ensures Valid()
      ensures state == old(state)["isHidden" := value]
      ensures calls == old(calls) + Notifications(subscribers, Obj(state))
    {
      ToggleAndHideCommitOnce(state, value);
      var _ := Dispatch(SetHidden(value));
    }

    /** `updateState(value)`: the merge and the size effect after it. */
    method UpdateState(value: Value)
      requires Valid()
      modifies this`state, this`calls
      ensures Valid()
      ensures state == After(old(state), WindowAction.UpdateState(value))
      ensures calls == old(calls) + Broadcast(subscribers, Run(old(state), WindowAction.UpdateState(value)).commits)
    {
      ghost var before := calls;
      RunCommits(state, WindowAction.UpdateState(value));
      assert before + Run(state, WindowAction.UpdateState(value)).invoked == before;
      var _ := Dispatch(WindowAction.UpdateState(value));
    }

    /** `getState(callback)`: the callback receives the current state, which
     *  stays as it is. */
    method GetState(callback: Callback)
      requires Valid()
      modifies this`state, this`calls
      ensures state == old(state)
      ensures calls == old(calls) + [Call(callback, Obj(state))]
    {
      var _ := Dispatch(WindowAction.GetState(callback));
    }

    /** `setFocused()`: asks the realm to focus this window. */
    method SetFocused<C, A>() returns (request: R.RealmAction<C, A>)
      ensures request == R.SetFocused(Some(id))
    {
      request := R.SetFocused(Some(id));
    }

    /** `close()`: every current subscriber is told `null`, then the realm is
     *  asked to remove this window. */
    method Close<C, A>() returns (request: R.RealmAction<C, A>)
      modifies this`calls
      ensures calls == old(calls) + Notifications(subscribers, Null)
      ensures request == R.Remove(Some(id))
    {
      NotifySubscribers(Null);
      request := R.Remove(Some(id));
    }

    /** `subscribeToState(id, func)`: appends an entry, even for an id already
     *  subscribed. The subscriber list is a dependency of the notify effect,
     *  so every subscriber then sees the current state once. */
    method SubscribeToState(subscriberId: string, func: Callback)
      modifies this`subscribers, this`calls
      ensures subscribers == old(subscribers) + [Subscriber(subscriberId, func)]
      ensures calls == old(calls) + Notifications(subscribers, Obj(state))
    {
      subscribers := subscribers + [Subscriber(subscriberId, func)];
      NotifySubscribers(Obj(state));
    }

    /** `unsubFromState(id)`: drops every entry with that id (none, if it has
     *  none); the remaining subscribers see the current state once. */
    method UnsubFromState(subscriberId: string)
      modifies this`subscribers, this`calls
      ensures subscribers == Without(old(subscribers), SubscriberId, subscriberId)
      ensures calls == old(calls) + Notifications(subscribers, Obj(state))
    {
      subscribers := Without(subscribers, SubscriberId, subscriberId);
      NotifySubscribers(Obj(state));
    }

    /** A titlebar click: the command is carried out on this window, and a
     *  close request goes on to the realm reducer. */
    method Perform<C>(command: Titlebar.Command, realm: R.Realm<C, Window>)
      returns (realm': Result<R.Realm<C, Window>, R.RealmError>)
      requires Valid()
      modifies this`state, this`calls
      ensures Valid()
      ensures command.Close? ==>
        && realm' == R.Reduce(realm, R.Remove(Some(id)))
        && state == old(state)
        && calls == old(calls) + Notifications(subscribers, Null)
      ensures command.SetIsHidden? ==>
        && realm' == Ok(realm)
        && state == old(state)["isHidden" := Bool(command.value)]
        && calls == old(calls) + Notifications(subscribers, Obj(state))
      ensures command.ToggleIsMinimized? ==>
        && realm' == Ok(realm)
        && state == Reduce(old(state), ToggleMinimized).state
        && calls == old(calls) + Notifications(subscribers, Obj(state))
    {
      match command
      case Close =>
        var request := Close();
        realm' := R.Reduce(realm, request);
      case SetIsHidden(value) =>
        SetIsHidden(Bool(value));
        realm' := Ok(realm);
      case ToggleIsMinimized =>
        ToggleAndHideCommitOnce(state, Undefined);
        ToggleIsMinimized();
        realm' := Ok(realm);
    }

    /** A click on the titlebar's close button: a closeable window asks the
     *  realm to remove it; any other one stays in the realm, hidden. */
    method ClickClose<C>(realm: R.Realm<C, Window>) returns (realm': Result<R.Realm<C, Window>, R.RealmError>)
      requires Valid()
      requires Truthy(Get(state, "hasTitlebar")) && Truthy(Get(state, "hasCloseButton"))
      modifies this`state, this`calls
      ensures Valid()
      ensures Truthy(Get(old(state), "isCloseable")) ==>
        && realm' == R.Reduce(realm, R.Remove(Some(id)))
        && state == old(state)
        && calls == old(calls) + Notifications(subscribers, Null)
      ensures !Truthy(Get(old(state), "isCloseable")) ==>
        && realm' == Ok(realm)
        && state == old(state)["isHidden" := Bool(true)]
        && Display(state) == "none"
        && calls == old(calls) + Notifications(subscribers, Obj(state))
    {
      var props := TitlebarFor(id, state).value;
      realm' := Perform(Titlebar.CloseClick(props), realm);
    }
  }
}
