/** Perform Actions: checking the actions of every input source and regrouping them by tick. */
module Actions {
  import opened Options
  import opened Json
  import opened WebDriverTypes

  datatype SourceType = NoneType | Key | Pointer

  datatype PointerType = Mouse | Pen | Touch

  datatype Subtype = Pause | PointerUp | PointerDown | PointerMove | PointerCancel | KeyUp | KeyDown

  datatype MouseButton = NoButton | Left | Middle | Right

  datatype Origin = Viewport | FromPointer | Element(elementId: string)

  datatype Action = Action(
    id: string, kind: SourceType, subtype: Subtype, duration: Option<nat>,
    pointerType: Option<PointerType>, button: Option<MouseButton>, origin: Option<Origin>,
    x: Option<int>, y: Option<int>, key: Option<string>)

  type Members = map<string, Json>

  const UNSIGNED: nat := 0x1_0000_0000
  const INT_MIN := -0x8000_0000
  const INT_MAX := 0x7FFF_FFFF

  function NewAction(id: string, kind: SourceType, subtype: Subtype): Action {
    Action(id, kind, subtype, None, None, None, None, None, None, None)
  }

  // ---------------------------------------------------------------- one action

  /** The duration of a pause: required; kept in 32 bits. */
  function ProcessPause(item: Members, a: Action): Option<Action> {
    if "duration" !in item then None
    else
      var d := UnsignedValue(item["duration"]);
      if d.Some? then Some(a.(duration := Some(d.value % UNSIGNED))) else None
  }

  function ProcessNullAction(id: string, item: Members): Option<Action> {
    if GetString(item, "type") != Some("pause") then None
    else ProcessPause(item, NewAction(id, NoneType, Pause))
  }

  function KeySubtype(t: Option<string>): Option<Subtype> {
    if t == Some("pause") then Some(Pause)
    else if t == Some("keyUp") then Some(KeyUp)
    else if t == Some("keyDown") then Some(KeyDown)
    else None
  }

  function ProcessKeyAction(id: string, item: Members): Option<Action> {
    var subtype := KeySubtype(GetString(item, "type"));
    if subtype.None? then None
    else
      var a := NewAction(id, Key, subtype.value);
      if subtype.value.Pause? then ProcessPause(item, a)
      else
        var key := GetString(item, "value");
        if key.None? || key.value == "" then None else Some(a.(key := key))
  }

  function PointerSubtype(t: Option<string>): Option<Subtype> {
    if t == Some("pause") then Some(Pause)
    else if t == Some("pointerUp") then Some(PointerUp)
    else if t == Some("pointerDown") then Some(PointerDown)
    else if t == Some("pointerMove") then Some(PointerMove)
    else if t == Some("pointerCancel") then Some(PointerCancel)
    else None
  }

  /** The button number is cut to 32 bits on its way in. */
  function ActionMouseButton(button: nat): MouseButton {
    match button % UNSIGNED
    case 0 => Left
    case 1 => Middle
    case 2 => Right
    case _ => NoButton
  }

  function ProcessOrigin(v: Json): Option<Origin> {
    match v
    case Obj(members) =>
      var e := GetString(members, WEB_ELEMENT_IDENTIFIER);
      if e.Some? then Some(Element(e.value)) else None
    case Str(s) => if s == "viewport" then Some(Viewport) else if s == "pointer" then Some(FromPointer) else None
    case _ => None
  }

  /** An optional member: absent, wrong, or parsed. */
  datatype Parsed<T> = Absent | Wrong | Value(value: T)

  function Coordinate(item: Members, key: string): Parsed<int> {
    if key !in item then Absent
    else
      var n := NumberInRange(item[key], INT_MIN, INT_MAX);
      if n.Some? then Value(n.value) else Wrong
  }

  function ToOption<T>(p: Parsed<T>): Option<T> { if p.Value? then Some(p.value) else None }

  function ProcessMove(item: Members, a: Action): Option<Action> {
    var d := if "duration" !in item then Absent else
      (var n := UnsignedValue(item["duration"]); if n.Some? then Value(n.value % UNSIGNED) else Wrong);
    var o := if "origin" in item then ProcessOrigin(item["origin"]) else Some(Viewport);
    var x, y := Coordinate(item, "x"), Coordinate(item, "y");
    if d.Wrong? || o.None? || x.Wrong? || y.Wrong? then None
    else Some(a.(duration := ToOption(d), origin := o, x := ToOption(x), y := ToOption(y)))
  }

  function ProcessPointerAction(id: string, pointerType: PointerType, item: Members): Option<Action> {
    var subtype := PointerSubtype(GetString(item, "type"));
    if subtype.None? then None
    else
      var a := NewAction(id, Pointer, subtype.value).(pointerType := Some(pointerType));
      match subtype.value
      case Pause => ProcessPause(item, a)
      case PointerMove => ProcessMove(item, a)
      case PointerCancel => Some(a)
      case _ =>
        if "button" !in item then None
        else
          var b := UnsignedValue(item["button"]);
          if b.Some? then Some(a.(button := Some(ActionMouseButton(b.value)))) else None
  }

  /** The default pointer type is the mouse. */
  function ProcessPointerParameters(sequence: Members): Option<PointerType> {
    if "parameters" !in sequence then Some(Mouse)
    else if !sequence["parameters"].Obj? then None
    else
      var t := GetString(sequence["parameters"].members, "pointerType");
      if t.None? then Some(Mouse)
      else if t.value == "mouse" then Some(Mouse)
      else if t.value == "pen" then Some(Pen)
      else if t.value == "touch" then Some(Touch)
      else None
  }

  function ProcessAction(id: string, kind: SourceType, pointerType: PointerType, item: Json): Option<Action> {
    if !item.Obj? then None
    else match kind
      case NoneType => ProcessNullAction(id, item.members)
      case Key => ProcessKeyAction(id, item.members)
      case Pointer => ProcessPointerAction(id, pointerType, item.members)
  }

  /** Everything the session reads without asking: the subtype belongs to the source's type, and the
      parts that this subtype needs are there. The coordinates of a move are not among them. */
  predicate WellFormed(a: Action) {
    match a.kind
    case NoneType => a.subtype == Pause && a.duration.Some?
    case Key => a.subtype in {Pause, KeyUp, KeyDown} && (a.subtype != Pause ==> a.key.Some? && a.key.value != "")
    case Pointer =>
      && a.subtype in {Pause, PointerUp, PointerDown, PointerMove, PointerCancel}
      && a.pointerType.Some?
      && (a.subtype in {PointerUp, PointerDown} ==> a.button.Some?)
      && (a.subtype == PointerMove ==> a.origin.Some?)
  }

  /** An accepted action is well-formed and carries its source's id and type; and a move has both
      coordinates exactly when the client sent both. */
  lemma {:induction false} AcceptedIsWellFormed(id: string, kind: SourceType, pointerType: PointerType, item: Json)
    ensures var a := ProcessAction(id, kind, pointerType, item);
      a.Some? ==>
        && WellFormed(a.value) && a.value.id == id && a.value.kind == kind
        && (a.value.subtype == PointerMove ==>
              && (a.value.x.Some? <==> "x" in item.members)
              && (a.value.y.Some? <==> "y" in item.members))
  {
  }

  /** What Perform Actions does with one action's coordinates. */
  predicate CoordinatesPresent(a: Action) { a.subtype == PointerMove ==> a.x.Some? && a.y.Some? }

  /** A move without coordinates is accepted, and then read. */
  lemma {:induction false} MoveWithoutCoordinates()
    ensures var a := ProcessAction("mouse", Pointer, Mouse, Obj(map["type" := Str("pointerMove")]));
      a.Some? && !CoordinatesPresent(a.value)
  {
    var item := Obj(map["type" := Str("pointerMove")]);
    assert "pause" != "pointerMove" && "pointerUp" != "pointerMove" && "pointerDown"[7] != "pointerMove"[7];
    assert PointerSubtype(GetString(item.members, "type")) == Some(PointerMove);
    assert "x" != "type" && "y" != "type" && "origin" != "type" && "duration" != "type";
  }

  /** The button a number stands for. */
  function ButtonNamed(button: nat): MouseButton {
    match button
    case 0 => Left
    case 1 => Middle
    case 2 => Right
    case _ => NoButton
  }

  /** The number the client sent as `key`. */
  function Sent(item: Json, key: string): Option<nat> {
    if item.Obj? && key in item.members then UnsignedValue(item.members[key]) else None
  }

  /** An accepted action that has a duration or a button was sent one. It keeps the duration exactly when
      it is below 2^32, and the button exactly when its number is below 2^32 or stands for no button even
      after the cut. */
  lemma {:induction false} KeepsNumbersIff(id: string, kind: SourceType, pointerType: PointerType, item: Json)
    ensures var a := ProcessAction(id, kind, pointerType, item); a.Some? ==>
      && (a.value.duration.Some? ==>
            && Sent(item, "duration").Some?
            && (a.value.duration == Sent(item, "duration") <==> Sent(item, "duration").value < UNSIGNED))
      && (a.value.button.Some? ==>
            && Sent(item, "button").Some?
            && var b := Sent(item, "button").value;
               a.value.button.value == ButtonNamed(b) <==> b < UNSIGNED || b % UNSIGNED > 2)
  {
    if Sent(item, "duration").Some? { CutKeepsIff(Sent(item, "duration").value); }
    if Sent(item, "button").Some? { CutButtonKeepsIff(Sent(item, "button").value); }
  }

  lemma {:induction false} CutKeepsIff(n: nat)
    ensures n % UNSIGNED == n <==> n < UNSIGNED
  {
  }

  lemma {:induction false} CutButtonKeepsIff(n: nat)
    ensures ActionMouseButton(n) == ButtonNamed(n) <==> n < UNSIGNED || n % UNSIGNED > 2
  {
    CutKeepsIff(n);
  }

  /** Button 2^32 is pressed as the left one. */
  lemma {:induction false} LargeButtonIsLeft()
    ensures var item := Obj(map["type" := Str("pointerDown"), "button" := Integer(UNSIGNED)]);
      var a := ProcessAction("mouse", Pointer, Mouse, item);
      a.Some? && a.value.button == Some(Left) && ButtonNamed(UNSIGNED) == NoButton
  {
    var item := Obj(map["type" := Str("pointerDown"), "button" := Integer(UNSIGNED)]);
    assert |"button"| == 6 && |"type"| == 4;
    ReadsTypeName(PointerDown);
    assert GetString(item.members, "type") == Some(TypeName(PointerDown));
  }

  // ---------------------------------------------------------------- writing actions

  function TypeName(s: Subtype): string {
    match s
    case Pause => "pause"
    case PointerUp => "pointerUp"
    case PointerDown => "pointerDown"
    case PointerMove => "pointerMove"
    case PointerCancel => "pointerCancel"
    case KeyUp => "keyUp"
    case KeyDown => "keyDown"
  }

  function ButtonNumber(b: MouseButton): nat {
    match b
    case Left => 0
    case Middle => 1
    case Right => 2
    case NoButton => 3
  }

  function WriteOrigin(o: Origin): Json {
    match o
    case Viewport => Str("viewport")
    case FromPointer => Str("pointer")
    case Element(id) => Obj(map[WEB_ELEMENT_IDENTIFIER := Str(id)])
  }

  /** The members besides "type" that the WebDriver specification gives an action. */
  function WriteDetails(a: Action): Members
    requires WellFormed(a)
  {
    match a.subtype
    case Pause => With(map[], "duration", WriteNumber(a.duration))
    case PointerUp => map["button" := Integer(ButtonNumber(a.button.value))]
    case PointerDown => map["button" := Integer(ButtonNumber(a.button.value))]
    case PointerMove =>
      var m := With(map["origin" := WriteOrigin(a.origin.value)], "duration", WriteNumber(a.duration));
      With(With(m, "x", WriteNumber(a.x)), "y", WriteNumber(a.y))
    case PointerCancel => map[]
    case _ => map["value" := Str(a.key.value)]
  }

  function Write(a: Action): Json
    requires WellFormed(a)
  {
    Obj(WriteDetails(a)["type" := Str(TypeName(a.subtype))])
  }

  /** Well-formed, numbers in range, and nothing set that the subtype does not use. */
  predicate Canonical(a: Action) {
    && WellFormed(a)
    && (a.pointerType.Some? <==> a.kind.Pointer?)
    && (a.duration.Some? ==> a.duration.value < UNSIGNED && a.subtype in {Pause, PointerMove})
    && (a.subtype == Pause ==> a.duration.Some?)
    && (a.button.Some? <==> a.subtype in {PointerUp, PointerDown})
    && (a.origin.Some? <==> a.subtype == PointerMove)
    && (a.x.Some? ==> a.subtype == PointerMove && INT_MIN <= a.x.value <= INT_MAX)
    && (a.y.Some? ==> a.subtype == PointerMove && INT_MIN <= a.y.value <= INT_MAX)
    && (a.key.Some? <==> a.subtype in {KeyUp, KeyDown})
  }

  lemma {:induction false} ReadsTypeName(s: Subtype)
    ensures s in {Pause, KeyUp, KeyDown} ==> KeySubtype(Some(TypeName(s))) == Some(s)
    ensures s !in {KeyUp, KeyDown} ==> PointerSubtype(Some(TypeName(s))) == Some(s)
  {
    assert |"pause"| == 5 && |"keyUp"| == 5 && |"keyDown"| == 7 && |"pointerUp"| == 9 && |"pointerMove"| == 11
      && |"pointerCancel"| == 13;
    assert "pointerDown"[7] == 'D' && "pointerMove"[7] == 'M' && "pause"[0] == 'p' && "keyUp"[0] == 'k';
  }

  /** The members of a written action, by name. */
  lemma {:induction false} WrittenMembers(a: Action)
    requires Canonical(a)
    ensures var m := Write(a).members;
      && GetString(m, "type") == Some(TypeName(a.subtype))
      && ("duration" in m <==> a.duration.Some?) && (a.duration.Some? ==> m["duration"] == Integer(a.duration.value))
      && ("x" in m <==> a.x.Some?) && (a.x.Some? ==> m["x"] == Integer(a.x.value))
      && ("y" in m <==> a.y.Some?) && (a.y.Some? ==> m["y"] == Integer(a.y.value))
      && ("origin" in m <==> a.origin.Some?) && (a.origin.Some? ==> m["origin"] == WriteOrigin(a.origin.value))
      && ("button" in m <==> a.button.Some?)
      && (a.button.Some? ==> m["button"] == Integer(ButtonNumber(a.button.value)))
      && (a.key.Some? ==> "value" in m && m["value"] == Str(a.key.value))
  {
    assert |"x"| == 1 && |"y"| == 1 && "x"[0] == 'x' && "y"[0] == 'y' && |"type"| == 4 && |"value"| == 5;
    assert |"origin"| == 6 && |"button"| == 6 && "origin"[0] == 'o' && "button"[0] == 'b' && |"duration"| == 8;
  }

  lemma {:induction false} OriginRoundTrip(o: Origin)
    ensures ProcessOrigin(WriteOrigin(o)) == Some(o)
  {
    assert |"viewport"| == 8 && |"pointer"| == 7;
  }

  /** Every canonical action is what its written form is read as. */
  lemma {:induction false} ActionRoundTrip(a: Action)
    requires Canonical(a)
    ensures ProcessAction(a.id, a.kind, ValueOr(a.pointerType, Mouse), Write(a)) == Some(a)
  {
    WrittenMembers(a);
    ReadsTypeName(a.subtype);
    if a.origin.Some? { OriginRoundTrip(a.origin.value); }
  }

  // ---------------------------------------------------------------- ticks

  /** What happens at tick `i`: the i-th action of every source that has one, in the order of sources. */
  function Tick(sources: seq<seq<Action>>, i: nat): seq<Action> {
    if sources == [] then []
    else
      var last := sources[|sources| - 1];
      Tick(sources[..|sources| - 1], i) + if i < |last| then [last[i]] else []
  }

  function Longest(sources: seq<seq<Action>>): nat {
    if sources == [] then 0
    else
      var n, last := Longest(sources[..|sources| - 1]), |sources[|sources| - 1]|;
      if n < last then last else n
  }

  function Transpose(sources: seq<seq<Action>>): (ticks: seq<seq<Action>>)
    ensures |ticks| == Longest(sources) && forall i | 0 <= i < |ticks| :: ticks[i] == Tick(sources, i)
  {
    seq(Longest(sources), i requires 0 <= i < Longest(sources) => Tick(sources, i))
  }

  /** The loop that sorts one source's actions into the ticks. */
  method AddSource(ticks: seq<seq<Action>>, actions: seq<Action>, ghost sources: seq<seq<Action>>)
      returns (r: seq<seq<Action>>)
    requires ticks == Transpose(sources)
    ensures r == Transpose(sources + [actions])
  {
    r := ticks;
    ghost var more := sources + [actions];
    assert more[..|more| - 1] == sources;
    var i := 0;
    while i < |actions|
      invariant 0 <= i <= |actions|
      invariant |r| == if |ticks| < i then i else |ticks|
      invariant forall j | 0 <= j < i :: r[j] == Tick(more, j)
      invariant forall j | i <= j < |r| :: r[j] == Tick(sources, j)
    {
      if |r| < i + 1 {
        BeyondLongest(sources, i);
        r := r + [[]];
      }
      r := r[i := r[i] + [actions[i]]];
      i := i + 1;
    }
    assert |r| == Longest(more);
    forall j | 0 <= j < |r| ensures r[j] == Tick(more, j) {
      if j >= |actions| { assert Tick(more, j) == Tick(sources, j) + []; }
    }
  }

  lemma {:induction false} BeyondLongest(sources: seq<seq<Action>>, i: nat)
    requires i >= Longest(sources)
    ensures Tick(sources, i) == []
  {
    if sources != [] { BeyondLongest(sources[..|sources| - 1], i); }
  }

  /** No tick is empty. */
  lemma {:induction false} TicksAreNotEmpty(sources: seq<seq<Action>>, i: nat)
    requires i < Longest(sources)
    ensures Tick(sources, i) != []
  {
    if i < Longest(sources[..|sources| - 1]) { TicksAreNotEmpty(sources[..|sources| - 1], i); }
  }

  /** The source has an action at tick `i`. */
  predicate Reaches(sources: seq<seq<Action>>, s: nat, i: nat) { s < |sources| && i < |sources[s]| }

  /** The actions are those of the sources at `from`, which ascend, and these are all that reach tick `i`. */
  ghost predicate TakenFrom(sources: seq<seq<Action>>, i: nat, tick: seq<Action>, from: seq<nat>) {
    && |from| == |tick| && (forall j, k | 0 <= j < k < |from| :: from[j] < from[k])
    && (forall s: nat :: s in from <==> Reaches(sources, s, i))
    && (forall j | 0 <= j < |from| :: Reaches(sources, from[j], i) && tick[j] == sources[from[j]][i])
  }

  /** A tick holds the actions of the sources that are that long, in the order of the sources. */
  lemma {:induction false} TickKeepsOrder(sources: seq<seq<Action>>, i: nat) returns (from: seq<nat>)
    ensures TakenFrom(sources, i, Tick(sources, i), from)
  {
    from := [];
    if sources != [] {
      var n := |sources| - 1;
      from := TickKeepsOrder(sources[..n], i);
      var front, last, before := sources[..n], sources[n], Tick(sources[..n], i);
      TakenOneMore(front, last, i, before, from);
      assert sources == front + [last];
      if i < |last| {
        assert Tick(sources, i) == before + [last[i]];
        from := from + [n];
      } else {
        assert Tick(sources, i) == before + [] == before;
      }
    }
  }

  lemma {:induction false} TakenOneMore(sources: seq<seq<Action>>, last: seq<Action>, i: nat, tick: seq<Action>,
      from: seq<nat>)
    requires TakenFrom(sources, i, tick, from)
    ensures if i < |last| then TakenFrom(sources + [last], i, tick + [last[i]], from + [|sources|])
            else TakenFrom(sources + [last], i, tick, from)
  {
    var more := sources + [last];
    forall s: nat | s < |sources| ensures Reaches(more, s, i) <==> Reaches(sources, s, i) {}
    assert forall s: nat | Reaches(sources, s, i) :: more[s] == sources[s];
  }

  function Total(s: seq<seq<Action>>): nat { if s == [] then 0 else Total(s[..|s| - 1]) + |s[|s| - 1]| }

  /** The actions in the first `n` ticks. */
  function TotalTicks(sources: seq<seq<Action>>, n: nat): nat {
    if n == 0 then 0 else TotalTicks(sources, n - 1) + |Tick(sources, n - 1)|
  }

  lemma {:induction false} TotalTicksSplit(sources: seq<seq<Action>>, n: nat)
    requires sources != []
    ensures var last := |sources[|sources| - 1]|;
      TotalTicks(sources, n) == TotalTicks(sources[..|sources| - 1], n) + if n < last then n else last
  {
    if n > 0 { TotalTicksSplit(sources, n - 1); }
  }

  lemma {:induction false} TotalTicksIsTotal(sources: seq<seq<Action>>, n: nat)
    requires n >= Longest(sources)
    ensures TotalTicks(sources, n) == Total(sources)
  {
    if sources == [] {
      NoTicks(n);
    } else {
      TotalTicksSplit(sources, n);
      TotalTicksIsTotal(sources[..|sources| - 1], n);
    }
  }

  lemma {:induction false} NoTicks(n: nat)
    ensures TotalTicks([], n) == 0
  {
    if n > 0 { NoTicks(n - 1); }
  }

  lemma {:induction false} TotalOfTicks(sources: seq<seq<Action>>, ticks: seq<seq<Action>>)
    requires forall i | 0 <= i < |ticks| :: ticks[i] == Tick(sources, i)
    ensures Total(ticks) == TotalTicks(sources, |ticks|)
  {
    if ticks != [] { TotalOfTicks(sources, ticks[..|ticks| - 1]); }
  }

  /** Regrouping loses and invents nothing. */
  lemma {:induction false} TransposeConserves(sources: seq<seq<Action>>)
    ensures Total(Transpose(sources)) == Total(sources)
  {
    TotalOfTicks(sources, Transpose(sources));
    TotalTicksIsTotal(sources, Longest(sources));
  }

  function Filter(tick: seq<Action>, id: string): seq<Action> {
    if tick == [] then []
    else Filter(tick[..|tick| - 1], id) + if tick[|tick| - 1].id == id then [tick[|tick| - 1]] else []
  }

  /** What the ticks hold for one source. */
  function Project(ticks: seq<seq<Action>>, id: string): seq<Action> {
    if ticks == [] then [] else Project(ticks[..|ticks| - 1], id) + Filter(ticks[|ticks| - 1], id)
  }

  /** The actions of the sources carry their ids. */
  predicate Owned(sources: seq<seq<Action>>, ids: seq<string>) {
    && |sources| == |ids|
    && (forall s, i | 0 <= s < |sources| && 0 <= i < |sources[s]| :: sources[s][i].id == ids[s])
  }

  predicate Distinct(ids: seq<string>) { forall i, j | 0 <= i < j < |ids| :: ids[i] != ids[j] }

  lemma {:induction false} FilterOne(tick: seq<Action>, a: Action, id: string)
    ensures Filter(tick + [a], id) == Filter(tick, id) + if a.id == id then [a] else []
  {
    assert (tick + [a])[..|tick|] == tick;
  }

  /** The actions of the last source at a tick. */
  lemma {:induction false} FilterLast(sources: seq<seq<Action>>, ids: seq<string>, i: nat, id: string)
    requires Owned(sources, ids) && sources != []
    ensures var n := |sources| - 1;
      Filter(Tick(sources, i), id)
      == Filter(Tick(sources[..n], i), id) + if i < |sources[n]| && ids[n] == id then [sources[n][i]] else []
  {
    var n := |sources| - 1;
    var front, last := Tick(sources[..n], i), sources[n];
    if i < |last| { FilterOne(front, last[i], id); } else { assert front + [] == front; }
  }

  lemma {:induction false} FilterAbsent(sources: seq<seq<Action>>, ids: seq<string>, i: nat, id: string)
    requires Owned(sources, ids) && id !in ids
    ensures Filter(Tick(sources, i), id) == []
  {
    if sources != [] {
      var n := |sources| - 1;
      FilterLast(sources, ids, i, id);
      FilterAbsent(sources[..n], ids[..n], i, id);
    }
  }

  lemma {:induction false} FilterTick(sources: seq<seq<Action>>, ids: seq<string>, i: nat, s: nat)
    requires Owned(sources, ids) && Distinct(ids) && s < |ids|
    ensures Filter(Tick(sources, i), ids[s]) == if i < |sources[s]| then [sources[s][i]] else []
  {
    var n := |sources| - 1;
    FilterLast(sources, ids, i, ids[s]);
    OwnedFront(sources, ids);
    var front, frontIds := sources[..n], ids[..n];
    if s < n {
      assert frontIds[s] == ids[s] && front[s] == sources[s] && ids[n] != ids[s];
      FilterTick(front, frontIds, i, s);
    } else {
      FilterAbsent(front, frontIds, i, ids[s]);
      assert s == n;
    }
  }

  lemma {:induction false} OwnedFront(sources: seq<seq<Action>>, ids: seq<string>)
    requires Owned(sources, ids) && Distinct(ids) && sources != []
    ensures var n := |sources| - 1; Owned(sources[..n], ids[..n]) && Distinct(ids[..n]) && ids[n] !in ids[..n]
  {
  }

  lemma {:induction false} ProjectPrefix(sources: seq<seq<Action>>, ids: seq<string>, s: nat, n: nat)
    requires Owned(sources, ids) && Distinct(ids) && s < |ids| && n <= Longest(sources)
    ensures Project(Transpose(sources)[..n], ids[s]) == if n < |sources[s]| then sources[s][..n] else sources[s]
  {
    if n > 0 {
      ProjectPrefix(sources, ids, s, n - 1);
      FilterTick(sources, ids, n - 1, s);
      ProjectOne(Transpose(sources)[..n], ids[s]);
      assert Transpose(sources)[..n][..n - 1] == Transpose(sources)[..n - 1];
      Grow(sources[s], n);
    }
  }

  lemma {:induction false} ProjectOne(ticks: seq<seq<Action>>, id: string)
    requires ticks != []
    ensures Project(ticks, id) == Project(ticks[..|ticks| - 1], id) + Filter(ticks[|ticks| - 1], id)
  {
  }

  lemma {:induction false} Grow(s: seq<Action>, n: nat)
    requires n > 0
    ensures (if n - 1 < |s| then s[..n - 1] else s) + (if n - 1 < |s| then [s[n - 1]] else [])
         == if n < |s| then s[..n] else s
  {
  }

  lemma {:induction false} LongestIsBound(sources: seq<seq<Action>>, s: nat)
    requires s < |sources|
    ensures |sources[s]| <= Longest(sources)
  {
    if s < |sources| - 1 { LongestIsBound(sources[..|sources| - 1], s); }
  }

  /** The ticks are the exact transpose: with distinct ids, what they hold for an id is that source's
      sequence, in order. */
  lemma {:induction false} ProjectionReturnsTheSource(sources: seq<seq<Action>>, ids: seq<string>, s: nat)
    requires Owned(sources, ids) && Distinct(ids) && s < |ids|
    ensures Project(Transpose(sources), ids[s]) == sources[s]
  {
    LongestIsBound(sources, s);
    ProjectPrefix(sources, ids, s, Longest(sources));
    assert Transpose(sources)[..Longest(sources)] == Transpose(sources);
  }

  // ---------------------------------------------------------------- input sources

  datatype InputSource = InputSource(kind: SourceType, pointerType: Option<PointerType>)

  type Sources = map<string, InputSource>

  function SequenceKind(t: Option<string>): Option<SourceType> {
    if t == Some("key") then Some(Key)
    else if t == Some("pointer") then Some(Pointer)
    else if t == Some("none") then Some(NoneType)
    else None
  }

  /** Who a sequence is for: its id and the source it declares. */
  function Header(v: Json): Option<(string, InputSource)> {
    if !v.Obj? then None
    else
      var kind, id := SequenceKind(GetString(v.members, "type")), GetString(v.members, "id");
      if kind.None? || id.None? then None
      else if !kind.value.Pointer? then Some((id.value, InputSource(kind.value, None)))
      else
        var p := ProcessPointerParameters(v.members);
        if p.Some? then Some((id.value, InputSource(Pointer, p))) else None
  }

  /** A source is created by its first sequence and keeps its type. */
  function Registered(sources: Sources, v: Json): Sources {
    var h := Header(v);
    if h.None? || h.value.0 in sources then sources else sources[h.value.0 := h.value.1]
  }

  function ParseItems(id: string, source: InputSource, items: seq<Json>): Option<seq<Action>> {
    if items == [] then Some([])
    else
      var front := ParseItems(id, source, items[..|items| - 1]);
      if front.None? then None
      else
        var a := ProcessAction(id, source.kind, ValueOr(source.pointerType, Mouse), items[|items| - 1]);
        if a.Some? then Some(front.value + [a.value]) else None
  }

  /** A sequence may use a source of its own type and, for pointers, pointer type. */
  predicate Agree(source: InputSource, declared: InputSource) {
    source.kind == declared.kind && (source.kind.Pointer? ==> source.pointerType == declared.pointerType)
  }

  /** The actions of a sequence, or None if it is refused. */
  function ParseSequence(sources: Sources, v: Json): Option<seq<Action>> {
    var h := Header(v);
    if h.None? then None
    else if !Agree(Registered(sources, v)[h.value.0], h.value.1) then None
    else
      var items := GetArray(v.members, "actions");
      if items.None? then None else ParseItems(h.value.0, h.value.1, items.value)
  }

  /** Actions as their source's declaration wants them. */
  predicate FitSource(id: string, source: InputSource, actions: seq<Action>) {
    forall i | 0 <= i < |actions| :: WellFormed(actions[i]) && actions[i].id == id && actions[i].kind == source.kind
  }

  lemma {:induction false} ParseItemsFit(id: string, source: InputSource, items: seq<Json>)
    ensures var r := ParseItems(id, source, items);
      r.Some? ==> |r.value| == |items| && FitSource(id, source, r.value)
  {
    if items != [] {
      ParseItemsFit(id, source, items[..|items| - 1]);
      AcceptedIsWellFormed(id, source.kind, ValueOr(source.pointerType, Mouse), items[|items| - 1]);
    }
  }

  /** The table after a list of sequences. */
  function RegisteredAll(sources: Sources, sequences: seq<Json>): Sources {
    if sequences == [] then sources
    else Registered(RegisteredAll(sources, sequences[..|sequences| - 1]), sequences[|sequences| - 1])
  }

  function ParseAll(sources: Sources, sequences: seq<Json>): Option<seq<seq<Action>>> {
    if sequences == [] then Some([])
    else
      var n := |sequences| - 1;
      var front := ParseAll(sources, sequences[..n]);
      if front.None? then None
      else
        var last := ParseSequence(RegisteredAll(sources, sequences[..n]), sequences[n]);
        if last.Some? then Some(front.value + [last.value]) else None
  }

  lemma {:induction false} AllRefused(sources: Sources, sequences: seq<Json>, n: nat)
    requires n <= |sequences| && ParseAll(sources, sequences[..n]) == None
    ensures ParseAll(sources, sequences) == None
    decreases |sequences| - n
  {
    if n < |sequences| {
      assert sequences[..n + 1][..n] == sequences[..n];
      AllRefused(sources, sequences, n + 1);
    } else {
      assert sequences[..n] == sequences;
    }
  }

  /** Every accepted sequence fits the source that the table has for its id, and still has after the
      whole request: an id's type is fixed until release. */
  lemma {:induction false} AcceptedFitTheTable(sources: Sources, sequences: seq<Json>)
    requires ParseAll(sources, sequences).Some?
    ensures var parsed, table := ParseAll(sources, sequences).value, RegisteredAll(sources, sequences);
      && |parsed| == |sequences|
      && (forall s | 0 <= s < |sequences| :: Taken(table, sequences[s], parsed[s]))
      && (forall id | id in sources :: id in table && table[id] == sources[id])
  {
    if sequences != [] {
      var n := |sequences| - 1;
      AcceptedFitTheTable(sources, sequences[..n]);
      var before := RegisteredAll(sources, sequences[..n]);
      ParsedIsTaken(before, sequences[n]);
      forall s | 0 <= s < n
        ensures Taken(RegisteredAll(sources, sequences), sequences[s], ParseAll(sources, sequences).value[s])
      {
        assert Taken(before, sequences[..n][s], ParseAll(sources, sequences[..n]).value[s]);
        TakenStays(before, sequences[n], sequences[s], ParseAll(sources, sequences[..n]).value[s]);
      }
    }
  }

  lemma {:induction false} TakenStays(sources: Sources, last: Json, v: Json, actions: seq<Action>)
    requires Taken(sources, v, actions)
    ensures Taken(Registered(sources, last), v, actions)
  {
  }

  predicate IsMove(item: Json) { item.Obj? && GetString(item.members, "type") == Some("pointerMove") }

  /** Every move in the list has both coordinates. */
  predicate CompleteMoves(items: seq<Json>) {
    forall i | 0 <= i < |items| && IsMove(items[i]) :: "x" in items[i].members && "y" in items[i].members
  }

  predicate AllCoordinatesPresent(actions: seq<Action>) {
    forall i | 0 <= i < |actions| :: CoordinatesPresent(actions[i])
  }

  lemma {:induction false} MoveComesFromMove(id: string, kind: SourceType, pointerType: PointerType, item: Json)
    requires ProcessAction(id, kind, pointerType, item).Some?
    ensures ProcessAction(id, kind, pointerType, item).value.subtype == PointerMove <==> IsMove(item)
  {
    assert |"pause"| == 5 && |"keyUp"| == 5 && |"keyDown"| == 7 && |"pointerUp"| == 9 && |"pointerMove"| == 11;
    assert "pointerDown"[7] == 'D' && "pointerMove"[7] == 'M';
  }

  lemma {:induction false} CoordinatesOfOneMore(actions: seq<Action>, a: Action)
    ensures AllCoordinatesPresent(actions + [a]) <==> AllCoordinatesPresent(actions) && CoordinatesPresent(a)
  {
    assert forall i | 0 <= i < |actions| :: (actions + [a])[i] == actions[i];
    assert (actions + [a])[|actions|] == a;
  }

  lemma {:induction false} MovesOfOneMore(items: seq<Json>, item: Json)
    ensures CompleteMoves(items + [item]) <==>
      CompleteMoves(items) && (IsMove(item) ==> "x" in item.members && "y" in item.members)
  {
    assert forall i | 0 <= i < |items| :: (items + [item])[i] == items[i];
    assert (items + [item])[|items|] == item;
  }

  lemma {:induction false} ItemsCoordinates(id: string, source: InputSource, items: seq<Json>)
    requires ParseItems(id, source, items).Some?
    ensures AllCoordinatesPresent(ParseItems(id, source, items).value) <==> CompleteMoves(items)
  {
    if items != [] {
      var n := |items| - 1;
      var front, item, pointerType := items[..n], items[n], ValueOr(source.pointerType, Mouse);
      ItemsCoordinates(id, source, front);
      MoveComesFromMove(id, source.kind, pointerType, item);
      AcceptedIsWellFormed(id, source.kind, pointerType, item);
      CoordinatesOfOneMore(ParseItems(id, source, front).value,
        ProcessAction(id, source.kind, pointerType, item).value);
      assert items == front + [item];
      MovesOfOneMore(front, item);
    }
  }

  /** The action items of an accepted sequence. */
  function Items(v: Json): seq<Json> {
    if v.Obj? && GetArray(v.members, "actions").Some? then GetArray(v.members, "actions").value else []
  }

  lemma {:induction false} SequenceCoordinates(sources: Sources, v: Json)
    requires ParseSequence(sources, v).Some?
    ensures AllCoordinatesPresent(ParseSequence(sources, v).value) <==> CompleteMoves(Items(v))
  {
    ItemsCoordinates(Header(v).value.0, Header(v).value.1, Items(v));
  }

  lemma {:induction false} ParseAllStep(sources: Sources, sequences: seq<Json>)
    requires ParseAll(sources, sequences).Some? && sequences != []
    ensures var n := |sequences| - 1;
      var front, last := ParseAll(sources, sequences[..n]),
        ParseSequence(RegisteredAll(sources, sequences[..n]), sequences[n]);
      front.Some? && last.Some? && ParseAll(sources, sequences).value == front.value + [last.value]
  {
  }

  lemma {:induction false} ParseAllLength(sources: Sources, sequences: seq<Json>)
    requires ParseAll(sources, sequences).Some?
    ensures |ParseAll(sources, sequences).value| == |sequences|
  {
    if sequences != [] {
      ParseAllStep(sources, sequences);
      ParseAllLength(sources, sequences[..|sequences| - 1]);
    }
  }

  /** The coordinates that the session reads from every move are there exactly when the client sent both
      with every move. */
  lemma {:induction false} CoordinatesPresentIff(sources: Sources, sequences: seq<Json>, s: nat)
    requires ParseAll(sources, sequences).Some? && s < |sequences|
    ensures var parsed := ParseAll(sources, sequences).value;
      |parsed| == |sequences| && (AllCoordinatesPresent(parsed[s]) <==> CompleteMoves(Items(sequences[s])))
  {
    var n := |sequences| - 1;
    ParseAllStep(sources, sequences);
    ParseAllLength(sources, sequences[..n]);
    if s < n {
      CoordinatesPresentIff(sources, sequences[..n], s);
    } else {
      SequenceCoordinates(RegisteredAll(sources, sequences[..n]), sequences[n]);
    }
  }

  /** The session's table of input sources. */
  class InputSources {
    var activeInputSources: Sources

    constructor ()
      ensures activeInputSources == map[]
    {
      activeInputSources := map[];
    }

    method GetOrCreateInputSource(id: string, source: InputSource) returns (r: InputSource)
      modifies this
      ensures activeInputSources
           == if id in old(activeInputSources) then old(activeInputSources) else old(activeInputSources)[id := source]
      ensures id in activeInputSources && r == activeInputSources[id]
    {
      if id !in activeInputSources { activeInputSources := activeInputSources[id := source]; }
      r := activeInputSources[id];
    }

    method ProcessInputActionSequence(v: Json) returns (r: Option<seq<Action>>)
      modifies this
      ensures activeInputSources == Registered(old(activeInputSources), v)
      ensures r == ParseSequence(old(activeInputSources), v)
    {
      var h := Header(v);
      if h.None? { return None; }
      var (id, declared) := h.value;
      var source := GetOrCreateInputSource(id, declared);
      if source.kind != declared.kind { return None; }
      if source.kind.Pointer? && source.pointerType != declared.pointerType { return None; }
      var items := GetArray(v.members, "actions");
      if items.None? { return None; }
      r := ProcessItems(id, declared, items.value);
    }

    /** The loop over the action items. */
    static method ProcessItems(id: string, source: InputSource, items: seq<Json>) returns (r: Option<seq<Action>>)
      ensures r == ParseItems(id, source, items)
    {
      var actions: seq<Action> := [];
      var pointerType := ValueOr(source.pointerType, Mouse);
      var i := 0;
      while i < |items|
        invariant 0 <= i <= |items| && ParseItems(id, source, items[..i]) == Some(actions)
      {
        var a := ProcessAction(id, source.kind, pointerType, items[i]);
        assert items[..i + 1][..i] == items[..i];
        if a.None? {
          Refused(id, source, items, i + 1);
          return None;
        }
        actions := actions + [a.value];
        i := i + 1;
      }
      assert items[..i] == items;
      return Some(actions);
    }

    /** Either all sequences are accepted and regrouped, or the request is refused. A source, once
        created, stays as it is. */
    method PerformActions(sequences: seq<Json>) returns (r: Option<seq<seq<Action>>>)
      modifies this
      ensures var parsed := ParseAll(old(activeInputSources), sequences);
        r == if parsed.Some? then Some(Transpose(parsed.value)) else None
      ensures forall id | id in old(activeInputSources) ::
        id in activeInputSources && activeInputSources[id] == old(activeInputSources)[id]
      ensures r.Some? ==> activeInputSources == RegisteredAll(old(activeInputSources), sequences)
    {
      var ticks: seq<seq<Action>> := [];
      ghost var start, parsed := activeInputSources, [];
      var i := 0;
      while i < |sequences|
        invariant 0 <= i <= |sequences| && activeInputSources == RegisteredAll(start, sequences[..i])
        invariant ParseAll(start, sequences[..i]) == Some(parsed) && ticks == Transpose(parsed)
        invariant forall id | id in start :: id in activeInputSources && activeInputSources[id] == start[id]
      {
        assert sequences[..i + 1][..i] == sequences[..i];
        var actions := ProcessInputActionSequence(sequences[i]);
        if actions.None? {
          AllRefused(start, sequences, i + 1);
          return None;
        }
        ticks := AddSource(ticks, actions.value, parsed);
        parsed := parsed + [actions.value];
        i := i + 1;
      }
      assert sequences[..i] == sequences;
      return Some(ticks);
    }

    method ReleaseActions()
      modifies this
      ensures activeInputSources == map[]
    {
      activeInputSources := map[];
    }
  }

  /** A sequence was accepted for the source it declares. */
  predicate Taken(sources: Sources, v: Json, actions: seq<Action>) {
    && Header(v).Some?
    && var (id, declared) := Header(v).value;
       id in sources && Agree(sources[id], declared) && FitSource(id, sources[id], actions)
  }

  lemma {:induction false} ParsedIsTaken(sources: Sources, v: Json)
    requires ParseSequence(sources, v).Some?
    ensures Taken(Registered(sources, v), v, ParseSequence(sources, v).value)
  {
    var (id, declared) := Header(v).value;
    ParseItemsFit(id, declared, GetArray(v.members, "actions").value);
  }

  lemma {:induction false} Refused(id: string, source: InputSource, items: seq<Json>, n: nat)
    requires n <= |items| && ParseItems(id, source, items[..n]) == None
    ensures ParseItems(id, source, items) == None
    decreases |items| - n
  {
    if n < |items| {
      assert items[..n + 1][..n] == items[..n];
      Refused(id, source, items, n + 1);
    } else {
      assert items[..n] == items;
    }
  }
}
