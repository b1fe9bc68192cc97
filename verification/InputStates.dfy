/** Performing actions: what every input source holds down while the ticks are played, and the states
    that are sent to the browser for it. */
module InputStates {
  import opened Options
  import opened Json
  import opened Actions
  import SendKeys

  /** What a source holds down. */
  datatype SourceState = SourceState(button: Option<MouseButton>, charKey: Option<string>, virtualKey: Option<string>)

  const NOTHING_HELD := SourceState(None, None, None)

  type Table = map<string, SourceState>

  /** One state object of the message to the browser. */
  datatype Shown = Shown(
    sourceId: string, duration: Option<nat>, origin: Option<Origin>, location: Option<(int, int)>,
    pressedButton: Option<MouseButton>, pressedCharKey: Option<string>, pressedVirtualKey: Option<string>)

  /** Everything that is read from an action is there. */
  predicate Readable(a: Action) { WellFormed(a) && CoordinatesPresent(a) }

  predicate AllReadable(acts: seq<Action>) { forall i | 0 <= i < |acts| :: Readable(acts[i]) }

  /** The name of a key without a character, told by its first code unit. */
  function VirtualKey(key: string): Option<string>
    requires key != ""
  {
    SendKeys.VirtualKeyForKey(key[0] as int).0
  }

  function After(st: SourceState, a: Action): SourceState
    requires Readable(a)
  {
    match a.subtype
    case PointerUp => st.(button := None)
    case PointerCancel => st.(button := None)
    case PointerDown => st.(button := a.button)
    case KeyUp => if st.virtualKey.Some? then st.(virtualKey := None) else st.(charKey := None)
    case KeyDown =>
      if VirtualKey(a.key.value).Some? then st.(virtualKey := VirtualKey(a.key.value)) else st.(charKey := a.key)
    case _ => st
  }

  /** What is sent for an action that leaves its source in state `st`. */
  function Show(a: Action, st: SourceState): Shown
    requires Readable(a)
  {
    match a.kind
    case NoneType => Shown(a.id, a.duration, None, None, None, None, None)
    case Pointer =>
      var moves := a.subtype.PointerMove?;
      Shown(a.id, if moves || a.subtype.Pause? then a.duration else None, if moves then a.origin else None,
            if moves then Some((a.x.value, a.y.value)) else None, st.button, None, None)
    case Key => Shown(a.id, if a.subtype.Pause? then a.duration else None, None, None, None, st.charKey, st.virtualKey)
  }

  // ---------------------------------------------------------------- playing for all sources

  function StateOf(t: Table, id: string): SourceState { if id in t then t[id] else NOTHING_HELD }

  /** The table after some actions. */
  function Play(t: Table, acts: seq<Action>): Table
    requires AllReadable(acts)
  {
    if acts == [] then t
    else
      var before, a := Play(t, acts[..|acts| - 1]), acts[|acts| - 1];
      before[a.id := After(StateOf(before, a.id), a)]
  }

  /** What is sent for them. */
  function ShowAll(t: Table, acts: seq<Action>): (r: seq<Shown>)
    requires AllReadable(acts)
    ensures |r| == |acts| && forall i | 0 <= i < |r| :: r[i].sourceId == acts[i].id
  {
    if acts == [] then []
    else
      var a := acts[|acts| - 1];
      ShowAll(t, acts[..|acts| - 1]) + [Show(a, StateOf(Play(t, acts), a.id))]
  }

  // ---------------------------------------------------------------- playing one source alone

  function PlayAlone(st: SourceState, acts: seq<Action>): SourceState
    requires AllReadable(acts)
  {
    if acts == [] then st else After(PlayAlone(st, acts[..|acts| - 1]), acts[|acts| - 1])
  }

  function ShowAlone(st: SourceState, acts: seq<Action>): seq<Shown>
    requires AllReadable(acts)
  {
    if acts == [] then []
    else ShowAlone(st, acts[..|acts| - 1]) + [Show(acts[|acts| - 1], PlayAlone(st, acts))]
  }

  function ShownFor(shown: seq<Shown>, id: string): seq<Shown> {
    if shown == [] then []
    else ShownFor(shown[..|shown| - 1], id) + if shown[|shown| - 1].sourceId == id then [shown[|shown| - 1]] else []
  }

  lemma {:induction false} FilterIsReadable(acts: seq<Action>, id: string)
    requires AllReadable(acts)
    ensures AllReadable(Filter(acts, id))
  {
    if acts != [] { FilterIsReadable(acts[..|acts| - 1], id); }
  }

  /** Sources do not disturb each other: whatever the interleaving, each source goes through the states
      of its own actions alone, and exactly those are sent for it. */
  lemma {:induction false} SourcesAreIndependent(t: Table, acts: seq<Action>, id: string)
    requires AllReadable(acts)
    ensures AllReadable(Filter(acts, id))
    ensures StateOf(Play(t, acts), id) == PlayAlone(StateOf(t, id), Filter(acts, id))
    ensures ShownFor(ShowAll(t, acts), id) == ShowAlone(StateOf(t, id), Filter(acts, id))
  {
    FilterIsReadable(acts, id);
    if acts != [] {
      var front, a := acts[..|acts| - 1], acts[|acts| - 1];
      SourcesAreIndependent(t, front, id);
      var shown := ShowAll(t, acts);
      assert shown[..|shown| - 1] == ShowAll(t, front);
      if a.id == id {
        var mine := Filter(acts, id);
        assert mine[..|mine| - 1] == Filter(front, id);
      } else {
        assert Filter(acts, id) == Filter(front, id);
      }
    }
  }

  // ---------------------------------------------------------------- ticks

  function Flat<T>(ss: seq<seq<T>>): seq<T> {
    if ss == [] then [] else Flat(ss[..|ss| - 1]) + ss[|ss| - 1]
  }

  lemma {:induction false} FilterConcat(a: seq<Action>, b: seq<Action>, id: string)
    ensures Filter(a + b, id) == Filter(a, id) + Filter(b, id)
  {
    if b == [] {
      assert a + b == a;
    } else {
      var front := b[..|b| - 1];
      FilterConcat(a, front, id);
      assert (a + b)[..|a + b| - 1] == a + front;
    }
  }

  lemma {:induction false} FlatProjects(ticks: seq<seq<Action>>, id: string)
    ensures Filter(Flat(ticks), id) == Project(ticks, id)
  {
    if ticks != [] {
      FlatProjects(ticks[..|ticks| - 1], id);
      FilterConcat(Flat(ticks[..|ticks| - 1]), ticks[|ticks| - 1], id);
    }
  }

  lemma {:induction false} InFlat<T>(ss: seq<seq<T>>, i: nat, x: T)
    requires i < |ss| && x in ss[i]
    ensures x in Flat(ss)
  {
    if i < |ss| - 1 { InFlat(ss[..|ss| - 1], i, x); }
  }

  lemma {:induction false} FromFlat<T>(ss: seq<seq<T>>, x: T) returns (i: nat)
    requires x in Flat(ss)
    ensures i < |ss| && x in ss[i]
  {
    i := |ss| - 1;
    if x !in ss[i] { i := FromFlat(ss[..|ss| - 1], x); }
  }

  lemma {:induction false} InTick(sources: seq<seq<Action>>, s: nat, i: nat)
    requires s < |sources| && i < |sources[s]|
    ensures sources[s][i] in Tick(sources, i)
  {
    if s < |sources| - 1 { InTick(sources[..|sources| - 1], s, i); }
  }

  lemma {:induction false} FromTick(sources: seq<seq<Action>>, i: nat, a: Action) returns (s: nat)
    requires a in Tick(sources, i)
    ensures s < |sources| && i < |sources[s]| && sources[s][i] == a
  {
    s := |sources| - 1;
    if !(i < |sources[s]| && sources[s][i] == a) { s := FromTick(sources[..|sources| - 1], i, a); }
  }

  /** The ticks can be read exactly when the sources can. */
  lemma {:induction false} TicksAreReadable(sources: seq<seq<Action>>)
    ensures AllReadable(Flat(Transpose(sources))) <==> forall s | 0 <= s < |sources| :: AllReadable(sources[s])
  {
    var ticks := Transpose(sources);
    if AllReadable(Flat(ticks)) {
      forall s, i | 0 <= s < |sources| && 0 <= i < |sources[s]| ensures Readable(sources[s][i]) {
        LongestIsBound(sources, s);
        InTick(sources, s, i);
        InFlat(ticks, i, sources[s][i]);
      }
    }
    if forall s | 0 <= s < |sources| :: AllReadable(sources[s]) {
      forall k | 0 <= k < |Flat(ticks)| ensures Readable(Flat(ticks)[k]) {
        var i := FromFlat(ticks, Flat(ticks)[k]);
        var s := FromTick(sources, i, Flat(ticks)[k]);
        assert AllReadable(sources[s]);
      }
    }
  }

  /** A request played by ticks is, for every source, its own sequence played alone. */
  lemma {:induction false} TicksPlayEachSource(t: Table, sources: seq<seq<Action>>, ids: seq<string>, s: nat)
    requires Owned(sources, ids) && Distinct(ids) && s < |ids| && AllReadable(Flat(Transpose(sources)))
    ensures AllReadable(sources[s])
    ensures StateOf(Play(t, Flat(Transpose(sources))), ids[s]) == PlayAlone(StateOf(t, ids[s]), sources[s])
    ensures ShownFor(ShowAll(t, Flat(Transpose(sources))), ids[s]) == ShowAlone(StateOf(t, ids[s]), sources[s])
  {
    TicksAreReadable(sources);
    FlatProjects(Transpose(sources), ids[s]);
    ProjectionReturnsTheSource(sources, ids, s);
    SourcesAreIndependent(t, Flat(Transpose(sources)), ids[s]);
  }

  /** The ids that the sequences of a request are for. */
  function Ids(sequences: seq<Json>): (ids: seq<string>)
    requires forall s | 0 <= s < |sequences| :: Header(sequences[s]).Some?
    ensures |ids| == |sequences| && forall s | 0 <= s < |ids| :: ids[s] == Header(sequences[s]).value.0
  {
    seq(|sequences|, s requires 0 <= s < |sequences| => Header(sequences[s]).value.0)
  }

  /** An accepted request can be played exactly when all its moves have both coordinates; everything else
      that is read is there. */
  lemma {:induction false} AcceptedIsReadableIff(active: Sources, sequences: seq<Json>)
    requires ParseAll(active, sequences).Some?
    ensures var parsed := ParseAll(active, sequences).value;
      && (forall s | 0 <= s < |sequences| :: Header(sequences[s]).Some?) && Owned(parsed, Ids(sequences))
      && (AllReadable(Flat(Transpose(parsed))) <==>
          forall s | 0 <= s < |sequences| :: CompleteMoves(Items(sequences[s])))
  {
    var parsed := ParseAll(active, sequences).value;
    AcceptedFitTheTable(active, sequences);
    TicksAreReadable(parsed);
    forall s | 0 <= s < |sequences| ensures AllReadable(parsed[s]) <==> CompleteMoves(Items(sequences[s])) {
      assert Taken(RegisteredAll(active, sequences), sequences[s], parsed[s]);
      CoordinatesPresentIff(active, sequences, s);
      assert AllReadable(parsed[s]) <==> AllCoordinatesPresent(parsed[s]);
    }
    forall s | 0 <= s < |sequences| ensures Header(sequences[s]).Some? {
      assert Taken(RegisteredAll(active, sequences), sequences[s], parsed[s]);
    }
    forall s, i | 0 <= s < |parsed| && 0 <= i < |parsed[s]| ensures parsed[s][i].id == Ids(sequences)[s] {
      assert Taken(RegisteredAll(active, sequences), sequences[s], parsed[s]);
    }
  }

  // ---------------------------------------------------------------- keys

  /** A key of a keyboard: one without a character, by its name, or one that types a text. */
  datatype KeyCap = Named(name: string) | Typing(text: string)

  function CapOf(key: string): KeyCap
    requires key != ""
  {
    if VirtualKey(key).Some? then Named(VirtualKey(key).value) else Typing(key)
  }

  /** The keys that a pair of held keys stands for. */
  function Caps(charKey: Option<string>, virtualKey: Option<string>): set<KeyCap> {
    (if charKey.Some? then {Typing(charKey.value)} else {})
      + (if virtualKey.Some? then {Named(virtualKey.value)} else {})
  }

  function Held(st: SourceState): set<KeyCap> { Caps(st.charKey, st.virtualKey) }

  /** A real keyboard: what is down after an action. */
  function Press(down: set<KeyCap>, a: Action): set<KeyCap>
    requires Readable(a)
  {
    match a.subtype
    case KeyDown => down + {CapOf(a.key.value)}
    case KeyUp => down - {CapOf(a.key.value)}
    case _ => down
  }

  function PressAll(down: set<KeyCap>, acts: seq<Action>): set<KeyCap>
    requires AllReadable(acts)
  {
    if acts == [] then down else Press(PressAll(down, acts[..|acts| - 1]), acts[|acts| - 1])
  }

  /** The keys a source can follow: at most one of each sort goes down, and one that goes up is down and
      is not a character under a key without one, unless nothing is down at all. */
  predicate Follows(down: set<KeyCap>, a: Action)
    requires Readable(a)
  {
    match a.subtype
    case KeyDown => forall cap | cap in down && cap.Named? == CapOf(a.key.value).Named? :: cap == CapOf(a.key.value)
    case KeyUp =>
      || down == {}
      || (CapOf(a.key.value) in down && (CapOf(a.key.value).Typing? ==> forall cap | cap in down :: cap.Typing?))
    case _ => true
  }

  lemma {:induction false} DownRepresentsIff(st: SourceState, a: Action)
    requires Readable(a) && a.subtype.KeyDown?
    ensures Held(After(st, a)) == Press(Held(st), a) <==> Follows(Held(st), a)
  {
    var cap := CapOf(a.key.value);
    if st.virtualKey.Some? { assert Named(st.virtualKey.value) in Held(st); }
    if st.charKey.Some? { assert Typing(st.charKey.value) in Held(st); }
    assert cap in Held(After(st, a));
  }

  lemma {:induction false} UpRepresentsIff(st: SourceState, a: Action)
    requires Readable(a) && a.subtype.KeyUp?
    ensures Held(After(st, a)) == Press(Held(st), a) <==> Follows(Held(st), a)
  {
    if st.virtualKey.Some? {
      assert Named(st.virtualKey.value) in Held(st) && Named(st.virtualKey.value) !in Held(After(st, a));
    } else if st.charKey.Some? {
      assert Typing(st.charKey.value) in Held(st) && Typing(st.charKey.value) !in Held(After(st, a));
    }
  }

  /** One action: the source holds what the keyboard does exactly when it can follow. */
  lemma {:induction false} StepRepresentsIff(st: SourceState, a: Action)
    requires Readable(a)
    ensures Held(After(st, a)) == Press(Held(st), a) <==> Follows(Held(st), a)
  {
    if a.subtype.KeyDown? { DownRepresentsIff(st, a); } else if a.subtype.KeyUp? { UpRepresentsIff(st, a); }
  }

  /** After the first `n` actions, the source holds what a keyboard does. */
  predicate RepresentsAt(st: SourceState, acts: seq<Action>, n: nat)
    requires AllReadable(acts) && n <= |acts|
  {
    Held(PlayAlone(st, acts[..n])) == PressAll(Held(st), acts[..n])
  }

  ghost predicate Represents(st: SourceState, acts: seq<Action>)
    requires AllReadable(acts)
  {
    forall n | 0 <= n <= |acts| :: RepresentsAt(st, acts, n)
  }

  /** Every action is one the source can follow, told by the keyboard alone. */
  ghost predicate FollowsAll(down: set<KeyCap>, acts: seq<Action>)
    requires AllReadable(acts)
  {
    forall i | 0 <= i < |acts| :: Follows(PressAll(down, acts[..i]), acts[i])
  }

  lemma {:induction false} RepresentsOneMore(st: SourceState, acts: seq<Action>)
    requires AllReadable(acts) && acts != []
    ensures Represents(st, acts) <==> Represents(st, acts[..|acts| - 1]) && RepresentsAt(st, acts, |acts|)
  {
    var front := acts[..|acts| - 1];
    forall n | 0 <= n < |acts|
      ensures RepresentsAt(st, front, n) <==> RepresentsAt(st, acts, n)
    {
      assert front[..n] == acts[..n];
    }
  }

  lemma {:induction false} FollowsOneMore(down: set<KeyCap>, acts: seq<Action>)
    requires AllReadable(acts) && acts != []
    ensures var n := |acts| - 1;
      FollowsAll(down, acts) <==> FollowsAll(down, acts[..n]) && Follows(PressAll(down, acts[..n]), acts[n])
  {
    assert forall i | 0 <= i < |acts| :: acts[..|acts| - 1][..i] == acts[..i];
  }

  /** A source represents a keyboard, after every action, exactly when it can follow every action. */
  lemma {:induction false} RepresentsIff(st: SourceState, acts: seq<Action>)
    requires AllReadable(acts)
    ensures Represents(st, acts) <==> FollowsAll(Held(st), acts)
  {
    if acts == [] {
      assert acts[..0] == [];
    } else {
      var front, a := acts[..|acts| - 1], acts[|acts| - 1];
      RepresentsIff(st, front);
      RepresentsOneMore(st, acts);
      FollowsOneMore(Held(st), acts);
      assert front[..|front|] == front && acts[..|acts|] == acts;
      if Represents(st, front) { assert RepresentsAt(st, front, |front|); }
      StepRepresentsIff(PlayAlone(st, front), a);
    }
  }

  /** The keys that are sent as pressed. */
  function SentCaps(shown: Shown): set<KeyCap> { Caps(shown.pressedCharKey, shown.pressedVirtualKey) }

  predicate AllKeys(acts: seq<Action>) { forall i | 0 <= i < |acts| :: acts[i].kind.Key? }

  lemma {:induction false} SentIsHeld(st: SourceState, acts: seq<Action>, i: nat)
    requires AllReadable(acts) && AllKeys(acts) && i < |acts|
    ensures |ShowAlone(st, acts)| == |acts| && SentCaps(ShowAlone(st, acts)[i]) == Held(PlayAlone(st, acts[..i + 1]))
  {
    var front := acts[..|acts| - 1];
    if i < |front| {
      SentIsHeld(st, front, i);
      assert front[..i + 1] == acts[..i + 1];
    } else {
      if front != [] { SentIsHeld(st, front, 0); }
      assert acts[..i + 1] == acts;
    }
  }

  /** What is sent for action `i` shows the keys that are down on a keyboard then. */
  predicate SentAt(sent: seq<Shown>, down: set<KeyCap>, acts: seq<Action>, i: nat)
    requires AllReadable(acts) && i < |acts|
  {
    i < |sent| && SentCaps(sent[i]) == PressAll(down, acts[..i + 1])
  }

  ghost predicate AllSent(sent: seq<Shown>, down: set<KeyCap>, acts: seq<Action>)
    requires AllReadable(acts)
  {
    forall i | 0 <= i < |acts| :: SentAt(sent, down, acts, i)
  }

  lemma {:induction false} AllSentIff(sent: seq<Shown>, st: SourceState, acts: seq<Action>)
    requires AllReadable(acts) && |sent| == |acts|
    requires forall i | 0 <= i < |acts| :: SentCaps(sent[i]) == Held(PlayAlone(st, acts[..i + 1]))
    ensures AllSent(sent, Held(st), acts) <==> Represents(st, acts)
  {
    forall i | 0 <= i < |acts| ensures SentAt(sent, Held(st), acts, i) <==> RepresentsAt(st, acts, i + 1) {}
    if AllSent(sent, Held(st), acts) {
      forall n | 0 <= n <= |acts| ensures RepresentsAt(st, acts, n) {
        if n == 0 { assert acts[..0] == []; } else { assert SentAt(sent, Held(st), acts, n - 1); }
      }
    }
    if Represents(st, acts) {
      forall i | 0 <= i < |acts| ensures SentAt(sent, Held(st), acts, i) { assert RepresentsAt(st, acts, i + 1); }
    }
  }

  /** What is sent for a key source shows a keyboard's keys after every one of its actions exactly when the
      source can follow them all. */
  lemma {:induction false} SentKeysAreAKeyboardIff(st: SourceState, acts: seq<Action>)
    requires AllReadable(acts) && AllKeys(acts)
    ensures AllSent(ShowAlone(st, acts), Held(st), acts) <==> FollowsAll(Held(st), acts)
  {
    forall i | 0 <= i < |acts|
      ensures |ShowAlone(st, acts)| == |acts| && SentCaps(ShowAlone(st, acts)[i]) == Held(PlayAlone(st, acts[..i + 1]))
    {
      SentIsHeld(st, acts, i);
    }
    assert acts != [] ==> |ShowAlone(st, acts)| == |acts| by { if acts != [] { SentIsHeld(st, acts, 0); } }
    AllSentIff(ShowAlone(st, acts), st, acts);
    RepresentsIff(st, acts);
  }

  /** And so for every key source of a whole request, played tick by tick from any table. */
  lemma {:induction false} RequestKeysAreAKeyboardIff(t: Table, sources: seq<seq<Action>>, ids: seq<string>, s: nat)
    requires Owned(sources, ids) && Distinct(ids) && s < |ids| && AllReadable(Flat(Transpose(sources)))
    ensures AllReadable(sources[s])
    ensures AllKeys(sources[s]) ==>
      var sent, down := ShownFor(ShowAll(t, Flat(Transpose(sources))), ids[s]), Held(StateOf(t, ids[s]));
      AllSent(sent, down, sources[s]) <==> FollowsAll(down, sources[s])
  {
    TicksPlayEachSource(t, sources, ids, s);
    if AllKeys(sources[s]) { SentKeysAreAKeyboardIff(StateOf(t, ids[s]), sources[s]); }
  }

  /** The state without a key, which is let go only if it is held. */
  function WithoutKey(st: SourceState, key: string): SourceState
    requires key != ""
  {
    if VirtualKey(key).Some? then (if st.virtualKey == VirtualKey(key) then st.(virtualKey := None) else st)
    else if st.charKey == Some(key) then st.(charKey := None)
    else st
  }

  /** A key-up lets its own key go, and no other, exactly when its key is the one that is let go first, or
      nothing is held. */
  lemma {:induction false} KeyUpReleasesIff(st: SourceState, up: Action)
    requires Readable(up) && up.subtype.KeyUp?
    ensures After(st, up) == WithoutKey(st, up.key.value) <==>
      if st.virtualKey.Some? then st.virtualKey == VirtualKey(up.key.value)
      else st.charKey.None? || (VirtualKey(up.key.value).None? && st.charKey == up.key)
  {
  }

  function KeyAction(subtype: Subtype, key: string): Action { NewAction("keyboard", Key, subtype).(key := Some(key)) }

  /** Two runs from nothing: after Shift down, Control down, Shift up the source holds nothing while Control
      is down; and a key-up of "b" lets "a" go. */
  lemma {:induction false} KeyUpCanDropAnotherKey()
    ensures var acts := [KeyAction(KeyDown, "\U{E008}"), KeyAction(KeyDown, "\U{E009}"), KeyAction(KeyUp, "\U{E008}")];
      AllReadable(acts) && PlayAlone(NOTHING_HELD, acts) == NOTHING_HELD && PressAll({}, acts) == {Named("Control")}
    ensures var acts := [KeyAction(KeyDown, "a"), KeyAction(KeyUp, "b")];
      AllReadable(acts) && PlayAlone(NOTHING_HELD, acts) == NOTHING_HELD && PressAll({}, acts) == {Typing("a")}
  {
    ShiftControlShift();
    UpOfAnother();
  }

  lemma {:induction false} ShiftControlShift()
    ensures var acts := [KeyAction(KeyDown, "\U{E008}"), KeyAction(KeyDown, "\U{E009}"), KeyAction(KeyUp, "\U{E008}")];
      AllReadable(acts) && PlayAlone(NOTHING_HELD, acts) == NOTHING_HELD && PressAll({}, acts) == {Named("Control")}
  {
    var shift, control := "\U{E008}", "\U{E009}";
    var acts := [KeyAction(KeyDown, shift), KeyAction(KeyDown, control), KeyAction(KeyUp, shift)];
    assert shift[0] as int == 0xE008 && control[0] as int == 0xE009;
    assert VirtualKey(shift) == Some("Shift") && VirtualKey(control) == Some("Control");
    assert |"Shift"| == 5 && |"Control"| == 7;
    assert acts[..2] == [acts[0], acts[1]] && acts[..2][..1] == [acts[0]] && acts[..2][..1][..0] == [];
    assert PlayAlone(NOTHING_HELD, acts[..2][..1]) == NOTHING_HELD.(virtualKey := Some("Shift"));
    assert PlayAlone(NOTHING_HELD, acts[..2]) == NOTHING_HELD.(virtualKey := Some("Control"));
    assert PressAll({}, acts[..2][..1]) == {Named("Shift")};
    assert PressAll({}, acts[..2]) == {Named("Shift"), Named("Control")};
  }

  lemma {:induction false} UpOfAnother()
    ensures var acts := [KeyAction(KeyDown, "a"), KeyAction(KeyUp, "b")];
      AllReadable(acts) && PlayAlone(NOTHING_HELD, acts) == NOTHING_HELD && PressAll({}, acts) == {Typing("a")}
  {
    var acts := [KeyAction(KeyDown, "a"), KeyAction(KeyUp, "b")];
    assert "a"[0] as int == 0x61 && "b"[0] as int == 0x62 && "a" != "b";
    assert VirtualKey("a") == None && VirtualKey("b") == None;
    assert acts[..1] == [acts[0]] && acts[..1][..0] == [];
    assert PlayAlone(NOTHING_HELD, acts[..1]) == NOTHING_HELD.(charKey := Some("a"));
    assert PressAll({}, acts[..1]) == {Typing("a")};
  }

  // ---------------------------------------------------------------- the session

  /** The session's table of input states. */
  class InputStateTable {
    var states: Table

    constructor ()
      ensures states == map[]
    {
      states := map[];
    }

    /** The state of a source, made on first use. */
    method InputSourceState(id: string) returns (st: SourceState)
      modifies this
      ensures st == StateOf(old(states), id) && states == old(states)[id := st]
    {
      if id !in states { states := states[id := NOTHING_HELD]; }
      st := states[id];
    }

    method PerformAction(a: Action) returns (shown: Shown)
      requires Readable(a)
      modifies this
      ensures states == old(states)[a.id := After(StateOf(old(states), a.id), a)]
      ensures shown == Show(a, StateOf(states, a.id))
    {
      var st := InputSourceState(a.id);
      shown := Shown(a.id, None, None, None, None, None, None);
      match a.kind
      case NoneType =>
        shown := shown.(duration := Some(a.duration.value));
      case Pointer =>
        match a.subtype {
          case PointerUp => st := st.(button := None);
          case PointerDown => st := st.(button := Some(a.button.value));
          case PointerMove =>
            shown := shown.(
              origin := Some(a.origin.value), location := Some((a.x.value, a.y.value)), duration := a.duration);
          case Pause => shown := shown.(duration := a.duration);
          case PointerCancel => st := st.(button := None);
        }
        states := states[a.id := st];
        shown := shown.(pressedButton := st.button);
      case Key =>
        match a.subtype {
          case KeyUp => if st.virtualKey.Some? { st := st.(virtualKey := None); } else { st := st.(charKey := None); }
          case KeyDown =>
            var virtualKey := VirtualKey(a.key.value);
            if virtualKey.Some? {
              st := st.(virtualKey := virtualKey);
            } else {
              st := st.(charKey := Some(a.key.value));
            }
          case Pause => shown := shown.(duration := a.duration);
        }
        states := states[a.id := st];
        shown := shown.(pressedCharKey := st.charKey, pressedVirtualKey := st.virtualKey);
    }

    method PerformTick(tick: seq<Action>) returns (step: seq<Shown>)
      requires AllReadable(tick)
      modifies this
      ensures states == Play(old(states), tick) && step == ShowAll(old(states), tick)
    {
      step := [];
      var i := 0;
      while i < |tick|
        invariant 0 <= i <= |tick| && states == Play(old(states), tick[..i]) && step == ShowAll(old(states), tick[..i])
      {
        var shown := PerformAction(tick[i]);
        assert tick[..i + 1][..i] == tick[..i];
        step := step + [shown];
        i := i + 1;
      }
      assert tick[..i] == tick;
    }

    /** Nothing is sent for a request without actions; the count is kept in 32 bits. */
    method PerformActions(ticks: seq<seq<Action>>) returns (steps: Option<seq<seq<Shown>>>)
      requires AllReadable(Flat(ticks))
      modifies this
      ensures steps.Some? <==> Total(ticks) % UNSIGNED != 0
      ensures states == if steps.Some? then Play(old(states), Flat(ticks)) else old(states)
      ensures steps.Some? ==>
        && SameShape(steps.value, ticks)
        && Flat(steps.value) == ShowAll(old(states), Flat(ticks))
    {
      var actionsCount := CountActions(ticks);
      if actionsCount == 0 { return None; }
      var done := PerformTicks(ticks);
      return Some(done);
    }

    method PerformTicks(ticks: seq<seq<Action>>) returns (steps: seq<seq<Shown>>)
      requires AllReadable(Flat(ticks))
      modifies this
      ensures states == Play(old(states), Flat(ticks)) && Flat(steps) == ShowAll(old(states), Flat(ticks))
      ensures SameShape(steps, ticks)
    {
      steps := [];
      ghost var start, played: seq<Action> := states, [];
      var i := 0;
      while i < |ticks|
        invariant 0 <= i <= |ticks| && SameShape(steps, ticks[..i])
        invariant played == Flat(ticks[..i]) && Played(start, played, states, steps)
      {
        FlatStep(ticks, i);
        ghost var before := states;
        var step := PerformTick(ticks[i]);
        PlayedOneMore(start, played, before, steps, ticks[i], step);
        assert ticks[..i + 1] == ticks[..i] + [ticks[i]];
        played := played + ticks[i];
        steps := steps + [step];
        i := i + 1;
      }
      assert ticks[..i] == ticks;
    }

    method ReleaseActions()
      modifies this
      ensures states == map[]
    {
      states := map[];
    }
  }

  method CountActions(ticks: seq<seq<Action>>) returns (actionsCount: nat)
    ensures actionsCount == Total(ticks) % UNSIGNED
  {
    actionsCount := 0;
    var i := 0;
    while i < |ticks|
      invariant 0 <= i <= |ticks| && actionsCount == Total(ticks[..i]) % UNSIGNED
    {
      assert ticks[..i + 1][..i] == ticks[..i];
      actionsCount := (actionsCount + |ticks[i]|) % UNSIGNED;
      i := i + 1;
    }
    assert ticks[..i] == ticks;
  }

  lemma {:induction false} FlatStep(ticks: seq<seq<Action>>, i: nat)
    requires i < |ticks| && AllReadable(Flat(ticks))
    ensures Flat(ticks[..i + 1]) == Flat(ticks[..i]) + ticks[i]
    ensures AllReadable(ticks[i]) && AllReadable(Flat(ticks[..i + 1]))
  {
    assert ticks[..i + 1][..i] == ticks[..i];
    FlatPrefix(ticks, i + 1);
    var f, n := Flat(ticks[..i + 1]), |Flat(ticks[..i])|;
    forall k | 0 <= k < |f| ensures Readable(f[k]) { assert f[k] == Flat(ticks)[k]; }
    forall k | 0 <= k < |ticks[i]| ensures Readable(ticks[i][k]) { assert ticks[i][k] == f[n + k]; }
  }

  lemma {:induction false} FlatOneMore<T>(ss: seq<seq<T>>, s: seq<T>)
    ensures Flat(ss + [s]) == Flat(ss) + s
  {
    assert (ss + [s])[..|ss|] == ss;
  }

  /** One state for every action, tick by tick. */
  predicate SameShape(steps: seq<seq<Shown>>, ticks: seq<seq<Action>>) {
    |steps| == |ticks| && forall i | 0 <= i < |ticks| :: |steps[i]| == |ticks[i]|
  }

  /** The table and the steps after some actions. */
  ghost predicate Played(start: Table, played: seq<Action>, states: Table, steps: seq<seq<Shown>>) {
    AllReadable(played) && states == Play(start, played) && Flat(steps) == ShowAll(start, played)
  }

  lemma {:induction false} PlayedOneMore(start: Table, played: seq<Action>, states: Table, steps: seq<seq<Shown>>,
      tick: seq<Action>, step: seq<Shown>)
    requires Played(start, played, states, steps) && AllReadable(tick) && AllReadable(played + tick)
      && step == ShowAll(states, tick)
    ensures Played(start, played + tick, Play(states, tick), steps + [step])
  {
    PlayConcat(start, played, tick);
    ShowConcat(start, played, tick);
    FlatOneMore(steps, step);
  }

  lemma {:induction false} FlatPrefix<T>(ss: seq<seq<T>>, n: nat)
    requires n <= |ss|
    ensures Flat(ss[..n]) <= Flat(ss)
  {
    if n == |ss| {
      assert ss[..n] == ss;
    } else {
      FlatPrefix(ss[..|ss| - 1], n);
      assert ss[..|ss| - 1][..n] == ss[..n];
    }
  }

  lemma {:induction false} PlayConcat(t: Table, a: seq<Action>, b: seq<Action>)
    requires AllReadable(a + b) && AllReadable(a) && AllReadable(b)
    ensures Play(t, a + b) == Play(Play(t, a), b)
  {
    if b == [] {
      assert a + b == a;
    } else {
      assert (a + b)[..|a + b| - 1] == a + b[..|b| - 1];
      PlayConcat(t, a, b[..|b| - 1]);
    }
  }

  lemma {:induction false} ShowConcat(t: Table, a: seq<Action>, b: seq<Action>)
    requires AllReadable(a + b) && AllReadable(a) && AllReadable(b)
    ensures ShowAll(t, a + b) == ShowAll(t, a) + ShowAll(Play(t, a), b)
  {
    if b == [] {
      assert a + b == a;
    } else {
      var front, last := b[..|b| - 1], b[|b| - 1];
      assert (a + b)[..|a + b| - 1] == a + front;
      ShowConcat(t, a, front);
      PlayConcat(t, a, b);
      var shown := [Show(last, StateOf(Play(t, a + b), last.id))];
      assert ShowAll(t, a) + ShowAll(Play(t, a), front) + shown == ShowAll(t, a) + (ShowAll(Play(t, a), front) + shown);
    }
  }
}
