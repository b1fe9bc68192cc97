/** What a Perform Actions request means, told from its JSON alone: which requests are accepted, and what is
    sent to the browser for every item. */
module ActionRequests {
  import opened Options
  import opened Json
  import opened WebDriverTypes
  import opened Actions
  import opened InputStates

  // ---------------------------------------------------------------- items

  predicate IsUnsigned(v: Json) { v.Integer? && 0 <= v.n <= MAX_SAFE_INTEGER }

  predicate Has(item: Members, key: string, text: string) { key in item && item[key] == Str(text) }

  /** A whole number, or the whole part of one with a fraction. */
  predicate IsWhole(v: Json, n: int) { v == Integer(n) || v == Fraction(n) }

  predicate IsCoordinate(v: Json) {
    || (v.Integer? && -0x8000_0000 <= v.n < 0x8000_0000)
    || (v.Fraction? && -0x8000_0000 <= v.whole < 0x8000_0000)
  }

  predicate IsOrigin(v: Json, o: Origin) {
    match o
    case Viewport => v == Str("viewport")
    case FromPointer => v == Str("pointer")
    case Element(id) => v.Obj? && Has(v.members, WEB_ELEMENT_IDENTIFIER, id)
  }

  ghost predicate OriginOk(v: Json) { exists o :: IsOrigin(v, o) }

  predicate PauseOk(item: Members) { "duration" in item && IsUnsigned(item["duration"]) }

  predicate ButtonOk(item: Members) { "button" in item && IsUnsigned(item["button"]) }

  predicate KeyOk(item: Members) { "value" in item && item["value"].Str? && item["value"].s != "" }

  ghost predicate MoveOk(item: Members) {
    && ("duration" in item ==> IsUnsigned(item["duration"])) && ("origin" in item ==> OriginOk(item["origin"]))
    && ("x" in item ==> IsCoordinate(item["x"])) && ("y" in item ==> IsCoordinate(item["y"]))
  }

  /** An item that a source of this kind accepts. */
  ghost predicate ItemOk(kind: SourceType, v: Json) {
    v.Obj? &&
    var item := v.members;
    || (Has(item, "type", "pause") && PauseOk(item))
    || (kind.Key? && (Has(item, "type", "keyUp") || Has(item, "type", "keyDown")) && KeyOk(item))
    || (kind.Pointer? && (Has(item, "type", "pointerUp") || Has(item, "type", "pointerDown")) && ButtonOk(item))
    || (kind.Pointer? && Has(item, "type", "pointerMove") && MoveOk(item))
    || (kind.Pointer? && Has(item, "type", "pointerCancel"))
  }

  lemma {:induction false} TypesDiffer()
    ensures |"pause"| == 5 && |"keyUp"| == 5 && |"keyDown"| == 7 && |"pointerUp"| == 9 && |"pointerDown"| == 11
    ensures |"pointerMove"| == 11 && |"pointerCancel"| == 13 && "pause"[0] == 'p' && "keyUp"[0] == 'k'
    ensures "pointerDown"[7] == 'D' && "pointerMove"[7] == 'M'
  {
  }

  lemma {:induction false} OriginIff(v: Json, o: Origin)
    ensures ProcessOrigin(v) == Some(o) <==> IsOrigin(v, o)
    ensures ProcessOrigin(v).Some? <==> OriginOk(v)
  {
    assert |"viewport"| == 8 && |"pointer"| == 7;
    if ProcessOrigin(v).Some? { assert IsOrigin(v, ProcessOrigin(v).value); }
    if OriginOk(v) {
      var other :| IsOrigin(v, other);
      assert ProcessOrigin(v) == Some(other);
    }
  }

  lemma {:induction false} MoveIff(item: Members, a: Action)
    ensures ProcessMove(item, a).Some? <==> MoveOk(item)
  {
    if "origin" in item { OriginIff(item["origin"], Viewport); }
  }

  /** Which items are accepted. */
  lemma {:induction false} ItemIff(id: string, kind: SourceType, pointerType: PointerType, v: Json)
    ensures ProcessAction(id, kind, pointerType, v).Some? <==> ItemOk(kind, v)
  {
    if v.Obj? {
      TypesDiffer();
      MoveIff(v.members, NewAction(id, Pointer, PointerMove).(pointerType := Some(pointerType)));
    }
  }

  // ---------------------------------------------------------------- sequences

  predicate IsPointerType(v: Json, p: PointerType) {
    match p
    case Mouse => v == Str("mouse")
    case Pen => v == Str("pen")
    case Touch => v == Str("touch")
  }

  /** The pointer type that a sequence declares; without a name of one it is the mouse. */
  predicate DeclaresPointer(sequence: Members, p: PointerType) {
    if "parameters" !in sequence then p == Mouse
    else
      var parameters := sequence["parameters"];
      && parameters.Obj?
      && if "pointerType" in parameters.members && parameters.members["pointerType"].Str?
         then IsPointerType(parameters.members["pointerType"], p)
         else p == Mouse
  }

  /** The source that a sequence declares. */
  predicate Declares(v: Json, id: string, source: InputSource) {
    && v.Obj? && Has(v.members, "id", id)
    && match source.kind
       case Key => Has(v.members, "type", "key") && source.pointerType == None
       case NoneType => Has(v.members, "type", "none") && source.pointerType == None
       case Pointer =>
         && Has(v.members, "type", "pointer") && source.pointerType.Some?
         && DeclaresPointer(v.members, source.pointerType.value)
  }

  lemma {:induction false} PointerIff(sequence: Members, p: PointerType)
    ensures ProcessPointerParameters(sequence) == Some(p) <==> DeclaresPointer(sequence, p)
  {
    assert |"mouse"| == 5 && |"pen"| == 3 && |"touch"| == 5 && "mouse"[0] == 'm' && "touch"[0] == 't';
  }

  lemma {:induction false} HeaderIff(v: Json, id: string, source: InputSource)
    ensures Header(v) == Some((id, source)) <==> Declares(v, id, source)
  {
    assert |"key"| == 3 && |"pointer"| == 7 && |"none"| == 4;
    if v.Obj? && source.pointerType.Some? { PointerIff(v.members, source.pointerType.value); }
  }

  lemma {:induction false} ItemsIff(id: string, source: InputSource, items: seq<Json>)
    ensures ParseItems(id, source, items).Some? <==> forall i | 0 <= i < |items| :: ItemOk(source.kind, items[i])
  {
    if items != [] {
      var n := |items| - 1;
      ItemsIff(id, source, items[..n]);
      ItemIff(id, source.kind, ValueOr(source.pointerType, Mouse), items[n]);
      assert forall i | 0 <= i < n :: items[..n][i] == items[i];
    }
  }

  /** A sequence that is accepted when its id belongs to the source that the table has. */
  ghost predicate SequenceOk(table: Sources, v: Json) {
    && Header(v).Some? && Header(v).value.0 in table
    && Agree(table[Header(v).value.0], Header(v).value.1)
    && "actions" in v.members && v.members["actions"].Arr?
    && forall i | 0 <= i < |v.members["actions"].items| ::
         ItemOk(Header(v).value.1.kind, v.members["actions"].items[i])
  }

  lemma {:induction false} SequenceIff(table: Sources, v: Json)
    ensures ParseSequence(table, v).Some? <==> SequenceOk(Registered(table, v), v)
  {
    if Header(v).Some? && GetArray(v.members, "actions").Some? {
      ItemsIff(Header(v).value.0, Header(v).value.1, GetArray(v.members, "actions").value);
    }
  }

  lemma {:induction false} TableGrows(table: Sources, sequences: seq<Json>, id: string)
    ensures id in table ==> id in RegisteredAll(table, sequences) && RegisteredAll(table, sequences)[id] == table[id]
  {
    if sequences != [] { TableGrows(table, sequences[..|sequences| - 1], id); }
  }

  lemma {:induction false} TableConcat(table: Sources, a: seq<Json>, b: seq<Json>)
    ensures RegisteredAll(table, a + b) == RegisteredAll(RegisteredAll(table, a), b)
  {
    if b == [] {
      assert a + b == a;
    } else {
      assert (a + b)[..|a + b| - 1] == a + b[..|b| - 1];
      TableConcat(table, a, b[..|b| - 1]);
    }
  }

  /** A request is accepted exactly when each of its sequences is, in the table after all of them. */
  lemma {:induction false} RequestIff(table: Sources, sequences: seq<Json>)
    ensures ParseAll(table, sequences).Some? <==>
      forall s | 0 <= s < |sequences| :: SequenceOk(RegisteredAll(table, sequences), sequences[s])
  {
    if sequences != [] {
      var n := |sequences| - 1;
      var front := sequences[..n];
      RequestIff(table, front);
      var before, after := RegisteredAll(table, front), RegisteredAll(table, sequences);
      SequenceIff(before, sequences[n]);
      forall s | 0 <= s < n ensures SequenceOk(before, front[s]) <==> SequenceOk(after, sequences[s]) {
        KnownBefore(table, front, s);
      }
    }
  }

  lemma {:induction false} KnownBefore(table: Sources, sequences: seq<Json>, s: nat)
    requires s < |sequences|
    ensures Header(sequences[s]).Some? ==> Header(sequences[s]).value.0 in RegisteredAll(table, sequences)
  {
    var n := |sequences| - 1;
    if s < n {
      assert sequences[..n][s] == sequences[s];
      KnownBefore(table, sequences[..n], s);
    }
  }

  /** A source is what the table had, or what the first sequence with its id declares. */
  lemma {:induction false} FirstDeclares(table: Sources, sequences: seq<Json>, s: nat)
    requires s < |sequences| && Header(sequences[s]).Some?
    requires forall r | 0 <= r < s && Header(sequences[r]).Some? ::
      Header(sequences[r]).value.0 != Header(sequences[s]).value.0
    ensures var (id, declared) := Header(sequences[s]).value;
      && id in RegisteredAll(table, sequences)
      && RegisteredAll(table, sequences)[id] == if id in table then table[id] else declared
  {
    var (id, declared) := Header(sequences[s]).value;
    var a, b := sequences[..s + 1], sequences[s + 1..];
    assert a[..s] == sequences[..s];
    NotDeclared(table, sequences[..s], id);
    TableGrows(table, sequences[..s], id);
    assert id in RegisteredAll(table, a);
    TableConcat(table, a, b);
    assert a + b == sequences;
    TableGrows(RegisteredAll(table, a), b, id);
  }

  lemma {:induction false} NotDeclared(table: Sources, sequences: seq<Json>, id: string)
    requires forall r | 0 <= r < |sequences| && Header(sequences[r]).Some? :: Header(sequences[r]).value.0 != id
    ensures id in RegisteredAll(table, sequences) <==> id in table
  {
    if sequences != [] { NotDeclared(table, sequences[..|sequences| - 1], id); }
  }

  // ---------------------------------------------------------------- what is sent

  const UINT_RANGE: nat := 0x1_0000_0000

  /** What is sent for an item apart from what is held down: the duration of a pause or a move, cut to 32
      bits, and the origin and the place of a move. */
  ghost predicate ShownAs(id: string, kind: SourceType, item: Members, shown: Shown) {
    && shown.sourceId == id
    && (if "duration" in item && item["duration"].Integer?
           && (Has(item, "type", "pause") || Has(item, "type", "pointerMove"))
        then item["duration"].n >= 0 && shown.duration == Some(item["duration"].n % UINT_RANGE)
        else shown.duration == None)
    && (if Has(item, "type", "pointerMove") then
          && shown.origin.Some? && shown.location.Some?
          && (if "origin" in item then IsOrigin(item["origin"], shown.origin.value) else shown.origin == Some(Viewport))
          && "x" in item && IsWhole(item["x"], shown.location.value.0)
          && "y" in item && IsWhole(item["y"], shown.location.value.1)
        else shown.origin == None && shown.location == None)
    && (!kind.Pointer? ==> shown.pressedButton == None)
    && (!kind.Key? ==> shown.pressedCharKey == None && shown.pressedVirtualKey == None)
  }

  lemma {:induction false} ItemIsShown(id: string, kind: SourceType, pointerType: PointerType, v: Json, st: SourceState)
    requires var a := ProcessAction(id, kind, pointerType, v); a.Some? && Readable(a.value)
    ensures ShownAs(id, kind, v.members, Show(ProcessAction(id, kind, pointerType, v).value, st))
  {
    TypesDiffer();
    var a := ProcessAction(id, kind, pointerType, v).value;
    if a.subtype.PointerMove? && "origin" in v.members { OriginIff(v.members["origin"], a.origin.value); }
  }

  predicate IsType(v: Json, t: string) { v.Obj? && Has(v.members, "type", t) }

  /** The button of the last "pointerDown" that no "pointerUp" or "pointerCancel" came after. */
  function ButtonAfter(held: Option<MouseButton>, items: seq<Json>): Option<MouseButton> {
    if items == [] then held
    else
      var v := items[|items| - 1];
      if IsType(v, "pointerDown") && ButtonOk(v.members) then Some(ButtonNamed(v.members["button"].n % UINT_RANGE))
      else if IsType(v, "pointerUp") || IsType(v, "pointerCancel") then None
      else ButtonAfter(held, items[..|items| - 1])
  }

  /** The keys that are down on a keyboard after some items. */
  function KeysAfter(down: set<KeyCap>, items: seq<Json>): set<KeyCap> {
    if items == [] then down
    else
      var v, before := items[|items| - 1], KeysAfter(down, items[..|items| - 1]);
      if IsType(v, "keyDown") && KeyOk(v.members) then before + {CapOf(v.members["value"].s)}
      else if IsType(v, "keyUp") && KeyOk(v.members) then before - {CapOf(v.members["value"].s)}
      else before
  }

  /** A source of one key of each sort can follow the item: another key of the sort is not down already, and
      the key that is let go is down, with no key without a character over it. */
  predicate CanFollow(down: set<KeyCap>, v: Json) {
    && (IsType(v, "keyDown") && KeyOk(v.members) ==>
          var cap := CapOf(v.members["value"].s);
          forall other | other in down && other.Named? == cap.Named? :: other == cap)
    && (IsType(v, "keyUp") && KeyOk(v.members) ==>
          var cap := CapOf(v.members["value"].s);
          down == {} || (cap in down && (cap.Typing? ==> forall other | other in down :: other.Typing?)))
  }

  ghost predicate CanFollowAll(down: set<KeyCap>, items: seq<Json>) {
    forall i | 0 <= i < |items| :: CanFollow(KeysAfter(down, items[..i]), items[i])
  }

  lemma {:induction false} ParsedItem(id: string, source: InputSource, items: seq<Json>, i: nat)
    requires ParseItems(id, source, items).Some? && i < |items|
    ensures |ParseItems(id, source, items).value| == |items|
    ensures ProcessAction(id, source.kind, ValueOr(source.pointerType, Mouse), items[i])
         == Some(ParseItems(id, source, items).value[i])
  {
    var n := |items| - 1;
    ParseItemsFit(id, source, items);
    if i < n {
      ParsedItem(id, source, items[..n], i);
      assert items[..n][i] == items[i];
    } else if n > 0 {
      ParseItemsFit(id, source, items[..n]);
    }
  }

  lemma {:induction false} PrefixIsParsed(id: string, source: InputSource, items: seq<Json>, n: nat)
    requires ParseItems(id, source, items).Some? && n <= |items|
    ensures ParseItems(id, source, items[..n]).Some?
    ensures n <= |ParseItems(id, source, items).value|
    ensures ParseItems(id, source, items[..n]).value == ParseItems(id, source, items).value[..n]
    decreases |items|
  {
    ParseItemsFit(id, source, items);
    if n == |items| {
      assert items[..n] == items;
    } else {
      var front := items[..|items| - 1];
      PrefixIsParsed(id, source, front, n);
      ParseItemsFit(id, source, front);
      assert front[..n] == items[..n];
    }
  }

  /** One item of a pointer, and what it does to the button. */
  lemma {:induction false} ItemMovesButton(id: string, source: InputSource, v: Json, st: SourceState)
    requires source.kind.Pointer?
    requires var a := ProcessAction(id, source.kind, ValueOr(source.pointerType, Mouse), v);
      a.Some? && Readable(a.value)
    ensures var a := ProcessAction(id, source.kind, ValueOr(source.pointerType, Mouse), v).value;
      After(st, a).button ==
        if IsType(v, "pointerDown") && ButtonOk(v.members) then Some(ButtonNamed(v.members["button"].n % UINT_RANGE))
        else if IsType(v, "pointerUp") || IsType(v, "pointerCancel") then None
        else st.button
  {
    TypesDiffer();
  }

  lemma {:induction false} ButtonIsHeld(id: string, source: InputSource, items: seq<Json>, st: SourceState)
    requires source.kind.Pointer? && ParseItems(id, source, items).Some?
    requires AllReadable(ParseItems(id, source, items).value)
    ensures PlayAlone(st, ParseItems(id, source, items).value).button == ButtonAfter(st.button, items)
  {
    if items != [] {
      var n := |items| - 1;
      var acts := ParseItems(id, source, items).value;
      PrefixIsParsed(id, source, items, n);
      ParseItemsFit(id, source, items);
      assert acts[..|acts| - 1] == ParseItems(id, source, items[..n]).value;
      ButtonIsHeld(id, source, items[..n], st);
      ParsedItem(id, source, items, n);
      ItemMovesButton(id, source, items[n], PlayAlone(st, acts[..n]));
    }
  }

  lemma {:induction false} ItemMovesKeys(id: string, source: InputSource, v: Json, down: set<KeyCap>)
    requires source.kind.Key?
    requires var a := ProcessAction(id, source.kind, ValueOr(source.pointerType, Mouse), v);
      a.Some? && Readable(a.value)
    ensures var a := ProcessAction(id, source.kind, ValueOr(source.pointerType, Mouse), v).value;
      && (Follows(down, a) <==> CanFollow(down, v))
      && Press(down, a) ==
           if IsType(v, "keyDown") && KeyOk(v.members) then down + {CapOf(v.members["value"].s)}
           else if IsType(v, "keyUp") && KeyOk(v.members) then down - {CapOf(v.members["value"].s)}
           else down
  {
    TypesDiffer();
  }

  lemma {:induction false} KeysAreDown(id: string, source: InputSource, items: seq<Json>, down: set<KeyCap>)
    requires source.kind.Key? && ParseItems(id, source, items).Some?
    requires AllReadable(ParseItems(id, source, items).value)
    ensures PressAll(down, ParseItems(id, source, items).value) == KeysAfter(down, items)
  {
    if items != [] {
      var n := |items| - 1;
      var acts := ParseItems(id, source, items).value;
      PrefixIsParsed(id, source, items, n);
      ParseItemsFit(id, source, items);
      assert acts[..|acts| - 1] == ParseItems(id, source, items[..n]).value;
      KeysAreDown(id, source, items[..n], down);
      ParsedItem(id, source, items, n);
      ItemMovesKeys(id, source, items[n], PressAll(down, acts[..n]));
    }
  }

  lemma {:induction false} FollowsIff(id: string, source: InputSource, items: seq<Json>, down: set<KeyCap>)
    requires source.kind.Key? && ParseItems(id, source, items).Some?
    requires AllReadable(ParseItems(id, source, items).value)
    ensures FollowsAll(down, ParseItems(id, source, items).value) <==> CanFollowAll(down, items)
  {
    var acts := ParseItems(id, source, items).value;
    ParseItemsFit(id, source, items);
    forall i | 0 <= i < |items|
      ensures Follows(PressAll(down, acts[..i]), acts[i]) <==> CanFollow(KeysAfter(down, items[..i]), items[i])
    {
      PrefixIsParsed(id, source, items, i);
      KeysAreDown(id, source, items[..i], down);
      ParsedItem(id, source, items, i);
      ItemMovesKeys(id, source, items[i], PressAll(down, acts[..i]));
    }
  }

  lemma {:induction false} ShownAlone(st: SourceState, acts: seq<Action>, i: nat)
    requires AllReadable(acts) && i < |acts|
    ensures |ShowAlone(st, acts)| == |acts| && ShowAlone(st, acts)[i] == Show(acts[i], PlayAlone(st, acts[..i + 1]))
  {
    var front := acts[..|acts| - 1];
    if i < |front| {
      ShownAlone(st, front, i);
      assert front[..i + 1] == acts[..i + 1];
    } else {
      if front != [] { ShownAlone(st, front, 0); }
      assert acts[..i + 1] == acts;
    }
  }

  /** What is sent for item `i` shows the keys that are down on a keyboard then. */
  predicate KeysSentAt(sent: seq<Shown>, down: set<KeyCap>, items: seq<Json>, i: nat)
    requires i < |items|
  {
    i < |sent| && SentCaps(sent[i]) == KeysAfter(down, items[..i + 1])
  }

  ghost predicate AllKeysSent(sent: seq<Shown>, down: set<KeyCap>, items: seq<Json>) {
    forall i | 0 <= i < |items| :: KeysSentAt(sent, down, items, i)
  }

  /** What is sent for the items of one source. */
  ghost predicate IsSent(id: string, source: InputSource, items: seq<Json>, st: SourceState, sent: seq<Shown>) {
    && |sent| == |items|
    && (forall i | 0 <= i < |items| :: items[i].Obj? && ShownAs(id, source.kind, items[i].members, sent[i]))
    && (source.kind.Pointer? ==>
          forall i | 0 <= i < |items| :: sent[i].pressedButton == ButtonAfter(st.button, items[..i + 1]))
    && (source.kind.Key? ==> (AllKeysSent(sent, Held(st), items) <==> CanFollowAll(Held(st), items)))
  }

  lemma {:induction false} ItemsAreSent(id: string, source: InputSource, items: seq<Json>, st: SourceState)
    requires ParseItems(id, source, items).Some? && AllReadable(ParseItems(id, source, items).value)
    ensures IsSent(id, source, items, st, ShowAlone(st, ParseItems(id, source, items).value))
  {
    var acts := ParseItems(id, source, items).value;
    var sent := ShowAlone(st, acts);
    ParseItemsFit(id, source, items);
    assert |sent| == |items| by { if items != [] { ShownAlone(st, acts, 0); } }
    forall i | 0 <= i < |items|
      ensures items[i].Obj? && ShownAs(id, source.kind, items[i].members, sent[i])
      ensures source.kind.Pointer? ==> sent[i].pressedButton == ButtonAfter(st.button, items[..i + 1])
    {
      OneItemIsSent(id, source, items, st, i);
    }
    if source.kind.Key? { KeysAreSentIff(id, source, items, st); }
  }

  lemma {:induction false} OneItemIsSent(id: string, source: InputSource, items: seq<Json>, st: SourceState, i: nat)
    requires ParseItems(id, source, items).Some? && AllReadable(ParseItems(id, source, items).value) && i < |items|
    ensures var sent := ShowAlone(st, ParseItems(id, source, items).value);
      && i < |sent| && items[i].Obj? && ShownAs(id, source.kind, items[i].members, sent[i])
      && (source.kind.Pointer? ==> sent[i].pressedButton == ButtonAfter(st.button, items[..i + 1]))
  {
    var acts := ParseItems(id, source, items).value;
    ParseItemsFit(id, source, items);
    ShownAlone(st, acts, i);
    ParsedItem(id, source, items, i);
    ItemIsShown(id, source.kind, ValueOr(source.pointerType, Mouse), items[i], PlayAlone(st, acts[..i + 1]));
    if source.kind.Pointer? {
      PrefixIsParsed(id, source, items, i + 1);
      ButtonIsHeld(id, source, items[..i + 1], st);
    }
  }

  lemma {:induction false} KeysAreSentIff(id: string, source: InputSource, items: seq<Json>, st: SourceState)
    requires ParseItems(id, source, items).Some? && AllReadable(ParseItems(id, source, items).value) && source.kind.Key?
    ensures var sent := ShowAlone(st, ParseItems(id, source, items).value);
      AllKeysSent(sent, Held(st), items) <==> CanFollowAll(Held(st), items)
  {
    var acts := ParseItems(id, source, items).value;
    ParseItemsFit(id, source, items);
    SentKeysAreAKeyboardIff(st, acts);
    FollowsIff(id, source, items, Held(st));
    AllSentAlike(id, source, items, ShowAlone(st, acts), Held(st));
  }

  lemma {:induction false} AllSentAlike(id: string, source: InputSource, items: seq<Json>, sent: seq<Shown>,
      down: set<KeyCap>)
    requires ParseItems(id, source, items).Some? && AllReadable(ParseItems(id, source, items).value) && source.kind.Key?
    ensures AllSent(sent, down, ParseItems(id, source, items).value) <==> AllKeysSent(sent, down, items)
  {
    var acts := ParseItems(id, source, items).value;
    ParseItemsFit(id, source, items);
    forall i | 0 <= i < |items| ensures SentAt(sent, down, acts, i) <==> KeysSentAt(sent, down, items, i) {
      PrefixIsParsed(id, source, items, i + 1);
      KeysAreDown(id, source, items[..i + 1], down);
    }
  }

  lemma {:induction false} ParsedSequence(table: Sources, sequences: seq<Json>, s: nat)
    requires ParseAll(table, sequences).Some? && s < |sequences|
    ensures Header(sequences[s]).Some? && |ParseAll(table, sequences).value| == |sequences|
    ensures ParseItems(Header(sequences[s]).value.0, Header(sequences[s]).value.1, Items(sequences[s]))
         == Some(ParseAll(table, sequences).value[s])
  {
    var n := |sequences| - 1;
    ParseAllStep(table, sequences);
    ParseAllLength(table, sequences[..n]);
    if s < n {
      ParsedSequence(table, sequences[..n], s);
      assert sequences[..n][s] == sequences[s];
    }
  }

  /** A whole request, from its JSON to the message: for an accepted request whose moves have both coordinates,
      whose sequences are for different sources, the states sent for each source are those of its items, one by
      one: the place, origin and duration that the client wrote, the button last pressed and not let go, and,
      exactly when the source can follow, the keys that are down. */
  lemma {:induction false} RequestIsSent(t: Table, table: Sources, sequences: seq<Json>, s: nat)
    requires ParseAll(table, sequences).Some? && s < |sequences|
    requires forall r | 0 <= r < |sequences| :: Header(sequences[r]).Some? && CompleteMoves(Items(sequences[r]))
    requires Distinct(Ids(sequences))
    ensures AllReadable(Flat(Transpose(ParseAll(table, sequences).value)))
    ensures var (id, source) := Header(sequences[s]).value;
      IsSent(id, source, Items(sequences[s]), StateOf(t, id),
        ShownFor(ShowAll(t, Flat(Transpose(ParseAll(table, sequences).value))), id))
  {
    var parsed := ParseAll(table, sequences).value;
    AcceptedIsReadableIff(table, sequences);
    TicksPlayEachSource(t, parsed, Ids(sequences), s);
    var (id, source) := Header(sequences[s]).value;
    ParsedSequence(table, sequences, s);
    ItemsAreSent(id, source, Items(sequences[s]), StateOf(t, id));
  }
}
