/** Typing text into an element: characters become keyboard interactions, and modifier characters
    toggle a sticky modifier that is released at the end. */
module SendKeys {
  import opened Options

  datatype Modifier = Shift | Control | Alternate | Meta

  datatype InteractionType = KeyPress | KeyRelease | InsertByKey

  datatype Interaction = Interaction(kind: InteractionType, text: Option<nat>, key: Option<string>)

  function NameOf(m: Modifier): string {
    match m
    case Shift => "Shift"
    case Control => "Control"
    case Alternate => "Alternate"
    case Meta => "Meta"
  }

  /** The flag of a modifier in the bit mask. */
  function Bit(m: Modifier): bv8 {
    match m
    case Shift => 1
    case Control => 2
    case Alternate => 4
    case Meta => 8
  }

  /** `virtualKeyForKey`: the name of a key without a character, and the modifier it is. */
  function VirtualKeyForKey(key: nat): (Option<string>, Option<Modifier>) {
    match key
    case 0xE001 => (Some("Cancel"), None)
    case 0xE002 => (Some("Help"), None)
    case 0xE003 => (Some("Backspace"), None)
    case 0xE004 => (Some("Tab"), None)
    case 0xE005 => (Some("Clear"), None)
    case 0xE006 => (Some("Return"), None)
    case 0xE007 => (Some("Enter"), None)
    case 0xE008 => (Some("Shift"), Some(Shift))
    case 0xE050 => (Some("Shift"), Some(Shift))
    case 0xE009 => (Some("Control"), Some(Control))
    case 0xE051 => (Some("Control"), Some(Control))
    case 0xE00A => (Some("Alternate"), Some(Alternate))
    case 0xE052 => (Some("Alternate"), Some(Alternate))
    case 0xE00B => (Some("Pause"), None)
    case 0xE00C => (Some("Escape"), None)
    case 0xE00D => (Some("Space"), None)
    case 0xE00E => (Some("PageUp"), None)
    case 0xE054 => (Some("PageUp"), None)
    case 0xE00F => (Some("PageDown"), None)
    case 0xE055 => (Some("PageDown"), None)
    case 0xE010 => (Some("End"), None)
    case 0xE056 => (Some("End"), None)
    case 0xE011 => (Some("Home"), None)
    case 0xE057 => (Some("Home"), None)
    case 0xE012 => (Some("LeftArrow"), None)
    case 0xE058 => (Some("LeftArrow"), None)
    case 0xE013 => (Some("UpArrow"), None)
    case 0xE059 => (Some("UpArrow"), None)
    case 0xE014 => (Some("RightArrow"), None)
    case 0xE05A => (Some("RightArrow"), None)
    case 0xE015 => (Some("DownArrow"), None)
    case 0xE05B => (Some("DownArrow"), None)
    case 0xE016 => (Some("Insert"), None)
    case 0xE05C => (Some("Insert"), None)
    case 0xE017 => (Some("Delete"), None)
    case 0xE05D => (Some("Delete"), None)
    case 0xE018 => (Some("Semicolon"), None)
    case 0xE019 => (Some("Equals"), None)
    case 0xE01A => (Some("NumberPad0"), None)
    case 0xE01B => (Some("NumberPad1"), None)
    case 0xE01C => (Some("NumberPad2"), None)
    case 0xE01D => (Some("NumberPad3"), None)
    case 0xE01E => (Some("NumberPad4"), None)
    case 0xE01F => (Some("NumberPad5"), None)
    case 0xE020 => (Some("NumberPad6"), None)
    case 0xE021 => (Some("NumberPad7"), None)
    case 0xE022 => (Some("NumberPad8"), None)
    case 0xE023 => (Some("NumberPad9"), None)
    case 0xE024 => (Some("NumberPadMultiply"), None)
    case 0xE025 => (Some("NumberPadAdd"), None)
    case 0xE026 => (Some("NumberPadSeparator"), None)
    case 0xE027 => (Some("NumberPadSubtract"), None)
    case 0xE028 => (Some("NumberPadDecimal"), None)
    case 0xE029 => (Some("NumberPadDivide"), None)
    case 0xE031 => (Some("Function1"), None)
    case 0xE032 => (Some("Function2"), None)
    case 0xE033 => (Some("Function3"), None)
    case 0xE034 => (Some("Function4"), None)
    case 0xE035 => (Some("Function5"), None)
    case 0xE036 => (Some("Function6"), None)
    case 0xE037 => (Some("Function7"), None)
    case 0xE038 => (Some("Function8"), None)
    case 0xE039 => (Some("Function9"), None)
    case 0xE03A => (Some("Function10"), None)
    case 0xE03B => (Some("Function11"), None)
    case 0xE03C => (Some("Function12"), None)
    case 0xE03D => (Some("Meta"), Some(Meta))
    case 0xE053 => (Some("Meta"), Some(Meta))
    case _ => (None, None)
  }

  /** A keyboard layout: what a code unit stands for. */
  type Layout = nat -> (Option<string>, Option<Modifier>)

  ghost predicate NamesModifiers(layout: Layout) {
    forall k :: layout(k).1.Some? ==> layout(k).0 == Some(NameOf(layout(k).1.value))
  }

  lemma {:induction false} VirtualKeysNameModifiers()
    ensures NamesModifiers(VirtualKeyForKey)
  {
  }

  /** Which code units are keys; and the second set of keys repeats the first. */
  lemma {:induction false} KeyTable(key: nat, i: nat)
    ensures VirtualKeyForKey(key).0.Some? <==>
      0xE001 <= key <= 0xE029 || 0xE031 <= key <= 0xE03D || 0xE050 <= key <= 0xE05D
    ensures i < 3 ==> VirtualKeyForKey(0xE050 + i) == VirtualKeyForKey(0xE008 + i)
    ensures i < 10 ==> VirtualKeyForKey(0xE054 + i) == VirtualKeyForKey(0xE00E + i)
  {
  }

  /** The digits of the keypad are in a row. */
  lemma {:induction false} KeypadDigits(i: nat)
    requires i < 10
    ensures VirtualKeyForKey(0xE01A + i) == (Some("NumberPad" + ["0123456789"[i]]), None)
  {
    match i
    case 0 => assert "NumberPad" + ["0123456789"[i]] == "NumberPad0";
    case 1 => assert "NumberPad" + ["0123456789"[i]] == "NumberPad1";
    case 2 => assert "NumberPad" + ["0123456789"[i]] == "NumberPad2";
    case 3 => assert "NumberPad" + ["0123456789"[i]] == "NumberPad3";
    case 4 => assert "NumberPad" + ["0123456789"[i]] == "NumberPad4";
    case 5 => assert "NumberPad" + ["0123456789"[i]] == "NumberPad5";
    case 6 => assert "NumberPad" + ["0123456789"[i]] == "NumberPad6";
    case 7 => assert "NumberPad" + ["0123456789"[i]] == "NumberPad7";
    case 8 => assert "NumberPad" + ["0123456789"[i]] == "NumberPad8";
    case 9 => assert "NumberPad" + ["0123456789"[i]] == "NumberPad9";
  }

  /** So are the function keys. */
  lemma {:induction false} FunctionKeys(i: nat)
    requires 1 <= i <= 9
    ensures VirtualKeyForKey(0xE030 + i) == (Some("Function" + ["0123456789"[i]]), None)
  {
    match i
    case 1 => assert "Function" + ["0123456789"[i]] == "Function1";
    case 2 => assert "Function" + ["0123456789"[i]] == "Function2";
    case 3 => assert "Function" + ["0123456789"[i]] == "Function3";
    case 4 => assert "Function" + ["0123456789"[i]] == "Function4";
    case 5 => assert "Function" + ["0123456789"[i]] == "Function5";
    case 6 => assert "Function" + ["0123456789"[i]] == "Function6";
    case 7 => assert "Function" + ["0123456789"[i]] == "Function7";
    case 8 => assert "Function" + ["0123456789"[i]] == "Function8";
    case 9 => assert "Function" + ["0123456789"[i]] == "Function9";
  }

  // ---------------------------------------------------------------- what the interactions do

  /** The bit mask of a set of modifiers. */
  function Mask(held: set<Modifier>): bv8 {
    (if Shift in held then 1 else 0) | (if Control in held then 2 else 0)
    | (if Alternate in held then 4 else 0) | (if Meta in held then 8 else 0)
  }

  function Toggle(held: set<Modifier>, m: Modifier): set<Modifier> { if m in held then held - {m} else held + {m} }

  lemma {:induction false} MaskTellsMembers(held: set<Modifier>, m: Modifier)
    ensures Mask(held) & Bit(m) != 0 <==> m in held
  {
  }

  lemma {:induction false} MaskZero(held: set<Modifier>)
    requires Mask(held) == 0
    ensures held == {}
  {
    forall m: Modifier ensures m !in held { MaskTellsMembers(held, m); }
  }

  /** Exclusive or is toggling. */
  lemma {:induction false} MaskToggles(held: set<Modifier>, m: Modifier)
    ensures Mask(held) ^ Bit(m) == Mask(Toggle(held, m))
  {
  }

  /** The modifiers toggled an odd number of times. */
  function HeldAfter(layout: Layout, text: seq<nat>): set<Modifier> {
    if text == [] then {}
    else
      var before, m := HeldAfter(layout, text[..|text| - 1]), layout(text[|text| - 1]).1;
      if m.Some? then Toggle(before, m.value) else before
  }

  /** The places in the text that name a modifier. */
  ghost function Places(layout: Layout, text: seq<nat>, m: Modifier): set<int> {
    set i | 0 <= i < |text| && layout(text[i]).1 == Some(m)
  }

  lemma {:induction false} PlacesGrow(layout: Layout, text: seq<nat>, key: nat, m: Modifier)
    ensures |Places(layout, text + [key], m)| == |Places(layout, text, m)| + if layout(key).1 == Some(m) then 1 else 0
  {
    var before, after := Places(layout, text, m), Places(layout, text + [key], m);
    assert after == if layout(key).1 == Some(m) then before + {|text|} else before;
  }

  /** A modifier is held exactly when the text named it an odd number of times. */
  lemma {:induction false} HeldAfterIsParity(layout: Layout, text: seq<nat>, m: Modifier)
    ensures m in HeldAfter(layout, text) <==> |Places(layout, text, m)| % 2 == 1
  {
    if text == [] {
      assert Places(layout, text, m) == {};
    } else {
      var rest, key := text[..|text| - 1], text[|text| - 1];
      assert text == rest + [key];
      HeldAfterIsParity(layout, rest, m);
      PlacesGrow(layout, rest, key, m);
    }
  }

  /** What a keyboard holds down after an interaction, or None if it presses a held key or releases
      a free one. */
  function Play(held: set<string>, i: Interaction): Option<set<string>> {
    match i.kind
    case InsertByKey => Some(held)
    case KeyPress => if i.key.Some? && i.key.value !in held then Some(held + {i.key.value}) else None
    case KeyRelease => if i.key.Some? && i.key.value in held then Some(held - {i.key.value}) else None
  }

  function PlayAll(acts: seq<Interaction>): Option<set<string>> {
    if acts == [] then Some({})
    else
      var before := PlayAll(acts[..|acts| - 1]);
      if before.Some? then Play(before.value, acts[|acts| - 1]) else None
  }

  function Names(held: set<Modifier>): set<string> { set m | m in held :: NameOf(m) }

  /** The interaction for one code unit, given what is held before it. */
  function InteractionFor(layout: Layout, held: set<Modifier>, key: nat): Interaction {
    var (name, m) := layout(key);
    if name.None? then Interaction(InsertByKey, Some(key), None)
    else if m.None? then Interaction(InsertByKey, None, name)
    else Interaction(if m.value in held then KeyRelease else KeyPress, None, name)
  }

  /** After any prefix, the keyboard holds exactly the modifiers toggled so far: presses and releases
      of each modifier alternate, starting with a press. */
  ghost predicate Follows(layout: Layout, text: seq<nat>, acts: seq<Interaction>) {
    && |acts| == |text|
    && (forall i | 0 <= i < |text| :: acts[i] == InteractionFor(layout, HeldAfter(layout, text[..i]), text[i]))
  }

  lemma {:induction false} NamesAreDistinct(held: set<Modifier>, m: Modifier)
    ensures NameOf(m) in Names(held) <==> m in held
    ensures Names(held + {m}) == Names(held) + {NameOf(m)}
    ensures Names(held - {m}) == Names(held) - {NameOf(m)}
  {
    assert forall a: Modifier, b: Modifier :: NameOf(a) == NameOf(b) ==> a == b by {
      assert "Shift"[0] == 'S' && "Control"[0] == 'C' && "Alternate"[0] == 'A' && "Meta"[0] == 'M';
    }
  }

  lemma {:induction false} FollowsPlays(layout: Layout, text: seq<nat>, acts: seq<Interaction>)
    requires NamesModifiers(layout) && Follows(layout, text, acts)
    ensures PlayAll(acts) == Some(Names(HeldAfter(layout, text)))
  {
    if text == [] {
      assert Names({}) == {};
    } else {
      var last := |text| - 1;
      FollowsPrefix(layout, text, acts, last);
      FollowsPlays(layout, text[..last], acts[..last]);
      var held, m := HeldAfter(layout, text[..last]), layout(text[last]).1;
      assert acts[last] == InteractionFor(layout, held, text[last]);
      assert PlayAll(acts) == Play(Names(held), acts[last]);
      if m.Some? { NamesAreDistinct(held, m.value); }
    }
  }

  /** What a page sees: a character, or a key without one, typed while some keys are held. */
  datatype Stroke = Character(unit: nat, holding: set<string>) | NamedKey(name: string, holding: set<string>)

  /** The strokes that the interactions make, or None if they are not well-formed. */
  function Strokes(acts: seq<Interaction>): Option<seq<Stroke>> {
    if acts == [] then Some([])
    else
      var front, i := acts[..|acts| - 1], acts[|acts| - 1];
      var before, held := Strokes(front), PlayAll(front);
      if before.None? || held.None? then None
      else match i.kind
        case InsertByKey =>
          if i.text.Some? && i.key.None? then Some(before.value + [Character(i.text.value, held.value)])
          else if i.text.None? && i.key.Some? then Some(before.value + [NamedKey(i.key.value, held.value)])
          else None
        case _ => if i.text.None? then before else None
  }

  /** The strokes that a text stands for: its characters and keys in order, each with the modifiers that
      were toggled before it and are held. */
  function StrokesOf(layout: Layout, text: seq<nat>): seq<Stroke> {
    if text == [] then []
    else
      var rest, unit := text[..|text| - 1], text[|text| - 1];
      var holding := Names(HeldAfter(layout, rest));
      StrokesOf(layout, rest) +
        match layout(unit)
        case (None, _) => [Character(unit, holding)]
        case (Some(name), None) => [NamedKey(name, holding)]
        case (Some(_), Some(_)) => []
  }

  /** The page sees what the text stands for. */
  lemma {:induction false} FollowsStrokes(layout: Layout, text: seq<nat>, acts: seq<Interaction>)
    requires NamesModifiers(layout) && Follows(layout, text, acts)
    ensures Strokes(acts) == Some(StrokesOf(layout, text))
  {
    if text != [] {
      var last := |text| - 1;
      FollowsPrefix(layout, text, acts, last);
      FollowsStrokes(layout, text[..last], acts[..last]);
      FollowsPlays(layout, text[..last], acts[..last]);
      assert acts[last] == InteractionFor(layout, HeldAfter(layout, text[..last]), text[last]);
      if layout(text[last]).0.Some? && layout(text[last]).1.Some? {
        assert StrokesOf(layout, text) == StrokesOf(layout, text[..last]);
      }
    }
  }

  lemma {:induction false} StrokesOneMore(acts: seq<Interaction>, m: Modifier)
    requires Strokes(acts).Some? && PlayAll(acts).Some?
    ensures Strokes(acts + [Release(m)]) == Strokes(acts)
  {
    assert (acts + [Release(m)])[..|acts|] == acts;
  }

  /** What the keyboard holds and what the page has seen. */
  ghost predicate Seen(acts: seq<Interaction>, held: set<Modifier>, strokes: seq<Stroke>) {
    PlayAll(acts) == Some(Names(held)) && Strokes(acts) == Some(strokes)
  }

  lemma {:induction false} ReleaseIsNoStroke(acts: seq<Interaction>, held: set<Modifier>, m: Modifier,
      strokes: seq<Stroke>)
    requires Seen(acts, held, strokes)
    ensures Seen(acts + ReleaseIf(m in held, m), held - {m}, strokes)
  {
    ReleaseOne(acts, held, m);
    if m in held { StrokesOneMore(acts, m); } else { assert acts + [] == acts; }
  }

  lemma {:induction false} TwoReleases(acts: seq<Interaction>, held: set<Modifier>, m: Modifier, k: Modifier,
      strokes: seq<Stroke>)
    requires Seen(acts, held, strokes) && m != k
    ensures Seen(acts + ReleaseIf(m in held, m) + ReleaseIf(k in held, k), held - {m} - {k}, strokes)
  {
    ReleaseIsNoStroke(acts, held, m, strokes);
    ReleaseIsNoStroke(acts + ReleaseIf(m in held, m), held - {m}, k, strokes);
  }

  /** The releases at the end are no strokes. */
  lemma {:induction false} ReleasesAreNoStrokes(acts: seq<Interaction>, held: set<Modifier>)
    requires PlayAll(acts) == Some(Names(held)) && Strokes(acts).Some?
    ensures Strokes(acts + Releases(held)) == Strokes(acts)
  {
    var strokes := Strokes(acts).value;
    var r1, r2 := ReleaseIf(Shift in held, Shift), ReleaseIf(Control in held, Control);
    var r3, r4 := ReleaseIf(Alternate in held, Alternate), ReleaseIf(Meta in held, Meta);
    TwoReleases(acts, held, Shift, Control, strokes);
    TwoReleases(acts + r1 + r2, held - {Shift} - {Control}, Alternate, Meta, strokes);
    Reassociate(acts, r1, r2, r3, r4);
    ReleasesAre(held);
  }

  // ---------------------------------------------------------------- the loop

  method TypeText(layout: Layout, text: seq<nat>) returns (interactions: seq<Interaction>)
    requires NamesModifiers(layout)
    ensures |interactions| == |text| + |HeldAfter(layout, text)|
    ensures Follows(layout, text, interactions[..|text|])
    ensures forall i | 0 <= i <= |text| :: PlayAll(interactions[..i]) == Some(Names(HeldAfter(layout, text[..i])))
    ensures PlayAll(interactions) == Some({})
    ensures Strokes(interactions) == Some(StrokesOf(layout, text))
  {
    var typed, stickyModifiers := TypeKeys(layout, text);
    ghost var held := HeldAfter(layout, text);
    interactions := ReleaseAll(typed, stickyModifiers, held);
    FollowsPlays(layout, text, typed);
    FollowsStrokes(layout, text, typed);
    ReleasesEmpty(typed, held);
    ReleasesAreNoStrokes(typed, held);
    assert interactions[..|text|] == typed;
    forall j | 0 <= j <= |text| ensures PlayAll(interactions[..j]) == Some(Names(HeldAfter(layout, text[..j]))) {
      assert interactions[..j] == typed[..j];
      FollowsPrefix(layout, text, typed, j);
      FollowsPlays(layout, text[..j], typed[..j]);
    }
  }

  /** The keyboard of the WebDriver specification. */
  method ElementSendKeys(text: seq<nat>) returns (interactions: seq<Interaction>)
    ensures |interactions| == |text| + |HeldAfter(VirtualKeyForKey, text)|
    ensures Follows(VirtualKeyForKey, text, interactions[..|text|])
    ensures forall i | 0 <= i <= |text| ::
      PlayAll(interactions[..i]) == Some(Names(HeldAfter(VirtualKeyForKey, text[..i])))
    ensures PlayAll(interactions) == Some({})
    ensures Strokes(interactions) == Some(StrokesOf(VirtualKeyForKey, text))
  {
    VirtualKeysNameModifiers();
    interactions := TypeText(VirtualKeyForKey, text);
  }

  /** The loop over the text. */
  method TypeKeys(layout: Layout, text: seq<nat>) returns (interactions: seq<Interaction>, stickyModifiers: bv8)
    requires NamesModifiers(layout)
    ensures Follows(layout, text, interactions) && stickyModifiers == Mask(HeldAfter(layout, text))
  {
    interactions, stickyModifiers := [], 0;
    var i := 0;
    while i < |text|
      invariant 0 <= i <= |text| && Follows(layout, text[..i], interactions)
      invariant stickyModifiers == Mask(HeldAfter(layout, text[..i]))
    {
      ghost var held := HeldAfter(layout, text[..i]);
      var key := text[i];
      var interaction;
      interaction, stickyModifiers := TypeKey(layout, key, stickyModifiers, held);
      FollowsGrows(layout, text[..i], interactions, key, interaction);
      assert text[..i + 1] == text[..i] + [key] && text[..i + 1][..i] == text[..i];
      interactions := interactions + [interaction];
      i := i + 1;
    }
    assert text[..i] == text;
  }

  method TypeKey(layout: Layout, key: nat, sticky: bv8, ghost held: set<Modifier>)
      returns (interaction: Interaction, stickyModifiers: bv8)
    requires NamesModifiers(layout) && sticky == Mask(held)
    ensures interaction == InteractionFor(layout, held, key)
    ensures stickyModifiers == Mask(if layout(key).1.Some? then Toggle(held, layout(key).1.value) else held)
  {
    stickyModifiers := sticky;
    var (virtualKey, modifier) := layout(key);
    interaction := Interaction(InsertByKey, None, None);
    if virtualKey.Some? {
      interaction := interaction.(key := virtualKey);
      if modifier.Some? {
        var kind;
        stickyModifiers, kind := ToggleModifier(sticky, modifier.value, held);
        interaction := interaction.(kind := kind);
      }
    } else {
      interaction := interaction.(text := Some(key));
    }
  }

  method ToggleModifier(sticky: bv8, m: Modifier, ghost held: set<Modifier>)
      returns (stickyModifiers: bv8, kind: InteractionType)
    requires sticky == Mask(held)
    ensures stickyModifiers == Mask(Toggle(held, m)) && kind == if m in held then KeyRelease else KeyPress
  {
    MaskToggles(held, m);
    MaskTellsMembers(Toggle(held, m), m);
    stickyModifiers := sticky ^ Bit(m);
    kind := if stickyModifiers & Bit(m) != 0 then KeyPress else KeyRelease;
  }

  /** The releases after the text: one for each modifier still held, in the order of the flags. */
  function Releases(held: set<Modifier>): seq<Interaction> {
    (if Shift in held then [Release(Shift)] else []) + (if Control in held then [Release(Control)] else [])
    + (if Alternate in held then [Release(Alternate)] else []) + (if Meta in held then [Release(Meta)] else [])
  }

  function Release(m: Modifier): Interaction { Interaction(KeyRelease, None, Some(NameOf(m))) }

  method ReleaseAll(typed: seq<Interaction>, stickyModifiers: bv8, ghost held: set<Modifier>)
      returns (r: seq<Interaction>)
    requires stickyModifiers == Mask(held)
    ensures r == typed + Releases(held)
  {
    r := typed;
    if stickyModifiers != 0 {
      MaskTellsMembers(held, Shift);
      MaskTellsMembers(held, Control);
      MaskTellsMembers(held, Alternate);
      MaskTellsMembers(held, Meta);
      if stickyModifiers & Bit(Shift) != 0 { r := r + [Release(Shift)]; }
      if stickyModifiers & Bit(Control) != 0 { r := r + [Release(Control)]; }
      if stickyModifiers & Bit(Alternate) != 0 { r := r + [Release(Alternate)]; }
      if stickyModifiers & Bit(Meta) != 0 { r := r + [Release(Meta)]; }
    } else {
      MaskZero(held);
    }
  }

  lemma {:induction false} PlayOneMore(acts: seq<Interaction>, a: Interaction)
    requires PlayAll(acts).Some?
    ensures PlayAll(acts + [a]) == Play(PlayAll(acts).value, a)
  {
    assert (acts + [a])[..|acts|] == acts;
  }

  function ReleaseIf(b: bool, m: Modifier): seq<Interaction> { if b then [Release(m)] else [] }

  /** One release step: `m` is let go if it is held. */
  lemma {:induction false} ReleaseOne(acts: seq<Interaction>, held: set<Modifier>, m: Modifier)
    requires PlayAll(acts) == Some(Names(held))
    ensures PlayAll(acts + ReleaseIf(m in held, m)) == Some(Names(held - {m}))
  {
    if m in held {
      PlayOneMore(acts, Release(m));
      NamesAreDistinct(held, m);
    } else {
      assert held - {m} == held;
      assert acts + [] == acts;
    }
  }

  /** Releasing what is held leaves nothing held, with one release per modifier. */
  lemma {:induction false} ReleasesEmpty(acts: seq<Interaction>, held: set<Modifier>)
    requires PlayAll(acts) == Some(Names(held))
    ensures PlayAll(acts + Releases(held)) == Some({}) && |Releases(held)| == |held|
  {
    ReleasesPlay(acts, held);
    NothingLeft(held);
    ReleasesCount(held);
  }

  lemma {:induction false} ReleasesPlay(acts: seq<Interaction>, held: set<Modifier>)
    requires PlayAll(acts) == Some(Names(held))
    ensures PlayAll(acts + Releases(held)) == Some(Names(held - {Shift} - {Control} - {Alternate} - {Meta}))
  {
    var r1, r2 := ReleaseIf(Shift in held, Shift), ReleaseIf(Control in held, Control);
    var r3, r4 := ReleaseIf(Alternate in held, Alternate), ReleaseIf(Meta in held, Meta);
    ReleaseOne(acts, held, Shift);
    ReleaseOne(acts + r1, held - {Shift}, Control);
    ReleaseOne(acts + r1 + r2, held - {Shift} - {Control}, Alternate);
    ReleaseOne(acts + r1 + r2 + r3, held - {Shift} - {Control} - {Alternate}, Meta);
    Reassociate(acts, r1, r2, r3, r4);
    ReleasesAre(held);
  }

  lemma {:induction false} ReleasesAre(held: set<Modifier>)
    ensures Releases(held) == ReleaseIf(Shift in held, Shift) + ReleaseIf(Control in held, Control)
                            + ReleaseIf(Alternate in held, Alternate) + ReleaseIf(Meta in held, Meta)
  {
  }

  lemma {:induction false} CountOne(held: set<Modifier>, m: Modifier)
    ensures |held| == |held - {m}| + |ReleaseIf(m in held, m)|
  {
    if m !in held { assert held - {m} == held; }
  }

  lemma {:induction false} ReleasesCount(held: set<Modifier>)
    ensures |Releases(held)| == |held|
  {
    CountOne(held, Shift);
    CountOne(held - {Shift}, Control);
    CountOne(held - {Shift} - {Control}, Alternate);
    CountOne(held - {Shift} - {Control} - {Alternate}, Meta);
    NothingLeft(held);
    ReleasesAre(held);
  }

  lemma {:induction false} NothingLeft(held: set<Modifier>)
    ensures held - {Shift} - {Control} - {Alternate} - {Meta} == {} && Names({}) == {}
  {
    var left := held - {Shift} - {Control} - {Alternate} - {Meta};
    forall m: Modifier ensures m !in left { match m case Shift => case Control => case Alternate => case Meta => }
  }

  lemma {:induction false} Reassociate(a: seq<Interaction>, b: seq<Interaction>, c: seq<Interaction>,
      d: seq<Interaction>, e: seq<Interaction>)
    ensures a + b + c + d + e == a + (b + c + d + e)
  {
  }

  lemma {:induction false} FollowsPrefix(layout: Layout, text: seq<nat>, acts: seq<Interaction>, n: nat)
    requires Follows(layout, text, acts) && n <= |text|
    ensures Follows(layout, text[..n], acts[..n])
  {
    forall i | 0 <= i < n
      ensures acts[..n][i] == InteractionFor(layout, HeldAfter(layout, text[..n][..i]), text[..n][i])
    {
      assert text[..n][..i] == text[..i];
    }
  }

  lemma {:induction false} FollowsGrows(layout: Layout, text: seq<nat>, acts: seq<Interaction>, key: nat,
      i: Interaction)
    requires Follows(layout, text, acts) && i == InteractionFor(layout, HeldAfter(layout, text), key)
    ensures Follows(layout, text + [key], acts + [i])
  {
    forall j | 0 <= j < |text| + 1
      ensures (acts + [i])[j] == InteractionFor(layout, HeldAfter(layout, (text + [key])[..j]), (text + [key])[j])
    {
      assert (text + [key])[..j] == text[..j];
      if j == |text| { assert text[..j] == text; }
    }
  }
}
