/** Elements in script results and arguments: the browser names an element by an object with a
    session-node key, the client by one with the web element identifier. */
module ScriptResults {
  import opened Options
  import opened Json
  import opened WebDriverTypes

  function NodeKey(sessionId: string): string { "session-node-" + sessionId }

  /** The object the browser uses for an element. */
  function Node(sessionId: string, elementId: string): Json { Obj(map[NodeKey(sessionId) := Str(elementId)]) }

  /** The object the client uses for an element. */
  function Element(elementId: string): Json { Obj(map[WEB_ELEMENT_IDENTIFIER := Str(elementId)]) }

  predicate IsNode(sessionId: string, v: Json) { v.Obj? && GetString(v.members, NodeKey(sessionId)).Some? }

  /** `createElement` on a value from the browser. */
  function CreateElement(sessionId: string, v: Json): Option<Json> {
    if !v.Obj? then None
    else
      var id := GetString(v.members, NodeKey(sessionId));
      if id.Some? then Some(Element(id.value)) else None
  }

  /** `extractElement` on an argument from the client. */
  function ExtractElement(sessionId: string, v: Json): Option<Json> {
    var id := ExtractElementId(v);
    if id != "" then Some(Node(sessionId, id)) else None
  }

  function ExtractElementId(v: Json): string {
    if !v.Obj? then ""
    else
      var id := GetString(v.members, WEB_ELEMENT_IDENTIFIER);
      if id.Some? then id.value else ""
  }

  function HandleScriptResult(sessionId: string, v: Json): Json
    decreases v
  {
    if v.Arr? then Arr(seq(|v.items|, i requires 0 <= i < |v.items| => HandleScriptResult(sessionId, v.items[i])))
    else
      var element := CreateElement(sessionId, v);
      if element.Some? then element.value
      else if v.Obj? then Obj(map k | k in v.members :: HandleScriptResult(sessionId, v.members[k]))
      else v
  }

  // ---------------------------------------------------------------- properties

  /** No session-node object at any depth. */
  predicate Clean(sessionId: string, v: Json) {
    match v
    case Arr(items) => forall i | 0 <= i < |items| :: Clean(sessionId, items[i])
    case Obj(members) => !IsNode(sessionId, v) && forall k | k in members :: Clean(sessionId, members[k])
    case _ => true
  }

  lemma {:induction false} ElementIsClean(sessionId: string, elementId: string)
    ensures Clean(sessionId, Element(elementId))
  {
    assert NodeKey(sessionId)[0] == 's' && WEB_ELEMENT_IDENTIFIER[0] == 'e';
  }

  /** The rewritten result holds no session-node object at any depth. */
  lemma {:induction false} ResultIsClean(sessionId: string, v: Json)
    ensures Clean(sessionId, HandleScriptResult(sessionId, v))
    ensures HandleScriptResult(sessionId, v).Str? ==> v.Str?
    decreases v
  {
    if v.Arr? {
      forall i | 0 <= i < |v.items| ensures Clean(sessionId, HandleScriptResult(sessionId, v.items[i])) {
        ResultIsClean(sessionId, v.items[i]);
      }
    } else if IsNode(sessionId, v) {
      ElementIsClean(sessionId, v.members[NodeKey(sessionId)].s);
    } else if v.Obj? {
      var r := HandleScriptResult(sessionId, v);
      forall k | k in v.members
        ensures Clean(sessionId, r.members[k]) && (r.members[k].Str? ==> v.members[k].Str?)
      {
        ResultIsClean(sessionId, v.members[k]);
      }
    }
  }

  /** A clean value is left as it is. */
  lemma {:induction false} CleanIsFixed(sessionId: string, v: Json)
    requires Clean(sessionId, v)
    ensures HandleScriptResult(sessionId, v) == v
    decreases v
  {
    var r := HandleScriptResult(sessionId, v);
    if v.Arr? {
      forall i | 0 <= i < |v.items| ensures r.items[i] == v.items[i] { CleanIsFixed(sessionId, v.items[i]); }
    } else if v.Obj? {
      forall k | k in v.members ensures r.members[k] == v.members[k] { CleanIsFixed(sessionId, v.members[k]); }
      assert r.members == v.members;
    }
  }

  lemma {:induction false} RewritingIsIdempotent(sessionId: string, v: Json)
    ensures HandleScriptResult(sessionId, HandleScriptResult(sessionId, v)) == HandleScriptResult(sessionId, v)
  {
    ResultIsClean(sessionId, v);
    CleanIsFixed(sessionId, HandleScriptResult(sessionId, v));
  }

  /** A place in a value: list positions and member names on the way down. */
  datatype Step = At(i: nat) | Of(key: string)

  function Lookup(v: Json, path: seq<Step>): Option<Json> {
    if path == [] then Some(v)
    else match path[0]
      case At(i) => if v.Arr? && i < |v.items| then Lookup(v.items[i], path[1..]) else None
      case Of(k) => if v.Obj? && k in v.members then Lookup(v.members[k], path[1..]) else None
  }

  /** The path does not lead into a session-node object. */
  predicate OutsideNodes(sessionId: string, v: Json, path: seq<Step>) {
    path == [] ||
    (!IsNode(sessionId, v) &&
     match path[0]
     case At(i) => v.Arr? && i < |v.items| ==> OutsideNodes(sessionId, v.items[i], path[1..])
     case Of(k) => v.Obj? && k in v.members ==> OutsideNodes(sessionId, v.members[k], path[1..]))
  }

  /** Rewriting is local: outside of element objects, the result has a value at exactly the places
      where the original has one, and it is the rewritten one. */
  lemma {:induction false} RewritingIsLocal(sessionId: string, v: Json, path: seq<Step>)
    requires OutsideNodes(sessionId, v, path)
    ensures var was, now := Lookup(v, path), Lookup(HandleScriptResult(sessionId, v), path);
      if was.Some? then now == Some(HandleScriptResult(sessionId, was.value)) else now == None
    decreases |path|
  {
    if path != [] {
      match path[0]
      case At(i) => if v.Arr? && i < |v.items| { RewritingIsLocal(sessionId, v.items[i], path[1..]); }
      case Of(k) => if v.Obj? && k in v.members { RewritingIsLocal(sessionId, v.members[k], path[1..]); }
    }
  }

  /** An element that a script returned can be passed back as an argument exactly when its identifier
      is not empty, and the browser then sees the object it returned; and the other way round. */
  lemma {:induction false} ElementRoundTrip(sessionId: string, elementId: string)
    ensures ExtractElement(sessionId, HandleScriptResult(sessionId, Node(sessionId, elementId)))
         == if elementId == "" then None else Some(Node(sessionId, elementId))
    ensures elementId != "" ==>
      && ExtractElement(sessionId, Element(elementId)) == Some(Node(sessionId, elementId))
      && HandleScriptResult(sessionId, Node(sessionId, elementId)) == Element(elementId)
  {
    assert HandleScriptResult(sessionId, Node(sessionId, elementId)) == Element(elementId);
  }

  /** What the browser is given when the client passes a script result back as an argument: an element is
      looked for at the top only. */
  function PassedBack(sessionId: string, v: Json): Json {
    var result := HandleScriptResult(sessionId, v);
    var element := ExtractElement(sessionId, result);
    if element.Some? then element.value else result
  }

  /** Passing a result back gives the browser its own value exactly when it was an element object with
      nothing else in it and a name, or held no element at any depth and is not one to the client. */
  lemma {:induction false} PassedBackIff(sessionId: string, v: Json)
    ensures PassedBack(sessionId, v) == v <==>
      if IsNode(sessionId, v) then
        var id := v.members[NodeKey(sessionId)].s; id != "" && v == Node(sessionId, id)
      else
        Clean(sessionId, v) && ExtractElement(sessionId, v) == None
  {
    ResultIsClean(sessionId, v);
    if IsNode(sessionId, v) {
      ElementRoundTrip(sessionId, v.members[NodeKey(sessionId)].s);
    } else if Clean(sessionId, v) {
      CleanIsFixed(sessionId, v);
    }
  }

  /** So a list of elements does not come back: the browser gets the client's objects. */
  lemma {:induction false} ListsOfElementsStay(sessionId: string, elementId: string)
    ensures var list := Arr([Node(sessionId, elementId)]);
      PassedBack(sessionId, list) == Arr([Element(elementId)]) && PassedBack(sessionId, list) != list
  {
    var list := Arr([Node(sessionId, elementId)]);
    assert HandleScriptResult(sessionId, list).items == [Element(elementId)];
    PassedBackIff(sessionId, list);
    assert !Clean(sessionId, list.items[0]);
  }
}
