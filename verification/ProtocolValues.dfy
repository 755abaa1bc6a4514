/**
 * The depth-first walks over JavaScript object graphs: `isProtocolValue` (packages/protocol/src/codec.ts),
 * `toProtocolJsonValue` and `sanitizeProtocolDetails` (packages/server/src/protocol.ts).
 * Graphs may be shared or cyclic; the set of ancestors on the current path is what stops the walks.
 */
module ProtocolValues {
  import opened Basics

  type Ref = nat

  datatype Number = Finite(n: int) | NaN | Infinite(negative: bool)

  datatype Value =
    | Undefined
    | Null
    | Bool(b: bool)
    | Num(number: Number)
    | Str(s: string)
    | BigInt(n: int, digits: string)
    | Opaque             // a function or a symbol
    | Object(ref: Ref)

  datatype Prototype = ObjectPrototype | NullPrototype | OtherPrototype

  /** Dense arrays, objects with their own enumerable entries, and dates. */
  datatype Node =
    | ArrayNode(items: seq<Value>)
    | ObjectNode(prototype: Prototype, entries: seq<(string, Value)>)
    | DateNode(iso: string)

  type Heap = map<Ref, Node>

  datatype Json =
    | JNull
    | JBool(b: bool)
    | JNum(n: int)
    | JStr(s: string)
    | JArray(items: seq<Json>)
    | JObject(entries: seq<(string, Json)>)

  /** Every reference held by a node points into the heap. */
  ghost predicate Closed(h: Heap) {
    forall r, v :: r in h && v in Children(h[r]) ==> InHeap(h, v)
  }

  ghost predicate InHeap(h: Heap, v: Value) {
    v.Object? ==> v.ref in h
  }

  function Children(node: Node): (c: seq<Value>)
    ensures node.ObjectNode? ==> |c| == |node.entries|
  {
    match node
    case ArrayNode(items) => items
    case ObjectNode(_, entries) => seq(|entries|, i requires 0 <= i < |entries| => entries[i].1)
    case DateNode(_) => []
  }

  // ---------------------------------------------------------------- the three walks as functions

  predicate IsProtocolValue(h: Heap, v: Value, optionalProperty: bool, ancestors: set<Ref>)
    requires Closed(h) && InHeap(h, v)
    decreases h.Keys - ancestors, 1, 0
  {
    match v
    case Undefined => optionalProperty
    case Object(r) =>
      if r in ancestors then false
      else (
        match h[r]
        case ArrayNode(items) => Every(h, items, false, ancestors + {r})
        case ObjectNode(prototype, _) =>
          prototype == ObjectPrototype && Every(h, Children(h[r]), true, ancestors + {r})
        case DateNode(_) => false)
    case BigInt(_, _) => false
    case Opaque => false
    case _ => true
  }

  predicate Every(h: Heap, vs: seq<Value>, optionalProperty: bool, ancestors: set<Ref>)
    requires Closed(h) && forall v :: v in vs ==> InHeap(h, v)
    decreases h.Keys - ancestors, 2, |vs|
  {
    vs == []
    || (IsProtocolValue(h, vs[0], optionalProperty, ancestors) && Every(h, vs[1..], optionalProperty, ancestors))
  }

  /** None stands for the TypeError. */
  function ToJson(h: Heap, v: Value, seen: set<Ref>): Option<Json>
    requires Closed(h) && InHeap(h, v)
    decreases h.Keys - seen, 1, 0
  {
    match v
    case Null => Some(JNull)
    case Str(s) => Some(JStr(s))
    case Bool(b) => Some(JBool(b))
    case Num(Finite(n)) => Some(JNum(n))
    case Object(r) =>
      if r in seen then None
      else (
        match h[r]
        case ArrayNode(items) =>
          (match ToJsonAll(h, items, seen + {r})
           case Some(js) => Some(JArray(js))
           case None => None)
        case ObjectNode(prototype, entries) =>
          if prototype == OtherPrototype then None
          else
            (match ToJsonAll(h, Children(h[r]), seen + {r})
             case Some(js) => Some(JObject(WithKeys(entries, js)))
             case None => None)
        case DateNode(_) => None)
    case _ => None
  }

  function ToJsonAll(h: Heap, vs: seq<Value>, seen: set<Ref>): (r: Option<seq<Json>>)
    requires Closed(h) && forall v :: v in vs ==> InHeap(h, v)
    ensures r.Some? ==> |r.value| == |vs|
    decreases h.Keys - seen, 2, |vs|
  {
    if vs == [] then Some([])
    else
      match (ToJson(h, vs[0], seen), ToJsonAll(h, vs[1..], seen))
      case (Some(j), Some(js)) => Some([j] + js)
      case _ => None
  }

  function WithKeys(entries: seq<(string, Value)>, js: seq<Json>): (r: seq<(string, Json)>)
    requires |entries| == |js|
    ensures |r| == |js|
  {
    seq(|js|, i requires 0 <= i < |js| => (entries[i].0, js[i]))
  }

  function NumberText(n: Number): string {
    match n
    case Finite(_) => ""
    case NaN => "NaN"
    case Infinite(negative) => if negative then "-Infinity" else "Infinity"
  }

  /** None stands for undefined. */
  function Sanitize(h: Heap, v: Value, seen: set<Ref>): Option<Json>
    requires Closed(h) && InHeap(h, v)
    decreases h.Keys - seen, 1, 0
  {
    match v
    case Null => Some(JNull)
    case Str(s) => Some(JStr(s))
    case Bool(b) => Some(JBool(b))
    case Num(Finite(n)) => Some(JNum(n))
    case Num(n) => Some(JStr(NumberText(n)))
    case BigInt(_, digits) => Some(JStr(digits))
    case Undefined => None
    case Opaque => None
    case Object(r) =>
      match h[r]
      case DateNode(iso) => Some(JStr(iso))
      case ArrayNode(items) =>
        if r in seen then Some(JStr("[Circular]")) else Some(JArray(SanitizeItems(h, items, seen + {r})))
      case ObjectNode(_, entries) =>
        if r in seen then Some(JStr("[Circular]"))
        else
          assert forall e :: e in entries ==> InHeap(h, e.1) by { EntriesInHeap(h, r); }
          Some(JObject(SanitizeEntries(h, entries, seen + {r})))
  }

  function SanitizeItems(h: Heap, vs: seq<Value>, seen: set<Ref>): (js: seq<Json>)
    requires Closed(h) && forall v :: v in vs ==> InHeap(h, v)
    ensures |js| == |vs|
    decreases h.Keys - seen, 2, |vs|
  {
    if vs == [] then []
    else
      (match Sanitize(h, vs[0], seen)
       case Some(j) => [j]
       case None => [JNull])
      + SanitizeItems(h, vs[1..], seen)
  }

  function SanitizeEntries(h: Heap, entries: seq<(string, Value)>, seen: set<Ref>): seq<(string, Json)>
    requires Closed(h) && forall e :: e in entries ==> InHeap(h, e.1)
    decreases h.Keys - seen, 2, |entries|
  {
    if entries == [] then []
    else
      (match Sanitize(h, entries[0].1, seen)
       case Some(j) => [(entries[0].0, j)]
       case None => [])
      + SanitizeEntries(h, entries[1..], seen)
  }

  lemma EntriesInHeap(h: Heap, r: Ref)
    requires Closed(h) && r in h && h[r].ObjectNode?
    ensures forall e :: e in h[r].entries ==> InHeap(h, e.1)
  {
    forall e | e in h[r].entries ensures InHeap(h, e.1) {
      var i :| 0 <= i < |h[r].entries| && h[r].entries[i] == e;
      assert Children(h[r])[i] == e.1;
    }
  }

  // ---------------------------------------------------------------- the same walks over a mutated set

  /** The `Set<object>` that the recursive calls share. */
  class RefSet {
    var refs: set<Ref>

    constructor ()
      ensures refs == {}
    {
      refs := {};
    }
  }

  method CheckProtocolValue(h: Heap, v: Value, optionalProperty: bool, ancestors: RefSet) returns (ok: bool)
    requires Closed(h) && InHeap(h, v)
    modifies ancestors
    ensures ok == IsProtocolValue(h, v, optionalProperty, old(ancestors.refs)) && ancestors.refs == old(ancestors.refs)
    decreases h.Keys - ancestors.refs
  {
    match v {
      case Undefined => return optionalProperty;
      case Null => return true;
      case Bool(_) => return true;
      case Num(_) => return true;
      case Str(_) => return true;
      case BigInt(_, _) => return false;
      case Opaque => return false;
      case Object(r) =>
        if r in ancestors.refs { return false; }
        ancestors.refs := ancestors.refs + {r};
        ghost var path := ancestors.refs;
        if h[r].ArrayNode? || (h[r].ObjectNode? && h[r].prototype == ObjectPrototype) {
          var items := Children(h[r]);
          ok := true;
          var i := 0;
          while i < |items| && ok
            invariant 0 <= i <= |items| && ancestors.refs == path
            invariant Every(h, items, h[r].ObjectNode?, path) <==> ok && Every(h, items[i..], h[r].ObjectNode?, path)
          {
            assert items[i..][0] == items[i] && items[i..][1..] == items[i + 1..];
            ok := CheckProtocolValue(h, items[i], h[r].ObjectNode?, ancestors);
            i := i + 1;
          }
        } else {
          ok := false;
        }
        ancestors.refs := ancestors.refs - {r};
    }
  }

  function After(done: seq<Json>, rest: Option<seq<Json>>): Option<seq<Json>> {
    match rest
    case Some(js) => Some(done + js)
    case None => None
  }

  lemma NextChild(h: Heap, vs: seq<Value>, i: nat, seen: set<Ref>, done: seq<Json>)
    requires Closed(h) && (forall v :: v in vs ==> InHeap(h, v)) && i < |vs|
    ensures After(done, ToJsonAll(h, vs[i..], seen)) ==
      match ToJson(h, vs[i], seen)
      case Some(j) => After(done + [j], ToJsonAll(h, vs[i + 1..], seen))
      case None => None
  {
    assert vs[i..][0] == vs[i] && vs[i..][1..] == vs[i + 1..];
    var j, rest := ToJson(h, vs[i], seen), ToJsonAll(h, vs[i + 1..], seen);
    if j.Some? && rest.Some? { assert done + ([j.value] + rest.value) == done + [j.value] + rest.value; }
  }

  method ToProtocolJsonValue(h: Heap, v: Value, seen: RefSet) returns (result: Option<Json>)
    requires Closed(h) && InHeap(h, v)
    modifies seen
    ensures result == ToJson(h, v, old(seen.refs)) && seen.refs == old(seen.refs)
    decreases h.Keys - seen.refs
  {
    match v {
      case Null => return Some(JNull);
      case Str(s) => return Some(JStr(s));
      case Bool(b) => return Some(JBool(b));
      case Num(number) => return if number.Finite? then Some(JNum(number.n)) else None;
      case Undefined => return None;
      case BigInt(_, _) => return None;
      case Opaque => return None;
      case Object(r) =>
        if r in seen.refs { return None; }
        if h[r].DateNode? || (h[r].ObjectNode? && h[r].prototype == OtherPrototype) { return None; }
        seen.refs := seen.refs + {r};
        ghost var path := seen.refs;
        var children := Children(h[r]);
        var done: seq<Json> := [];
        var failed := false;
        var i := 0;
        ghost var all := ToJsonAll(h, children, path);
        if all.Some? { assert done + all.value == all.value; }
        while i < |children| && !failed
          invariant 0 <= i <= |children| && seen.refs == path
          invariant failed ==> ToJsonAll(h, children, path) == None
          invariant !failed ==> |done| == i
          invariant !failed ==> ToJsonAll(h, children, path) == After(done, ToJsonAll(h, children[i..], path))
        {
          NextChild(h, children, i, path, done);
          var j := ToProtocolJsonValue(h, children[i], seen);
          if j.None? {
            failed := true;
          } else {
            done := done + [j.value];
          }
          i := i + 1;
        }
        seen.refs := seen.refs - {r};
        if failed { return None; }
        assert done + [] == done;
        return Some(if h[r].ArrayNode? then JArray(done) else JObject(WithKeys(h[r].entries, done)));
    }
  }

  method SanitizeProtocolDetails(h: Heap, v: Value, seen: RefSet) returns (result: Option<Json>)
    requires Closed(h) && InHeap(h, v)
    modifies seen
    ensures result == Sanitize(h, v, old(seen.refs)) && seen.refs == old(seen.refs)
    decreases h.Keys - seen.refs, 0
  {
    match v {
      case Null => return Some(JNull);
      case Str(s) => return Some(JStr(s));
      case Bool(b) => return Some(JBool(b));
      case Num(number) => return Some(if number.Finite? then JNum(number.n) else JStr(NumberText(number)));
      case BigInt(_, digits) => return Some(JStr(digits));
      case Undefined => return None;
      case Opaque => return None;
      case Object(r) =>
        if h[r].DateNode? { return Some(JStr(h[r].iso)); }
        if r in seen.refs { return Some(JStr("[Circular]")); }
        seen.refs := seen.refs + {r};
        if h[r].ArrayNode? {
          var items := SanitizeEach(h, h[r].items, seen);
          result := Some(JArray(items));
        } else {
          EntriesInHeap(h, r);
          var entries := SanitizeObject(h, h[r].entries, seen);
          result := Some(JObject(entries));
        }
        seen.refs := seen.refs - {r};
    }
  }

  lemma NextItem(h: Heap, vs: seq<Value>, i: nat, seen: set<Ref>, done: seq<Json>)
    requires Closed(h) && (forall v :: v in vs ==> InHeap(h, v)) && i < |vs|
    ensures done + SanitizeItems(h, vs[i..], seen)
         == done + [Sanitize(h, vs[i], seen).GetOr(JNull)] + SanitizeItems(h, vs[i + 1..], seen)
  {
    assert vs[i..][0] == vs[i] && vs[i..][1..] == vs[i + 1..];
  }

  method SanitizeEach(h: Heap, vs: seq<Value>, seen: RefSet) returns (done: seq<Json>)
    requires Closed(h) && forall v :: v in vs ==> InHeap(h, v)
    modifies seen
    ensures done == SanitizeItems(h, vs, old(seen.refs)) && seen.refs == old(seen.refs)
    decreases h.Keys - seen.refs, 1
  {
    done := [];
    ghost var path := seen.refs;
    ghost var all := SanitizeItems(h, vs, path);
    assert vs[0..] == vs;
    for i := 0 to |vs|
      invariant seen.refs == path
      invariant all == done + SanitizeItems(h, vs[i..], path)
    {
      NextItem(h, vs, i, path, done);
      var j := SanitizeProtocolDetails(h, vs[i], seen);
      done := done + [if j.Some? then j.value else JNull];
    }
  }

  function Entry(key: string, value: Option<Json>): seq<(string, Json)> {
    if value.Some? then [(key, value.value)] else []
  }

  lemma NextEntry(h: Heap, entries: seq<(string, Value)>, i: nat, seen: set<Ref>, done: seq<(string, Json)>)
    requires Closed(h) && (forall e :: e in entries ==> InHeap(h, e.1)) && i < |entries|
    ensures done + SanitizeEntries(h, entries[i..], seen)
         == done + Entry(entries[i].0, Sanitize(h, entries[i].1, seen)) + SanitizeEntries(h, entries[i + 1..], seen)
  {
    assert entries[i..][0] == entries[i] && entries[i..][1..] == entries[i + 1..];
  }

  method SanitizeObject(h: Heap, entries: seq<(string, Value)>, seen: RefSet) returns (done: seq<(string, Json)>)
    requires Closed(h) && forall e :: e in entries ==> InHeap(h, e.1)
    modifies seen
    ensures done == SanitizeEntries(h, entries, old(seen.refs)) && seen.refs == old(seen.refs)
    decreases h.Keys - seen.refs, 1
  {
    done := [];
    ghost var path := seen.refs;
    ghost var all := SanitizeEntries(h, entries, path);
    assert entries[0..] == entries;
    for i := 0 to |entries|
      invariant seen.refs == path
      invariant all == done + SanitizeEntries(h, entries[i..], path)
    {
      NextEntry(h, entries, i, path, done);
      var j := SanitizeProtocolDetails(h, entries[i].1, seen);
      done := done + Entry(entries[i].0, j);
    }
  }

  // ---------------------------------------------------------------- success is acyclicity of what can be reached

  /** A path through the graph: each node holds a reference to the next. */
  ghost predicate IsPath(h: Heap, p: seq<Ref>) {
    && p != []
    && (forall i :: 0 <= i < |p| ==> p[i] in h)
    && (forall i :: 0 <= i < |p| - 1 ==> Object(p[i + 1]) in Children(h[p[i]]))
  }

  /** A node whose own kind and whose own plain values the JSON conversion allows. */
  predicate JsonNode(node: Node) {
    && !node.DateNode?
    && (node.ObjectNode? ==> node.prototype != OtherPrototype)
    && forall v :: v in Children(node) ==> v.Object? || JsonLeaf(v)
  }

  predicate JsonLeaf(v: Value) {
    v.Null? || v.Bool? || v.Str? || (v.Num? && v.number.Finite?)
  }

  predicate ProtocolNode(node: Node) {
    && !node.DateNode?
    && (node.ObjectNode? ==> node.prototype == ObjectPrototype)
    && forall v :: v in Children(node) ==> v.Object? || ProtocolLeaf(v, node.ObjectNode?)
  }

  predicate ProtocolLeaf(v: Value, optionalProperty: bool) {
    v.Null? || v.Bool? || v.Str? || v.Num? || (v.Undefined? && optionalProperty)
  }

  /** Every path from `r` is simple, avoids `ancestors`, and visits only nodes that `allowed` accepts. */
  ghost predicate GoodFrom(h: Heap, r: Ref, ancestors: set<Ref>, allowed: Node -> bool) {
    forall p :: IsPath(h, p) && p[0] == r ==> GoodPath(h, p, ancestors, allowed)
  }

  ghost predicate GoodPath(h: Heap, p: seq<Ref>, ancestors: set<Ref>, allowed: Node -> bool)
    requires IsPath(h, p)
  {
    NoRepeats(p) && (forall i :: 0 <= i < |p| ==> p[i] !in ancestors && allowed(h[p[i]]))
  }

  /** One step of a walk, as the path predicate sees it. */
  lemma GoodFromUnfolds(h: Heap, r: Ref, ancestors: set<Ref>, allowed: Node -> bool)
    requires Closed(h) && r in h
    ensures GoodFrom(h, r, ancestors, allowed) <==>
      && r !in ancestors && allowed(h[r])
      && forall v :: v in Children(h[r]) && v.Object? ==> GoodFrom(h, v.ref, ancestors + {r}, allowed)
  {
    if GoodFrom(h, r, ancestors, allowed) {
      assert IsPath(h, [r]);
      assert GoodPath(h, [r], ancestors, allowed);
      assert [r][0] == r;
      forall v, p | v in Children(h[r]) && v.Object? && IsPath(h, p) && p[0] == v.ref
        ensures GoodPath(h, p, ancestors + {r}, allowed)
      {
        var q := [r] + p;
        assert v == Object(v.ref);
        assert IsPath(h, q) by {
          forall i | 0 <= i < |q| - 1 ensures Object(q[i + 1]) in Children(h[q[i]]) {
            if i > 0 { assert q[i] == p[i - 1] && q[i + 1] == p[i]; }
          }
        }
        assert GoodPath(h, q, ancestors, allowed);
        forall i | 0 <= i < |p| ensures p[i] !in ancestors + {r} && allowed(h[p[i]]) {
          assert q[i + 1] == p[i] && q[0] == r;
        }
        assert NoRepeats(p) by {
          forall i, j | 0 <= i < j < |p| ensures p[i] != p[j] { assert q[i + 1] == p[i] && q[j + 1] == p[j]; }
        }
      }
    }
    if && r !in ancestors && allowed(h[r])
       && forall v :: v in Children(h[r]) && v.Object? ==> GoodFrom(h, v.ref, ancestors + {r}, allowed)
    {
      forall p | IsPath(h, p) && p[0] == r ensures GoodPath(h, p, ancestors, allowed) {
        if |p| > 1 {
          var tail := p[1..];
          assert Object(p[1]) in Children(h[r]);
          assert IsPath(h, tail) by {
            forall i | 0 <= i < |tail| - 1 ensures Object(tail[i + 1]) in Children(h[tail[i]]) {
              assert tail[i] == p[i + 1] && tail[i + 1] == p[i + 2];
            }
          }
          assert GoodPath(h, tail, ancestors + {r}, allowed);
          forall i | 0 <= i < |p| ensures p[i] !in ancestors && allowed(h[p[i]]) {
            if i > 0 { assert p[i] == tail[i - 1]; }
          }
          forall i, j | 0 <= i < j < |p| ensures p[i] != p[j] {
            assert p[j] == tail[j - 1];
            if i > 0 { assert p[i] == tail[i - 1]; }
          }
        }
      }
    }
  }

  /** The JSON conversion succeeds on an object exactly when what it reaches is acyclic and allowed. */
  lemma {:induction false} ToJsonIffGood(h: Heap, r: Ref, seen: set<Ref>)
    requires Closed(h) && r in h
    ensures ToJson(h, Object(r), seen).Some? <==> GoodFrom(h, r, seen, JsonNode)
    decreases h.Keys - seen
  {
    GoodFromUnfolds(h, r, seen, JsonNode);
    if r !in seen {
      ToJsonAllIffEach(h, Children(h[r]), seen + {r});
      forall v | v in Children(h[r]) && v.Object?
        ensures ToJson(h, v, seen + {r}).Some? <==> GoodFrom(h, v.ref, seen + {r}, JsonNode)
      {
        ToJsonIffGood(h, v.ref, seen + {r});
      }
    }
  }

  lemma {:induction false} ToJsonAllIffEach(h: Heap, vs: seq<Value>, seen: set<Ref>)
    requires Closed(h) && forall v :: v in vs ==> InHeap(h, v)
    ensures ToJsonAll(h, vs, seen).Some? <==> forall v :: v in vs ==> ToJson(h, v, seen).Some?
    decreases |vs|
  {
    if vs != [] {
      ToJsonAllIffEach(h, vs[1..], seen);
      assert vs[0] in vs && forall v :: v in vs[1..] ==> v in vs;
      forall v | v in vs && v != vs[0] ensures v in vs[1..] {
        assert vs == [vs[0]] + vs[1..];
      }
    }
  }

  /** `isProtocolValue` likewise, with its own idea of an allowed node. */
  lemma {:induction false} IsProtocolIffGood(h: Heap, r: Ref, optionalProperty: bool, ancestors: set<Ref>)
    requires Closed(h) && r in h
    ensures IsProtocolValue(h, Object(r), optionalProperty, ancestors) <==> GoodFrom(h, r, ancestors, ProtocolNode)
    decreases h.Keys - ancestors
  {
    GoodFromUnfolds(h, r, ancestors, ProtocolNode);
    if r !in ancestors {
      EveryIffEach(h, Children(h[r]), h[r].ObjectNode?, ancestors + {r});
      forall v | v in Children(h[r]) && v.Object?
        ensures IsProtocolValue(h, v, h[r].ObjectNode?, ancestors + {r})
           <==> GoodFrom(h, v.ref, ancestors + {r}, ProtocolNode)
      {
        IsProtocolIffGood(h, v.ref, h[r].ObjectNode?, ancestors + {r});
      }
    }
  }

  lemma {:induction false} EveryIffEach(h: Heap, vs: seq<Value>, optionalProperty: bool, ancestors: set<Ref>)
    requires Closed(h) && forall v :: v in vs ==> InHeap(h, v)
    ensures Every(h, vs, optionalProperty, ancestors)
       <==> forall v :: v in vs ==> IsProtocolValue(h, v, optionalProperty, ancestors)
    decreases |vs|
  {
    if vs != [] {
      EveryIffEach(h, vs[1..], optionalProperty, ancestors);
      assert vs[0] in vs && forall v :: v in vs[1..] ==> v in vs;
      forall v | v in vs && v != vs[0] ensures v in vs[1..] {
        assert vs == [vs[0]] + vs[1..];
      }
    }
  }

  /** Any value, not only objects: the conversion's exact success condition. */
  lemma ToJsonSucceedsExactly(h: Heap, v: Value)
    requires Closed(h) && InHeap(h, v)
    ensures ToJson(h, v, {}).Some? <==> if v.Object? then GoodFrom(h, v.ref, {}, JsonNode) else JsonLeaf(v)
  {
    if v.Object? { ToJsonIffGood(h, v.ref, {}); }
  }

  lemma IsProtocolSucceedsExactly(h: Heap, v: Value)
    requires Closed(h) && InHeap(h, v)
    ensures IsProtocolValue(h, v, false, {})
       <==> if v.Object? then GoodFrom(h, v.ref, {}, ProtocolNode) else ProtocolLeaf(v, false)
  {
    if v.Object? { IsProtocolIffGood(h, v.ref, false, {}); }
  }

  // ---------------------------------------------------------------- what the conversion produces

  /** The value `v` of heap `h` is the tree `j`, built of plain objects and arrays; subtrees may be shared. */
  ghost predicate Realizes(h: Heap, v: Value, j: Json)
    decreases j
  {
    match j
    case JNull => v == Null
    case JBool(b) => v == Bool(b)
    case JNum(n) => v == Num(Finite(n))
    case JStr(s) => v == Str(s)
    case JArray(items) =>
      && v.Object? && v.ref in h && h[v.ref].ArrayNode? && |h[v.ref].items| == |items|
      && forall i :: 0 <= i < |items| ==> Realizes(h, h[v.ref].items[i], items[i])
    case JObject(entries) =>
      && v.Object? && v.ref in h && h[v.ref].ObjectNode? && h[v.ref].prototype == ObjectPrototype
      && |h[v.ref].entries| == |entries|
      && forall i :: 0 <= i < |entries| ==>
           h[v.ref].entries[i].0 == entries[i].0 && Realizes(h, h[v.ref].entries[i].1, entries[i].1)
  }

  /** A graph value is at most one tree. */
  lemma {:induction false} RealizesOnce(h: Heap, v: Value, j: Json, k: Json)
    requires Realizes(h, v, j) && Realizes(h, v, k)
    ensures j == k
    decreases j
  {
    match j {
      case JArray(items) =>
        forall i | 0 <= i < |items| ensures items[i] == k.items[i] {
          RealizesOnce(h, h[v.ref].items[i], items[i], k.items[i]);
        }
      case JObject(entries) =>
        forall i | 0 <= i < |entries| ensures entries[i] == k.entries[i] {
          RealizesOnce(h, h[v.ref].entries[i].1, entries[i].1, k.entries[i].1);
        }
      case _ =>
    }
  }

  ghost function Height(j: Json): nat
    decreases j, 1
  {
    match j
    case JArray(items) => 1 + MaxHeight(j, items)
    case JObject(entries) => 1 + MaxHeight(j, Seconds(entries))
    case _ => 0
  }

  ghost function MaxHeight(parent: Json, js: seq<Json>): (m: nat)
    requires forall i :: 0 <= i < |js| ==> js[i] < parent
    ensures forall i :: 0 <= i < |js| ==> Height(js[i]) <= m
    decreases parent, 0, |js|
  {
    if js == [] then 0
    else
      var a, b := Height(js[0]), MaxHeight(parent, js[1..]);
      assert forall i :: 0 < i < |js| ==> js[i] == js[1..][i - 1];
      if a > b then a else b
  }

  /** The ancestors realize taller trees, so a realizing walk never meets one of them again. */
  ghost predicate TallAncestors(h: Heap, ancestors: map<Ref, Json>, height: nat) {
    forall a :: a in ancestors ==> Realizes(h, Object(a), ancestors[a]) && Height(ancestors[a]) > height
  }

  /** Realized trees pass `isProtocolValue` and convert to themselves. */
  lemma {:induction false} RealizedIsAccepted(h: Heap, v: Value, j: Json, optionalProperty: bool,
      ancestors: map<Ref, Json>)
    requires Closed(h) && InHeap(h, v) && Realizes(h, v, j) && TallAncestors(h, ancestors, Height(j))
    ensures IsProtocolValue(h, v, optionalProperty, ancestors.Keys)
    ensures ToJson(h, v, ancestors.Keys) == Some(j)
    decreases j, 1
  {
    if j.JArray? || j.JObject? {
      var r := v.ref;
      if r in ancestors { RealizesOnce(h, v, j, ancestors[r]); }
      var path := ancestors[r := j];
      assert path.Keys == ancestors.Keys + {r};
      var js := if j.JArray? then j.items else Seconds(j.entries);
      RealizedChildren(h, j, Children(h[r]), js, h[r].ObjectNode?, path);
      if j.JObject? {
        assert WithKeys(h[r].entries, js) == j.entries;
      }
    }
  }

  function Seconds(entries: seq<(string, Json)>): (js: seq<Json>)
    ensures |js| == |entries| && forall i :: 0 <= i < |js| ==> js[i] == entries[i].1
  {
    seq(|entries|, i requires 0 <= i < |entries| => entries[i].1)
  }

  lemma {:induction false} RealizedChildren(
      h: Heap, parent: Json, vs: seq<Value>, js: seq<Json>, optionalProperty: bool, path: map<Ref, Json>)
    requires Closed(h) && |vs| == |js| && forall v :: v in vs ==> InHeap(h, v)
    requires forall i :: 0 <= i < |js| ==> js[i] < parent && Realizes(h, vs[i], js[i])
    requires forall i :: 0 <= i < |js| ==> TallAncestors(h, path, Height(js[i]))
    ensures Every(h, vs, optionalProperty, path.Keys)
    ensures ToJsonAll(h, vs, path.Keys) == Some(js)
    decreases parent, 0, |vs|
  {
    if vs != [] {
      assert vs[0] in vs;
      RealizedIsAccepted(h, vs[0], js[0], optionalProperty, path);
      RealizedChildren(h, parent, vs[1..], js[1..], optionalProperty, path);
      assert js == [js[0]] + js[1..];
    }
  }

  /**
   * Whatever the conversion accepts, any plain allocation of its result is a valid protocol value and
   * converts to itself.
   */
  lemma ConvertedIsAccepted(h: Heap, v: Value, h': Heap, v': Value)
    requires Closed(h) && InHeap(h, v) && ToJson(h, v, {}).Some?
    requires Closed(h') && InHeap(h', v') && Realizes(h', v', ToJson(h, v, {}).value)
    ensures IsProtocolValue(h', v', false, {})
    ensures ToJson(h', v', {}) == ToJson(h, v, {})
  {
    var none: map<Ref, Json> := map[];
    assert none.Keys == {};
    RealizedIsAccepted(h', v', ToJson(h, v, {}).value, false, none);
  }

  /** Sanitizing changes nothing that the strict conversion accepts. */
  lemma {:induction false} SanitizeAgrees(h: Heap, v: Value, seen: set<Ref>)
    requires Closed(h) && InHeap(h, v) && ToJson(h, v, seen).Some?
    ensures Sanitize(h, v, seen) == ToJson(h, v, seen)
    decreases h.Keys - seen, 1, 0
  {
    if v.Object? {
      var r := v.ref;
      match h[r] {
        case ArrayNode(items) => SanitizeItemsAgrees(h, items, seen + {r});
        case ObjectNode(_, entries) =>
          EntriesInHeap(h, r);
          SanitizeEntriesAgrees(h, entries, Children(h[r]), seen + {r});
      }
    }
  }

  lemma {:induction false} SanitizeItemsAgrees(h: Heap, vs: seq<Value>, seen: set<Ref>)
    requires Closed(h) && forall v :: v in vs ==> InHeap(h, v)
    requires ToJsonAll(h, vs, seen).Some?
    ensures SanitizeItems(h, vs, seen) == ToJsonAll(h, vs, seen).value
    decreases h.Keys - seen, 2, |vs|
  {
    if vs != [] {
      SanitizeAgrees(h, vs[0], seen);
      SanitizeItemsAgrees(h, vs[1..], seen);
    }
  }

  lemma {:induction false} SanitizeEntriesAgrees(h: Heap, entries: seq<(string, Value)>, vs: seq<Value>, seen: set<Ref>)
    requires Closed(h) && |vs| == |entries| && forall i :: 0 <= i < |vs| ==> vs[i] == entries[i].1
    requires (forall v :: v in vs ==> InHeap(h, v)) && (forall e :: e in entries ==> InHeap(h, e.1))
    requires ToJsonAll(h, vs, seen).Some?
    ensures SanitizeEntries(h, entries, seen) == WithKeys(entries, ToJsonAll(h, vs, seen).value)
    decreases h.Keys - seen, 2, |vs|
  {
    if vs != [] {
      SanitizeAgrees(h, vs[0], seen);
      SanitizeEntriesAgrees(h, entries[1..], vs[1..], seen);
      var js := ToJsonAll(h, vs, seen).value;
      assert WithKeys(entries, js) == [(entries[0].0, js[0])] + WithKeys(entries[1..], js[1..]);
    }
  }

  // ---------------------------------------------------------------- every tree has such an allocation

  ghost predicate Extends(h: Heap, h': Heap) {
    forall r :: r in h ==> r in h' && h'[r] == h[r]
  }

  lemma {:induction false} RealizesInExtension(h: Heap, h': Heap, v: Value, j: Json)
    requires Extends(h, h') && Realizes(h, v, j)
    ensures Realizes(h', v, j)
    decreases j
  {
    match j {
      case JArray(items) =>
        forall i | 0 <= i < |items| ensures Realizes(h', h[v.ref].items[i], items[i]) {
          RealizesInExtension(h, h', h[v.ref].items[i], items[i]);
        }
      case JObject(entries) =>
        forall i | 0 <= i < |entries| ensures Realizes(h', h[v.ref].entries[i].1, entries[i].1) {
          RealizesInExtension(h, h', h[v.ref].entries[i].1, entries[i].1);
        }
      case _ =>
    }
  }

  lemma FreshRef(h: Heap) returns (r: Ref)
    ensures r !in h
  {
    var keys := h.Keys;
    r := 0;
    while keys != {}
      invariant forall k :: k in h && k !in keys ==> k < r
      decreases |keys|
    {
      var k :| k in keys;
      keys := keys - {k};
      if r <= k { r := k + 1; }
    }
  }

  lemma AddNodeKeepsClosed(h: Heap, r: Ref, node: Node)
    requires Closed(h) && r !in h
    requires forall i :: 0 <= i < |Children(node)| ==> InHeap(h, Children(node)[i])
    ensures Closed(h[r := node])
  {
    var h' := h[r := node];
    forall q, v | q in h' && v in Children(h'[q]) ensures InHeap(h', v) {
      if q == r {
        var i :| 0 <= i < |Children(node)| && Children(node)[i] == v;
      } else {
        assert InHeap(h, v);
      }
    }
  }

  lemma {:induction false} EveryTreeIsRealized(h: Heap, j: Json) returns (h': Heap, v: Value)
    requires Closed(h)
    ensures Closed(h') && Extends(h, h') && InHeap(h', v) && Realizes(h', v, j)
    decreases j, 1
  {
    h' := h;
    match j {
      case JNull => v := Null;
      case JBool(b) => v := Bool(b);
      case JNum(n) => v := Num(Finite(n));
      case JStr(s) => v := Str(s);
      case JArray(items) =>
        var vs;
        h', vs := EveryListIsRealized(h, j, items);
        var r := FreshRef(h');
        var before := h';
        h' := before[r := ArrayNode(vs)];
        AddNodeKeepsClosed(before, r, ArrayNode(vs));
        v := Object(r);
        assert h'[r].items == vs;
        forall i | 0 <= i < |items| ensures Realizes(h', vs[i], items[i]) {
          RealizesInExtension(before, h', vs[i], items[i]);
        }
      case JObject(entries) =>
        var vs;
        h', vs := EveryListIsRealized(h, j, Seconds(entries));
        var r := FreshRef(h');
        var before := h';
        var own := seq(|entries|, i requires 0 <= i < |entries| => (entries[i].0, vs[i]));
        var node := ObjectNode(ObjectPrototype, own);
        assert Children(node) == vs;
        h' := before[r := node];
        AddNodeKeepsClosed(before, r, node);
        v := Object(r);
        forall i | 0 <= i < |entries| ensures Realizes(h', own[i].1, entries[i].1) {
          RealizesInExtension(before, h', vs[i], entries[i].1);
        }
    }
  }

  lemma {:induction false} EveryListIsRealized(h: Heap, parent: Json, js: seq<Json>) returns (h': Heap, vs: seq<Value>)
    requires Closed(h) && forall i :: 0 <= i < |js| ==> js[i] < parent
    ensures Closed(h') && Extends(h, h') && |vs| == |js|
    ensures forall i :: 0 <= i < |js| ==> InHeap(h', vs[i]) && Realizes(h', vs[i], js[i])
    decreases parent, 0, |js|
  {
    if js == [] {
      h', vs := h, [];
    } else {
      var first, v, rest;
      first, v := EveryTreeIsRealized(h, js[0]);
      h', rest := EveryListIsRealized(first, parent, js[1..]);
      RealizesInExtension(first, h', v, js[0]);
      vs := [v] + rest;
    }
  }

  // ---------------------------------------------------------------- what the lossy walk shows

  /** Values that JSON has no place for: an array shows null for them, an object nothing. */
  predicate Vanishes(v: Value) { v.Undefined? || v.Opaque? }

  /** The positions of the entries that an object shows, in order. */
  function ShownEntries(entries: seq<(string, Value)>): (shown: seq<nat>)
    ensures forall i :: 0 <= i < |shown| ==> shown[i] < |entries| && !Vanishes(entries[shown[i]].1)
    ensures forall i, j :: 0 <= i < j < |shown| ==> shown[i] < shown[j]
    ensures forall k: nat :: k < |entries| && !Vanishes(entries[k].1) ==> k in shown
  {
    if entries == [] then []
    else
      var n := |entries| - 1;
      var before := ShownEntries(entries[..n]);
      assert forall k :: 0 <= k < n ==> entries[k] == entries[..n][k];
      if Vanishes(entries[n].1) then before
      else
        assert n in before + [n] && forall k :: k in before ==> k in before + [n];
        before + [n]
  }

  /**
   * The tree j shows the value v reached along `path`: leaves show what they are, with texts for what JSON cannot
   * say; a date shows its text; a reference back to the path shows "[Circular]"; arrays show all their items, and
   * objects those of their entries that do not vanish, in order.
   */
  ghost predicate Shows(h: Heap, v: Value, path: set<Ref>, j: Json)
    decreases j
  {
    match v
    case Undefined => false
    case Opaque => false
    case Null => j == JNull
    case Bool(b) => j == JBool(b)
    case Str(s) => j == JStr(s)
    case BigInt(_, digits) => j == JStr(digits)
    case Num(Finite(n)) => j == JNum(n)
    case Num(NaN) => j == JStr("NaN")
    case Num(Infinite(negative)) => j == JStr(if negative then "-Infinity" else "Infinity")
    case Object(r) =>
      r in h &&
      if h[r].DateNode? then j == JStr(h[r].iso)
      else if r in path then j == JStr("[Circular]")
      else if h[r].ArrayNode? then
        && j.JArray? && |j.items| == |h[r].items|
        && forall i :: 0 <= i < |j.items| ==> ShowsItem(h, h[r].items[i], path + {r}, j, i)
      else
        && j.JObject? && |j.entries| == |ShownEntries(h[r].entries)|
        && forall i :: 0 <= i < |j.entries| ==>
             var entry := h[r].entries[ShownEntries(h[r].entries)[i]];
             j.entries[i].0 == entry.0 && Shows(h, entry.1, path + {r}, j.entries[i].1)
  }

  ghost predicate ShowsItem(h: Heap, v: Value, path: set<Ref>, parent: Json, i: nat)
    requires parent.JArray? && i < |parent.items|
    decreases parent, 0
  {
    if Vanishes(v) then parent.items[i] == JNull else Shows(h, v, path, parent.items[i])
  }

  /** For every graph, shared or cyclic: a value vanishes or the lossy walk gives the tree that shows it. */
  lemma {:induction false} SanitizeShows(h: Heap, v: Value, seen: set<Ref>)
    requires Closed(h) && InHeap(h, v)
    ensures Sanitize(h, v, seen).None? <==> Vanishes(v)
    ensures !Vanishes(v) ==> Shows(h, v, seen, Sanitize(h, v, seen).value)
    decreases h.Keys - seen, 1, 0
  {
    if v.Object? && v.ref !in seen {
      var r := v.ref;
      match h[r] {
        case DateNode(_) =>
        case ArrayNode(items) => SanitizeItemsShow(h, items, seen + {r});
        case ObjectNode(_, entries) =>
          EntriesInHeap(h, r);
          SanitizeEntriesShow(h, entries, seen + {r});
          var js := SanitizeEntries(h, entries, seen + {r});
          forall i | 0 <= i < |js|
            ensures var entry := entries[ShownEntries(entries)[i]];
              js[i].0 == entry.0 && Shows(h, entry.1, seen + {r}, js[i].1)
          {
            assert ShowsEntry(h, entries[ShownEntries(entries)[i]], seen + {r}, js[i]);
          }
      }
    }
  }

  lemma {:induction false} SanitizeItemsShow(h: Heap, vs: seq<Value>, seen: set<Ref>)
    requires Closed(h) && forall v :: v in vs ==> InHeap(h, v)
    ensures forall i :: 0 <= i < |vs| ==> ShowsItem(h, vs[i], seen, JArray(SanitizeItems(h, vs, seen)), i)
    decreases h.Keys - seen, 2, |vs|
  {
    if vs != [] {
      SanitizeShows(h, vs[0], seen);
      SanitizeItemsShow(h, vs[1..], seen);
      var rest := JArray(SanitizeItems(h, vs[1..], seen));
      forall i | 0 <= i < |vs| ensures ShowsItem(h, vs[i], seen, JArray(SanitizeItems(h, vs, seen)), i) {
        if i > 0 { assert ShowsItem(h, vs[1..][i - 1], seen, rest, i - 1); }
      }
    }
  }

  lemma {:induction false} SanitizeEntriesShow(h: Heap, entries: seq<(string, Value)>, seen: set<Ref>)
    requires Closed(h) && forall e :: e in entries ==> InHeap(h, e.1)
    ensures ShowsEntries(h, entries, seen, SanitizeEntries(h, entries, seen))
    decreases h.Keys - seen, 2, |entries|
  {
    if entries != [] {
      var n := |entries| - 1;
      var before := entries[..n];
      SanitizeEntriesShow(h, before, seen);
      SanitizeShows(h, entries[n].1, seen);
      SanitizeEntriesSnoc(h, before, entries[n], seen);
      ShowsOneMore(h, before, entries[n], seen, SanitizeEntries(h, before, seen), Sanitize(h, entries[n].1, seen));
      assert entries == before + [entries[n]];
    }
  }

  ghost predicate ShowsEntries(h: Heap, entries: seq<(string, Value)>, path: set<Ref>, js: seq<(string, Json)>) {
    && |js| == |ShownEntries(entries)|
    && forall i :: 0 <= i < |js| ==> ShowsEntry(h, entries[ShownEntries(entries)[i]], path, js[i])
  }

  ghost predicate ShowsEntry(h: Heap, entry: (string, Value), path: set<Ref>, shown: (string, Json)) {
    shown.0 == entry.0 && Shows(h, entry.1, path, shown.1)
  }

  lemma ShowsOneMore(h: Heap, entries: seq<(string, Value)>, e: (string, Value), path: set<Ref>,
                     js: seq<(string, Json)>, j: Option<Json>)
    requires ShowsEntries(h, entries, path, js)
    requires (j.None? <==> Vanishes(e.1)) && (j.Some? ==> Shows(h, e.1, path, j.value))
    ensures ShowsEntries(h, entries + [e], path, js + Entry(e.0, j))
  {
    var more, all := entries + [e], js + Entry(e.0, j);
    assert more[..|entries|] == entries;
    assert ShownEntries(more) == ShownEntries(entries) + if Vanishes(e.1) then [] else [|entries|];
    forall i | 0 <= i < |all| ensures ShowsEntry(h, more[ShownEntries(more)[i]], path, all[i]) {
      if i < |js| { assert ShowsEntry(h, entries[ShownEntries(entries)[i]], path, js[i]); }
    }
  }

  lemma {:induction false} SanitizeEntriesSnoc(
      h: Heap, entries: seq<(string, Value)>, e: (string, Value), seen: set<Ref>)
    requires Closed(h) && InHeap(h, e.1) && forall e :: e in entries ==> InHeap(h, e.1)
    ensures forall e' :: e' in entries + [e] ==> InHeap(h, e'.1)
    ensures SanitizeEntries(h, entries + [e], seen)
         == SanitizeEntries(h, entries, seen) + Entry(e.0, Sanitize(h, e.1, seen))
    decreases |entries|
  {
    var more := entries + [e];
    if entries == [] {
      assert more[1..] == [];
      FirstEntry(h, more, seen);
    } else {
      SanitizeEntriesSnoc(h, entries[1..], e, seen);
      assert more[1..] == entries[1..] + [e] && more[0] == entries[0];
      FirstEntry(h, entries, seen);
      FirstEntry(h, more, seen);
    }
  }

  lemma FirstEntry(h: Heap, entries: seq<(string, Value)>, seen: set<Ref>)
    requires Closed(h) && entries != [] && forall e :: e in entries ==> InHeap(h, e.1)
    ensures SanitizeEntries(h, entries, seen)
         == Entry(entries[0].0, Sanitize(h, entries[0].1, seen)) + SanitizeEntries(h, entries[1..], seen)
  {
  }
}
