/**
 * Dot-separated selectors on the object graph of an engine: selecting, defining and removing properties
 * on the value stack. Objects may be shared, may refer to each other in circles, and inherit the
 * properties of their prototypes.
 */
module Selector {
  import opened Common

  datatype Value = Undefined | Number(n: int) | Text(s: string) | Obj(ref: nat)

  /** Its own properties, and the objects it inherits from, nearest first: what its prototype links lead to. */
  datatype Object = Object(props: map<string, Value>, protos: seq<nat>)

  type Heap = map<nat, Object>

  const GLOBAL := Obj(0)
  const OBJECT_PROTOTYPE: nat := 1

  /** The heap of a new engine. */
  const EMPTY: Heap := map[0 := Object(map[], [OBJECT_PROTOTYPE]), OBJECT_PROTOTYPE := Object(map[], [])]

  // ---------- Properties ----------

  /** What looking something up ends with. */
  datatype Lookup = Found(value: Value) | NotFound | TypeError

  /** A property of the object itself. */
  function Own(h: Heap, ref: nat, key: string): (r: Lookup)
    ensures r != TypeError
  {
    if ref in h && key in h[ref].props then Found(h[ref].props[key]) else NotFound
  }

  /** The objects that are asked for a property, in order. */
  function Chain(h: Heap, ref: nat): seq<nat> {
    [ref] + if ref in h then h[ref].protos else []
  }

  /** The property of the first object that has it. */
  function First(h: Heap, chain: seq<nat>, key: string): (r: Lookup)
    ensures r != TypeError
  {
    if chain == [] then NotFound
    else if Own(h, chain[0], key).Found? then Own(h, chain[0], key)
    else First(h, chain[1..], key)
  }

  /** One property of a value, its own or inherited; asking a primitive is an error. */
  function Get(h: Heap, v: Value, key: string): Lookup {
    if !v.Obj? || v.ref !in h then TypeError else First(h, Chain(h, v.ref), key)
  }

  /** Looking for the key gets as far as the object ref. */
  predicate Asked(h: Heap, chain: seq<nat>, key: string, ref: nat) {
    chain != [] && (chain[0] == ref || (!Own(h, chain[0], key).Found? && Asked(h, chain[1..], key, ref)))
  }

  predicate Asks(h: Heap, v: Value, key: string, ref: nat) {
    IsObject(h, v) && Asked(h, Chain(h, v.ref), key, ref)
  }

  /** What an object would have without its own property. */
  function Inherited(h: Heap, ref: nat, key: string): Lookup {
    if ref in h then First(h, h[ref].protos, key) else NotFound
  }

  predicate IsObject(h: Heap, v: Value) {
    v.Obj? && v.ref in h
  }

  // ---------- Paths ----------

  /** The value at the end of a path. */
  function Walk(h: Heap, v: Value, path: seq<string>): Lookup
    decreases |path|
  {
    if path == [] then Found(v)
    else
      var r := Get(h, v, path[0]);
      if r.Found? then Walk(h, r.value, path[1..]) else r
  }

  /** All values on a path, in order. */
  function Trail(h: Heap, v: Value, path: seq<string>): (r: seq<Value>)
    requires Walk(h, v, path).Found?
    ensures |r| == |path| && (r != [] ==> r[|r| - 1] == Walk(h, v, path).value)
    decreases |path|
  {
    if path == [] then []
    else
      var w := Get(h, v, path[0]).value;
      [w] + Trail(h, w, path[1..])
  }

  // ---------- Names ----------

  predicate IsNameChar(c: char) {
    'a' <= c <= 'z' || 'A' <= c <= 'Z' || '0' <= c <= '9' || c == '_'
  }

  predicate IsWord(s: string) {
    forall i :: 0 <= i < |s| ==> IsNameChar(s[i])
  }

  /**
   * The path that the rest of a name spells, s being the part begun. Every dot must end a non-empty part;
   * so one dot at the end is allowed.
   */
  function PathFrom(s: string, name: string): Option<seq<string>>
    decreases |name|
  {
    if name == "" then Some(if s == "" then [] else [s])
    else if name[0] == '.' then
      if s == "" then None
      else
        var r := PathFrom("", name[1..]);
        if r.None? then None else Some([s] + r.value)
    else if !IsNameChar(name[0]) then None
    else PathFrom(s + [name[0]], name[1..])
  }

  function Path(name: string): Option<seq<string>> {
    PathFrom("", name)
  }

  /** Base and tail around the last dot; an error for nothing before or after it, or for no name at all. */
  datatype Split = Split(base: string, tail: string) | Invalid

  function LastDot(name: string): (p: int)
    ensures -1 <= p < |name|
    ensures p >= 0 ==> name[p] == '.'
  {
    if name == "" then -1
    else if name[|name| - 1] == '.' then |name| - 1
    else LastDot(name[..|name| - 1])
  }

  lemma {:induction false} LastDotIsLast(name: string)
    ensures forall i :: LastDot(name) < i < |name| ==> name[i] != '.'
  {
    if name != "" && name[|name| - 1] != '.' {
      var front := name[..|name| - 1];
      LastDotIsLast(front);
      assert forall i :: 0 <= i < |front| ==> name[i] == front[i];
    }
  }

  function SplitSelector(name: string): Split {
    var p := LastDot(name);
    if p < 0 then if name == "" then Invalid else Split("", name)
    else if p == 0 || p == |name| - 1 then Invalid
    else Split(name[..p], name[p + 1..])
  }

  /** The path that the part before the last dot spells, and the part behind it. */
  function BasePath(name: string): seq<string> {
    match SplitSelector(name)
    case Invalid => []
    case Split(base, _) => if Path(base).Some? then Path(base).value else []
  }

  function LastPart(name: string): string {
    match SplitSelector(name)
    case Invalid => ""
    case Split(_, tail) => tail
  }

  // ---------- Defining ----------

  datatype Built = Built(heap: Heap, next: nat, result: BuildResult)

  datatype BuildResult = Reached(value: Value) | InvalidName | NoObject

  /** A heap with one more object, empty and with the usual prototype. */
  function Allocate(h: Heap, next: nat): Heap {
    h[next := Object(map[], Chain(h, OBJECT_PROTOTYPE))]
  }

  function SetProp(h: Heap, ref: nat, key: string, v: Value): Heap
    requires ref in h
  {
    h[ref := h[ref].(props := h[ref].props[key := v])]
  }

  function DelProp(h: Heap, ref: nat, key: string): Heap
    requires ref in h
  {
    h[ref := h[ref].(props := h[ref].props - {key})]
  }

  /** Follows one property and creates an empty object where there is none. */
  function Descend(h: Heap, next: nat, v: Value, key: string): Built {
    var r := Get(h, v, key);
    match r
    case TypeError => Built(h, next, NoObject)
    case Found(w) => Built(h, next, Reached(w))
    case NotFound => Built(SetProp(Allocate(h, next), v.ref, key, Obj(next)), next + 1, Reached(Obj(next)))
  }

  function Build(h: Heap, next: nat, v: Value, path: seq<string>): Built
    decreases |path|
  {
    if path == [] then Built(h, next, Reached(v))
    else
      var b := Descend(h, next, v, path[0]);
      if b.result.Reached? then Build(b.heap, b.next, b.result.value, path[1..]) else b
  }

  // ---------- Scanning ----------

  /** What selecting the rest of a name finds, and the values it pushes on the way. */
  function ScanSelect(h: Heap, v: Value, s: string, name: string): (Lookup, seq<Value>)
    decreases |name|
  {
    if name == "" then
      if s == "" then (Found(v), [])
      else
        var r := Get(h, v, s);
        (r, if r.Found? then [r.value] else [])
    else if name[0] == '.' then
      if s == "" then (NotFound, [])
      else
        var r := Get(h, v, s);
        if !r.Found? then (r, [])
        else
          var t := ScanSelect(h, r.value, "", name[1..]);
          (t.0, [r.value] + t.1)
    else if !IsNameChar(name[0]) then (NotFound, [])
    else ScanSelect(h, v, s + [name[0]], name[1..])
  }

  function ScanDefine(h: Heap, next: nat, v: Value, s: string, name: string): Built
    decreases |name|
  {
    if name == "" then
      if s == "" then Built(h, next, Reached(v)) else Descend(h, next, v, s)
    else if name[0] == '.' then
      if s == "" then Built(h, next, InvalidName)
      else
        var b := Descend(h, next, v, s);
        if b.result.Reached? then ScanDefine(b.heap, b.next, b.result.value, "", name[1..]) else b
    else if !IsNameChar(name[0]) then Built(h, next, InvalidName)
    else ScanDefine(h, next, v, s + [name[0]], name[1..])
  }

  /** Selecting a name is walking its path; a name without a path selects nothing. */
  lemma {:induction false} ScanIsWalk(h: Heap, v: Value, s: string, name: string)
    ensures var r, path := ScanSelect(h, v, s, name), PathFrom(s, name);
      if path.Some?
      then r.0 == Walk(h, v, path.value) && (r.0.Found? ==> r.1 == Trail(h, v, path.value))
      else !r.0.Found?
    decreases |name|
  {
    hide Get;
    if name == "" {
      if s != "" {
        assert [s][1..] == [];
      }
    } else if name[0] == '.' {
      if s != "" {
        var r, rest := Get(h, v, s), PathFrom("", name[1..]);
        if r.Found? {
          ScanIsWalk(h, r.value, "", name[1..]);
        }
        if rest.Some? {
          assert ([s] + rest.value)[1..] == rest.value;
        }
      }
    } else if IsNameChar(name[0]) {
      ScanIsWalk(h, v, s + [name[0]], name[1..]);
    }
  }

  /** Defining the objects of a name is building its path; a name without a path ends in an error. */
  lemma {:induction false} ScanIsBuild(h: Heap, next: nat, v: Value, s: string, name: string)
    ensures var b, path := ScanDefine(h, next, v, s, name), PathFrom(s, name);
      if path.Some? then b == Build(h, next, v, path.value) else !b.result.Reached?
    decreases |name|
  {
    hide Descend;
    if name == "" {
      if s != "" {
        assert [s][1..] == [];
      }
    } else if name[0] == '.' {
      if s != "" {
        var b, rest := Descend(h, next, v, s), PathFrom("", name[1..]);
        if b.result.Reached? {
          ScanIsBuild(b.heap, b.next, b.result.value, "", name[1..]);
        }
        if rest.Some? {
          assert ([s] + rest.value)[1..] == rest.value;
        }
      }
    } else if IsNameChar(name[0]) {
      ScanIsBuild(h, next, v, s + [name[0]], name[1..]);
    }
  }

  // ---------- The operations on values ----------

  datatype Result = Done | BadSelector | BadName | BadTarget

  function AfterDefine(h: Heap, next: nat, name: string, v: Value): (Heap, nat, Result) {
    match SplitSelector(name)
    case Invalid => (h, next, BadSelector)
    case Split(base, tail) =>
      var b := ScanDefine(h, next, GLOBAL, "", base);
      match b.result
      case InvalidName => (b.heap, b.next, BadName)
      case NoObject => (b.heap, b.next, BadTarget)
      case Reached(t) =>
        if IsObject(b.heap, t) then (SetProp(b.heap, t.ref, tail, v), b.next, Done) else (b.heap, b.next, BadTarget)
  }

  /** The removal of an own property, which changes nothing where there is none. */
  function Removed(h: Heap, parent: Lookup, tail: string): (Heap, Result) {
    match parent
    case TypeError => (h, BadTarget)
    case NotFound => (h, Done)
    case Found(v) => if IsObject(h, v) then (DelProp(h, v.ref, tail), Done) else (h, BadTarget)
  }

  function AfterUndef(h: Heap, name: string): (Heap, Result) {
    if name == "" then (h, Done)
    else match SplitSelector(name)
      case Invalid => (h, BadSelector)
      case Split(base, tail) => Removed(h, ScanSelect(h, GLOBAL, "", base).0, tail)
  }

  /** One character of a name, with the values pushed before it. */
  lemma ScanAt(h: Heap, v: Value, s: string, name: string, i: nat, pushed: seq<Value>)
    requires i < |name|
    ensures var c, r, t := name[i], Get(h, v, s), ScanSelect(h, v, s, name[i..]);
      if c == '.' && s != "" && r.Found? then
        var u := ScanSelect(h, r.value, "", name[i + 1..]);
        t.0 == u.0 && pushed + t.1 == pushed + [r.value] + u.1
      else if c == '.' && s != "" then t == (r, [])
      else if c == '.' || !IsNameChar(c) then t == (NotFound, [])
      else t == ScanSelect(h, v, s + [c], name[i + 1..])
  {
    hide Get;
    assert name[i..][1..] == name[i + 1..];
  }

  /** The last value pushed is the one that is found. */
  lemma {:induction false} ScanTop(h: Heap, v: Value, s: string, name: string)
    requires ScanSelect(h, v, s, name).0.Found?
    ensures var t := ScanSelect(h, v, s, name); ([v] + t.1)[|t.1|] == t.0.value
    decreases |name|
  {
    hide Get;
    if name != "" {
      if name[0] == '.' {
        ScanTop(h, Get(h, v, s).value, "", name[1..]);
      } else {
        ScanTop(h, v, s + [name[0]], name[1..]);
      }
    }
  }

  lemma ScanEnd(h: Heap, v: Value, s: string)
    ensures ScanSelect(h, v, s, "") ==
      if s == "" then (Found(v), []) else (Get(h, v, s), if Get(h, v, s).Found? then [Get(h, v, s).value] else [])
  {
  }

  lemma DefineAt(h: Heap, next: nat, v: Value, s: string, name: string, i: nat)
    requires i < |name|
    ensures var c, b, t := name[i], Descend(h, next, v, s), ScanDefine(h, next, v, s, name[i..]);
      if c == '.' && s != "" && b.result.Reached? then
        t == ScanDefine(b.heap, b.next, b.result.value, "", name[i + 1..])
      else if c == '.' && s != "" then t == b
      else if c == '.' || !IsNameChar(c) then t == Built(h, next, InvalidName)
      else t == ScanDefine(h, next, v, s + [c], name[i + 1..])
  {
    hide Descend;
    assert name[i..][1..] == name[i + 1..];
  }

  lemma DefineEnd(h: Heap, next: nat, v: Value, s: string)
    ensures ScanDefine(h, next, v, s, "") == if s == "" then Built(h, next, Reached(v)) else Descend(h, next, v, s)
  {
  }

  // ---------- The engine ----------

  class Engine {
    var heap: Heap
    var next: nat
    var stack: seq<Value>

    constructor ()
      ensures heap == EMPTY && next == 2 && stack == [] && Sound(heap, next)
    {
      heap, next, stack := EMPTY, 2, [];
    }

    method SetTop(n: nat)
      requires n <= |stack|
      modifies `stack
      ensures stack == old(stack)[..n]
    {
      stack := stack[..n];
    }

    /** Pushes a property of the value on top, if it has it. */
    method GetProp(key: string) returns (p: Lookup)
      requires stack != []
      modifies `stack
      ensures p == Get(heap, old(stack)[|old(stack)| - 1], key)
      ensures stack == if p.Found? then old(stack) + [p.value] else old(stack)
    {
      p := Get(heap, stack[|stack| - 1], key);
      if p.Found? {
        stack := stack + [p.value];
      }
    }

    /** Pushes the global object and what the name leads to, as far as it goes. */
    method Scan(name: string) returns (r: Lookup)
      modifies `stack
      ensures var t := ScanSelect(heap, GLOBAL, "", name); r == t.0 && stack == old(stack) + [GLOBAL] + t.1
    {
      hide ScanSelect, Get, IsNameChar;
      stack := stack + [GLOBAL];
      ghost var base := stack;
      ghost var whole, pushed := ScanSelect(heap, GLOBAL, "", name), [];
      var s, i := "", 0;
      assert name[0..] == name && pushed + whole.1 == whole.1 && base + pushed == base;
      while i < |name|
        modifies `stack
        invariant i <= |name| && stack == base + pushed
        invariant var t := ScanSelect(heap, stack[|stack| - 1], s, name[i..]);
          whole.0 == t.0 && whole.1 == pushed + t.1
      {
        var c := name[i];
        ScanAt(heap, stack[|stack| - 1], s, name, i, pushed);
        if c == '.' {
          if s == "" {
            return NotFound;
          }
          r := GetProp(s);
          if !r.Found? {
            return;
          }
          pushed := pushed + [r.value];
          s := "";
        } else if !IsNameChar(c) {
          return NotFound;
        } else {
          s := s + [c];
        }
        i := i + 1;
      }
      assert name[i..] == "";
      ScanEnd(heap, stack[|stack| - 1], s);
      if s != "" {
        r := GetProp(s);
      } else {
        r := Found(stack[|stack| - 1]);
      }
    }

    /** Leaves the value on top of the stack, or the stack as it was. */
    method Select(name: string) returns (r: Lookup)
      modifies `stack
      ensures name == "" ==> r == NotFound && stack == old(stack)
      ensures name != "" ==>
        var t := ScanSelect(heap, GLOBAL, "", name);
        r == t.0 && stack == if r.NotFound? then old(stack) else old(stack) + [GLOBAL] + t.1
      ensures r.Found? ==> stack != [] && stack[|stack| - 1] == r.value
    {
      hide ScanSelect;
      if name == "" {
        return NotFound;
      }
      var initialTop := |stack|;
      r := Scan(name);
      if r.NotFound? {
        SetTop(initialTop);
      } else if r.Found? {
        ScanTop(heap, GLOBAL, "", name);
        assert stack == old(stack) + ([GLOBAL] + ScanSelect(heap, GLOBAL, "", name).1);
      }
    }

    /** Defines an empty object for a key on the value on top, where there is none, and pushes it. */
    method GetObject(key: string) returns (p: BuildResult)
      requires stack != []
      modifies this
      ensures var d := Descend(old(heap), old(next), old(stack)[|old(stack)| - 1], key);
        && heap == d.heap && next == d.next && p == d.result
        && stack == if p.Reached? then old(stack) + [p.value] else old(stack)
    {
      var v := stack[|stack| - 1];
      var q := Get(heap, v, key);
      if q.TypeError? {
        return NoObject;
      }
      if q.NotFound? {
        heap := Allocate(heap, next);
        heap := heap[v.ref := heap[v.ref].(props := heap[v.ref].props[key := Obj(next)])];
        next := next + 1;
        q := Get(heap, v, key);
      }
      stack := stack + [q.value];
      p := Reached(q.value);
    }

    /** Pushes the global object and the objects of the name, which are created where they are missing. */
    method DefineR(name: string) returns (p: BuildResult)
      modifies this
      ensures var b := ScanDefine(old(heap), old(next), GLOBAL, "", name);
        && heap == b.heap && next == b.next && p == b.result
      ensures old(stack) < stack && (p.Reached? ==> stack[|stack| - 1] == p.value)
    {
      hide ScanDefine, Descend, IsNameChar;
      stack := stack + [GLOBAL];
      assert old(stack) < stack;
      if name == "" {
        DefineEnd(heap, next, GLOBAL, "");
        return Reached(GLOBAL);
      }
      ghost var whole := ScanDefine(heap, next, GLOBAL, "", name);
      var s, i := "", 0;
      assert name[0..] == name;
      while i < |name|
        invariant i <= |name| && old(stack) < stack
        invariant whole == ScanDefine(heap, next, stack[|stack| - 1], s, name[i..])
      {
        var c := name[i];
        DefineAt(heap, next, stack[|stack| - 1], s, name, i);
        if c == '.' {
          if s == "" {
            return InvalidName;
          }
          p := GetObject(s);
          if !p.Reached? {
            return;
          }
          s := "";
        } else if !IsNameChar(c) {
          return InvalidName;
        } else {
          s := s + [c];
        }
        i := i + 1;
      }
      assert name[i..] == "";
      DefineEnd(heap, next, stack[|stack| - 1], s);
      if s != "" {
        p := GetObject(s);
      } else {
        p := Reached(stack[|stack| - 1]);
      }
    }

    /** Sets a property in the tail of a name; the stack stays as it is. */
    method Define(name: string, v: Value) returns (r: Result)
      modifies this
      ensures (heap, next, r) == AfterDefine(old(heap), old(next), name, v)
      ensures stack == old(stack)
    {
      hide ScanDefine, SplitSelector, SetProp, IsObject;
      var initialTop := |stack|;
      match SplitSelector(name) {
        case Invalid =>
          return BadSelector;
        case Split(base, tail) =>
          var p := DefineR(base);
          match p {
            case InvalidName =>
              r := BadName;
            case NoObject =>
              r := BadTarget;
            case Reached(_) =>
              stack := stack + [Text(tail)];
              stack := stack + [v];
              r := DefProp();
          }
          SetTop(initialTop);
      }
    }

    /** Sets the property named by the key on the object, [object, key, value] being on top. */
    method DefProp() returns (r: Result)
      requires |stack| >= 3 && stack[|stack| - 2].Text?
      modifies `heap
      ensures var n := |stack|;
        if IsObject(old(heap), stack[n - 3])
        then r == Done && heap == SetProp(old(heap), stack[n - 3].ref, stack[n - 2].s, stack[n - 1])
        else r == BadTarget && heap == old(heap)
    {
      var v := stack[|stack| - 3];
      if !IsObject(heap, v) {
        return BadTarget;
      }
      heap := heap[v.ref := heap[v.ref].(props := heap[v.ref].props[stack[|stack| - 2].s := stack[|stack| - 1]])];
      r := Done;
    }

    /**
     * Removes a property of the object on top, if it has it. An inherited one is first made its own, with
     * no value and free to be deleted; the prototypes keep theirs.
     */
    method DelTop(tail: string) returns (r: Result)
      requires stack != []
      modifies `heap
      ensures (heap, r) == Removed(old(heap), Found(stack[|stack| - 1]), tail)
    {
      var v := stack[|stack| - 1];
      var q := Get(heap, v, tail);
      match q {
        case TypeError =>
          return BadTarget;
        case NotFound =>
          NothingDeleted(heap, v.ref, tail);
        case Found(_) =>
          ForcedDeletion(heap, v.ref, tail);
          heap := heap[v.ref := heap[v.ref].(props := heap[v.ref].props[tail := Undefined])];
          heap := heap[v.ref := heap[v.ref].(props := heap[v.ref].props - {tail})];
      }
      r := Done;
    }

    /** Removes the property that a name selects, if there is one; the stack stays as it is. */
    method Undef(name: string) returns (r: Result)
      modifies `heap, `stack
      ensures (heap, r) == AfterUndef(old(heap), name)
      ensures stack == old(stack)
    {
      ScanEnd(heap, GLOBAL, "");
      hide ScanSelect, SplitSelector;
      if name == "" {
        return Done;
      }
      var initialTop := |stack|;
      match SplitSelector(name) {
        case Invalid =>
          return BadSelector;
        case Split(base, tail) =>
          r := Done;
          if base != "" {
            var p := Select(base);
            if !p.Found? {
              SetTop(initialTop);
              return if p.NotFound? then Done else BadTarget;
            }
          } else {
            stack := stack + [GLOBAL];
          }
          r := DelTop(tail);
          SetTop(initialTop);
      }
    }
  }

  // ---------- Prototypes ----------

  /** Each object of a chain has the rest of it as its prototypes. */
  predicate IsChain(h: Heap, chain: seq<nat>) {
    forall i :: 0 <= i < |chain| ==> chain[i] in h && h[chain[i]].protos == chain[i + 1..]
  }

  /** Objects refer to and inherit from existing objects, and new references are free. */
  ghost predicate Sound(h: Heap, next: nat) {
    && 0 in h && OBJECT_PROTOTYPE in h
    && (forall r <- h :: r < next && IsChain(h, Chain(h, r)))
    && forall r: nat, k: string :: Own(h, r, k).Found? && Own(h, r, k).value.Obj? ==> Own(h, r, k).value.ref in h
  }

  lemma ChainTail(h: Heap, chain: seq<nat>)
    requires IsChain(h, chain) && chain != []
    ensures IsChain(h, chain[1..]) && chain[0] in h && h[chain[0]].protos == chain[1..]
    ensures Chain(h, chain[0]) == chain
  {
    forall i | 0 <= i < |chain[1..]|
      ensures chain[1..][i] in h && h[chain[1..][i]].protos == chain[1..][i + 1..]
    {
      assert chain[1..][i + 1..] == chain[i + 2..];
    }
  }

  /** Whoever asks an object gets what that object has or inherits. */
  lemma {:induction false} AskedGets(h: Heap, chain: seq<nat>, key: string, ref: nat)
    requires IsChain(h, chain) && Asked(h, chain, key, ref)
    ensures ref in h && First(h, chain, key) == First(h, Chain(h, ref), key)
  {
    hide IsChain, Chain, Own;
    ChainTail(h, chain);
    if chain[0] != ref {
      AskedGets(h, chain[1..], key, ref);
    }
  }

  /** No object inherits from itself. */
  lemma NotTwice(h: Heap, chain: seq<nat>, key: string)
    requires IsChain(h, chain) && chain != []
    ensures !Asked(h, chain[1..], key, chain[0])
  {
    var rest := chain[1..];
    forall i | 0 <= i < |rest|
      ensures rest[i] != chain[0]
    {
      assert |chain[i + 2..]| != |chain[1..]|;
      assert h[chain[i + 1]].protos == chain[i + 2..] && h[chain[0]].protos == chain[1..];
    }
    NotAsked(h, rest, key, chain[0]);
  }

  lemma {:induction false} NotAsked(h: Heap, chain: seq<nat>, key: string, ref: nat)
    requires forall i :: 0 <= i < |chain| ==> chain[i] != ref
    ensures !Asked(h, chain, key, ref)
  {
    hide Own;
    if chain != [] {
      NotAsked(h, chain[1..], key, ref);
    }
  }

  lemma NothingDeleted(h: Heap, ref: nat, key: string)
    requires ref in h && Get(h, Obj(ref), key) == NotFound
    ensures DelProp(h, ref, key) == h
  {
    assert Own(h, ref, key) == NotFound;
    assert h[ref].props - {key} == h[ref].props;
  }

  lemma ForcedDeletion(h: Heap, ref: nat, key: string)
    requires ref in h
    ensures DelProp(SetProp(h, ref, key, Undefined), ref, key) == DelProp(h, ref, key)
  {
    assert h[ref].props[key := Undefined] - {key} == h[ref].props - {key};
  }

  /** The same objects with the same prototypes, and the same properties but for one. */
  ghost predicate DiffersAt(h: Heap, g: Heap, ref: nat, key: string) {
    && g.Keys == h.Keys && (forall r <- h :: g[r].protos == h[r].protos)
    && forall r: nat, k: string :: (r != ref || k != key) ==> Own(g, r, k) == Own(h, r, k)
  }

  /** Who does not ask for the property does not notice; who does gets the new one. */
  lemma {:induction false} FirstDiffers(h: Heap, g: Heap, ref: nat, key: string, chain: seq<nat>, k: string)
    requires DiffersAt(h, g, ref, key)
    ensures !(k == key && Asked(h, chain, key, ref)) ==> First(g, chain, k) == First(h, chain, k)
    ensures Asked(h, chain, key, ref) && Own(g, ref, key).Found? ==> First(g, chain, key) == Own(g, ref, key)
  {
    hide Own;
    if chain != [] {
      FirstDiffers(h, g, ref, key, chain[1..], k);
    }
  }

  /** Without the property, whoever asked for it gets what its object inherits. */
  lemma {:induction false} FirstRemoved(h: Heap, g: Heap, ref: nat, key: string, chain: seq<nat>)
    requires DiffersAt(h, g, ref, key) && !Own(g, ref, key).Found?
    requires IsChain(h, chain) && Asked(h, chain, key, ref)
    ensures First(g, chain, key) == Inherited(h, ref, key)
  {
    hide Own, IsChain;
    ChainTail(h, chain);
    if chain[0] == ref {
      NotTwice(h, chain, key);
      FirstDiffers(h, g, ref, key, chain[1..], key);
    } else {
      FirstRemoved(h, g, ref, key, chain[1..]);
    }
  }

  /** Values that do not ask for a property see no difference. */
  ghost predicate SameFor(h: Heap, g: Heap, ref: nat, key: string) {
    forall w: Value, k: string :: !(k == key && Asks(h, w, key, ref)) ==> Get(g, w, k) == Get(h, w, k)
  }

  /** All values that ask for it see the property like this. */
  ghost predicate SeenAs(h: Heap, g: Heap, ref: nat, key: string, r: Lookup) {
    forall w: Value :: Asks(h, w, key, ref) ==> Get(g, w, key) == r
  }

  lemma Differing(h: Heap, g: Heap, ref: nat, key: string)
    requires DiffersAt(h, g, ref, key)
    ensures SameFor(h, g, ref, key)
    ensures Own(g, ref, key).Found? ==> SeenAs(h, g, ref, key, Own(g, ref, key))
  {
    forall w: Value, k: string
      ensures !(k == key && Asks(h, w, key, ref)) ==> Get(g, w, k) == Get(h, w, k)
      ensures Asks(h, w, key, ref) && Own(g, ref, key).Found? ==> Get(g, w, key) == Own(g, ref, key)
    {
      if IsObject(h, w) {
        hide Own, First, Asked;
        FirstDiffers(h, g, ref, key, Chain(h, w.ref), k);
      }
    }
  }

  lemma SetGets(h: Heap, ref: nat, key: string, x: Value)
    requires ref in h
    ensures var g := SetProp(h, ref, key, x);
      && DiffersAt(h, g, ref, key) && SameFor(h, g, ref, key) && SeenAs(h, g, ref, key, Found(x))
      && Get(g, Obj(ref), key) == Found(x)
  {
    var g := SetProp(h, ref, key, x);
    assert DiffersAt(h, g, ref, key) && Own(g, ref, key) == Found(x);
    assert Asked(h, Chain(h, ref), key, ref);
    hide Own, First, Asked, DiffersAt, SetProp;
    Differing(h, g, ref, key);
  }

  lemma DelGets(h: Heap, next: nat, ref: nat, key: string)
    requires Sound(h, next) && ref in h
    ensures var g := DelProp(h, ref, key);
      DiffersAt(h, g, ref, key) && SameFor(h, g, ref, key) && SeenAs(h, g, ref, key, Inherited(h, ref, key))
  {
    var g := DelProp(h, ref, key);
    assert DiffersAt(h, g, ref, key) && Own(g, ref, key) == NotFound;
    forall w: Value | Asks(h, w, key, ref)
      ensures Get(g, w, key) == Inherited(h, ref, key)
    {
      hide Own, First, Asked, IsChain, Inherited;
      assert Chain(g, w.ref) == Chain(h, w.ref);
      FirstRemoved(h, g, ref, key, Chain(h, w.ref));
    }
    hide Own, First, Asked, DiffersAt, DelProp;
    Differing(h, g, ref, key);
  }

  // ---------- Building ----------

  /** Everything that can be found is found with the same value. */
  ghost predicate Extends(h: Heap, g: Heap) {
    (forall r <- h :: r in g) && forall w: Value, k: string :: Get(h, w, k).Found? ==> Get(g, w, k) == Get(h, w, k)
  }

  lemma {:induction false} WalkExtends(h: Heap, g: Heap, v: Value, path: seq<string>)
    requires Extends(h, g) && Walk(h, v, path).Found?
    ensures Walk(g, v, path) == Walk(h, v, path)
    decreases |path|
  {
    hide Get;
    if path != [] {
      WalkExtends(h, g, Get(h, v, path[0]).value, path[1..]);
    }
  }

  /** A new object is asked by nobody yet. */
  lemma AllocateGets(h: Heap, next: nat)
    requires Sound(h, next)
    ensures var g := Allocate(h, next);
      && (forall w: Value, k: string :: w != Obj(next) ==> Get(g, w, k) == Get(h, w, k))
      && (forall r: nat, k: string :: Own(g, r, k) == Own(h, r, k))
  {
    var g := Allocate(h, next);
    assert next !in h;
    forall w: Value, k: string | w != Obj(next)
      ensures Get(g, w, k) == Get(h, w, k)
    {
      if IsObject(h, w) {
        SameFirst(h, g, Chain(h, w.ref), k);
      }
    }
  }

  lemma {:induction false} SameFirst(h: Heap, g: Heap, chain: seq<nat>, key: string)
    requires forall r: nat, k: string :: Own(g, r, k) == Own(h, r, k)
    ensures First(g, chain, key) == First(h, chain, key)
  {
    hide Own;
    if chain != [] {
      SameFirst(h, g, chain[1..], key);
    }
  }

  lemma AllocateSound(h: Heap, next: nat)
    requires Sound(h, next)
    ensures Sound(Allocate(h, next), next + 1)
  {
    var g, c := Allocate(h, next), Chain(h, OBJECT_PROTOTYPE);
    assert next !in h;
    AllocateGets(h, next);
    forall r <- g
      ensures IsChain(g, Chain(g, r))
    {
      if r == next {
        ChainLonger(g, next, c);
      }
    }
  }

  lemma ChainLonger(h: Heap, ref: nat, chain: seq<nat>)
    requires ref in h && h[ref].protos == chain && IsChain(h, chain)
    ensures IsChain(h, Chain(h, ref))
  {
    var longer := Chain(h, ref);
    forall i | 0 <= i < |longer|
      ensures longer[i] in h && h[longer[i]].protos == longer[i + 1..]
    {
      if i > 0 {
        assert longer[i] == chain[i - 1] && longer[i + 1..] == chain[i..];
      }
    }
  }

  lemma SetSound(h: Heap, next: nat, ref: nat, key: string, v: Value)
    requires Sound(h, next) && ref in h && (v.Obj? ==> v.ref in h)
    ensures Sound(SetProp(h, ref, key, v), next)
  {
    var g := SetProp(h, ref, key, v);
    SameChains(h, g);
    assert forall r: nat, k: string :: Own(g, r, k) == if r == ref && k == key then Found(v) else Own(h, r, k);
  }

  lemma DelSound(h: Heap, next: nat, ref: nat, key: string)
    requires Sound(h, next) && ref in h
    ensures Sound(DelProp(h, ref, key), next)
  {
    var g := DelProp(h, ref, key);
    SameChains(h, g);
    assert forall r: nat, k: string :: Own(g, r, k) == if r == ref && k == key then NotFound else Own(h, r, k);
  }

  lemma SameChains(h: Heap, g: Heap)
    requires g.Keys == h.Keys && forall r <- h :: g[r].protos == h[r].protos && IsChain(h, Chain(h, r))
    ensures forall r <- g :: IsChain(g, Chain(g, r))
  {
  }

  /** What can be reached from a sound value exists. */
  lemma {:induction false} FirstSound(h: Heap, next: nat, chain: seq<nat>, key: string)
    requires Sound(h, next)
    ensures var r := First(h, chain, key); r.Found? && r.value.Obj? ==> r.value.ref in h
  {
    if chain != [] {
      FirstSound(h, next, chain[1..], key);
    }
  }

  lemma DescendSound(h: Heap, next: nat, v: Value, key: string)
    requires Sound(h, next) && IsObject(h, v)
    ensures var b := Descend(h, next, v, key);
      && Sound(b.heap, b.next) && Extends(h, b.heap) && b.next >= next
      && b.result.Reached? && Get(b.heap, v, key) == Found(b.result.value)
      && (b.result.value.Obj? ==> b.result.value.ref in b.heap)
  {
    FirstSound(h, next, Chain(h, v.ref), key);
    if Get(h, v, key).NotFound? {
      var m := Allocate(h, next);
      assert forall r <- h :: r in m && r != next;
      AllocateSound(h, next);
      AllocateGets(h, next);
      SetSound(m, next + 1, v.ref, key, Obj(next));
      SetGets(m, v.ref, key, Obj(next));
      AskersMiss(m, next + 1, v.ref, key);
      SetExtends(h, m, SetProp(m, v.ref, key, Obj(next)), next, v.ref, key) by {
        SetKeys(m, v.ref, key, Obj(next));
      }
    } else {
      assert IsObject(h, v);
    }
  }

  /** A new property that nobody found before takes nothing away. */
  lemma SetExtends(h: Heap, m: Heap, g: Heap, next: nat, ref: nat, key: string)
    requires next !in h && (forall r <- h :: r in m) && g.Keys == m.Keys
    requires forall w: Value, k: string :: w != Obj(next) ==> Get(m, w, k) == Get(h, w, k)
    requires SameFor(m, g, ref, key) && forall w: Value :: Asks(m, w, key, ref) ==> Get(m, w, key) == NotFound
    ensures Extends(h, g)
  {
    hide Asks;
    forall w: Value, k: string | Get(h, w, k).Found?
      ensures Get(g, w, k) == Get(h, w, k)
    {
      assert w != Obj(next);
      hide Get;
      assert !(k == key && Asks(m, w, key, ref));
    }
  }

  lemma SetKeys(h: Heap, ref: nat, key: string, v: Value)
    requires ref in h
    ensures SetProp(h, ref, key, v).Keys == h.Keys
  {
  }

  /** Where an object has no property, nobody finds it by asking that object. */
  lemma AskersMiss(h: Heap, next: nat, ref: nat, key: string)
    requires Sound(h, next) && Get(h, Obj(ref), key) == NotFound
    ensures forall w: Value :: Asks(h, w, key, ref) ==> Get(h, w, key) == NotFound
  {
    forall w: Value | Asks(h, w, key, ref)
      ensures Get(h, w, key) == NotFound
    {
      AskedGets(h, Chain(h, w.ref), key, ref);
    }
  }

  /** Building extends the heap, and the path then leads to what was reached. */
  lemma {:induction false} BuildWalks(h: Heap, next: nat, v: Value, path: seq<string>)
    requires Sound(h, next) && (v.Obj? ==> v.ref in h)
    ensures var b := Build(h, next, v, path);
      && Sound(b.heap, b.next) && Extends(h, b.heap) && b.next >= next
      && (b.result.Reached? ==> Walk(b.heap, v, path) == Found(b.result.value))
      && (b.result.Reached? && b.result.value.Obj? ==> b.result.value.ref in b.heap)
    decreases |path|
  {
    hide Sound, Descend, Get;
    if path != [] {
      if IsObject(h, v) {
        var d := Descend(h, next, v, path[0]);
        DescendSound(h, next, v, path[0]);
        BuildWalks(d.heap, d.next, d.result.value, path[1..]);
      } else {
        PrimitiveEnds(h, next, v, path[0]);
      }
    }
  }

  lemma PrimitiveEnds(h: Heap, next: nat, v: Value, key: string)
    ensures !IsObject(h, v) ==> Descend(h, next, v, key) == Built(h, next, NoObject)
  {
  }

  /** The path asks the object ref for the key, be it on the way or as a prototype. */
  predicate Uses(h: Heap, v: Value, path: seq<string>, ref: nat, key: string)
    decreases |path|
  {
    path != [] &&
    ((path[0] == key && Asks(h, v, key, ref))
      || (Get(h, v, path[0]).Found? && Uses(h, Get(h, v, path[0]).value, path[1..], ref, key)))
  }

  /** What follows in the path when that happens for the first time. */
  function Behind(h: Heap, v: Value, path: seq<string>, ref: nat, key: string): (r: seq<string>)
    requires Uses(h, v, path, ref, key)
    ensures |r| < |path|
    decreases |path|
  {
    if path[0] == key && Asks(h, v, key, ref) then path[1..]
    else Behind(h, Get(h, v, path[0]).value, path[1..], ref, key)
  }

  // ---------- Setting and removing at the end of a path ----------

  lemma {:induction false} WalkAppend(h: Heap, v: Value, path: seq<string>, key: string)
    requires Walk(h, v, path).Found?
    ensures Walk(h, v, path + [key]) == Get(h, Walk(h, v, path).value, key)
    decreases |path|
  {
    hide Get;
    if path == [] {
      assert [] + [key] == [key] && [key][1..] == [];
    } else {
      assert (path + [key])[1..] == path[1..] + [key];
      WalkAppend(h, Get(h, v, path[0]).value, path[1..], key);
    }
  }

  lemma {:induction false} WalkMisses(h: Heap, v: Value, path: seq<string>, key: string)
    requires !Walk(h, v, path).Found?
    ensures Walk(h, v, path + [key]) == Walk(h, v, path)
    decreases |path|
  {
    hide Get;
    assert (path + [key])[1..] == path[1..] + [key];
    var r := Get(h, v, path[0]);
    if r.Found? {
      WalkMisses(h, r.value, path[1..], key);
    }
  }

  /** A path that does not use a property does not notice when it is set or removed. */
  lemma {:induction false} WalkUnaware(h: Heap, g: Heap, v: Value, path: seq<string>, ref: nat, key: string)
    requires SameFor(h, g, ref, key) && !Uses(h, v, path, ref, key)
    ensures Walk(g, v, path) == Walk(h, v, path)
    decreases |path|
  {
    hide Get, Asks;
    if path != [] {
      assert Get(g, v, path[0]) == Get(h, v, path[0]);
      var r := Get(h, v, path[0]);
      if r.Found? {
        WalkUnaware(h, g, r.value, path[1..], ref, key);
      }
    }
  }

  /** A path that uses the property goes on from where the change leads it. */
  lemma {:induction false} WalkDetour(h: Heap, g: Heap, v: Value, path: seq<string>, ref: nat, key: string, r: Lookup)
    requires SameFor(h, g, ref, key) && SeenAs(h, g, ref, key, r) && Uses(h, v, path, ref, key)
    ensures Walk(g, v, path) == if r.Found? then Walk(g, r.value, Behind(h, v, path, ref, key)) else r
    decreases |path|
  {
    hide Get, Asks;
    if !(path[0] == key && Asks(h, v, key, ref)) {
      assert Get(g, v, path[0]) == Get(h, v, path[0]);
      WalkDetour(h, g, Get(h, v, path[0]).value, path[1..], ref, key, r);
    } else {
      assert Get(g, v, path[0]) == r;
    }
  }

  lemma {:induction false} BehindMore(h: Heap, v: Value, path: seq<string>, last: string, ref: nat, key: string)
    requires Uses(h, v, path, ref, key)
    ensures Uses(h, v, path + [last], ref, key)
    ensures Behind(h, v, path + [last], ref, key) == Behind(h, v, path, ref, key) + [last]
    decreases |path|
  {
    hide Get, Asks;
    assert (path + [last])[0] == path[0] && (path + [last])[1..] == path[1..] + [last];
    if !(path[0] == key && Asks(h, v, key, ref)) {
      BehindMore(h, Get(h, v, path[0]).value, path[1..], last, ref, key);
    }
  }

  // ---------- Names, split and whole ----------

  lemma {:induction false} WordPath(s: string, tail: string)
    requires '.' !in tail && s + tail != ""
    ensures PathFrom(s, tail) == if IsWord(tail) then Some([s + tail]) else None
    decreases |tail|
  {
    if tail == "" {
      assert s + tail == s;
    } else {
      assert tail == [tail[0]] + tail[1..];
      assert s + [tail[0]] + tail[1..] == s + tail;
      WordPath(s + [tail[0]], tail[1..]);
    }
  }

  lemma {:induction false} PathOfSplit(s: string, base: string, tail: string)
    requires '.' !in tail && tail != "" && s + base != ""
    ensures var r := PathFrom(s, base);
      PathFrom(s, base + "." + tail) ==
        if r.Some? && (base == "" || base[|base| - 1] != '.') && IsWord(tail) then Some(r.value + [tail]) else None
    decreases |base|
  {
    hide IsNameChar, IsWord;
    var name := base + "." + tail;
    WordPath("", tail);
    assert "" + tail == tail;
    if base == "" {
      assert name[0] == '.' && name[1..] == tail;
      assert [s] + [tail] == [s, tail];
    } else {
      var c, rest := base[0], base[1..];
      assert name[0] == c && name[1..] == rest + "." + tail;
      if c == '.' {
        if s != "" && rest != "" {
          assert "" + rest == rest;
          PathOfSplit("", rest, tail);
          var r := PathFrom("", rest);
          if r.Some? {
            assert [s] + (r.value + [tail]) == [s] + r.value + [tail];
          }
        } else if s != "" {
          assert name[1..] == "." + tail;
        }
      } else if IsNameChar(c) {
        PathOfSplit(s + [c], rest, tail);
      }
    }
  }

  /** A name that can be defined has a path exactly when its last part is a word and no dot is doubled before it. */
  lemma PathOfName(name: string)
    requires SplitSelector(name).Split?
    ensures var Split(base, tail) := SplitSelector(name);
      Path(name) ==
        if Path(base).Some? && (base == "" || base[|base| - 1] != '.') && IsWord(tail)
        then Some(Path(base).value + [tail]) else None
  {
    hide PathFrom, LastDot, IsWord;
    var Split(base, tail) := SplitSelector(name);
    SplitJoins(name);
    if base == "" {
      WordPath("", tail);
      EmptyPath();
      assert "" + tail == tail && [] + [tail] == [tail];
    } else {
      assert "" + base == base;
      PathOfSplit("", base, tail);
    }
  }

  // ---------- Names, character by character ----------

  const LOWER: string := "abcdefghijklmnopqrstuvwxyz"
  const UPPER: string := "ABCDEFGHIJKLMNOPQRSTUVWXYZ"
  const DIGITS: string := "0123456789"

  predicate InAlphabet(c: char) {
    c in LOWER || c in UPPER || c in DIGITS || c == '_'
  }

  lemma LowerAt(i: nat)
    requires i < 26
    ensures LOWER[i] == 'a' + i as char
  {
  }

  lemma UpperAt(i: nat)
    requires i < 26
    ensures UPPER[i] == 'A' + i as char
  {
  }

  lemma DigitAt(i: nat)
    requires i < 10
    ensures DIGITS[i] == '0' + i as char
  {
  }

  lemma InRun(c: char, s: string, first: char)
    requires first == 'a' || first == 'A' || first == '0'
    requires |s| <= 26 && forall i :: 0 <= i < |s| ==> s[i] == first + i as char
    ensures c in s <==> 0 <= c as int - first as int < |s|
  {
    var i := c as int - first as int;
    if 0 <= i < |s| {
      assert s[i] == c;
    }
  }

  /** Letters of both cases, digits and the underscore make names, and nothing else does. */
  lemma AlphabetExactly(c: char)
    ensures IsNameChar(c) <==> InAlphabet(c)
  {
    forall i | 0 <= i < 26
      ensures LOWER[i] == 'a' + i as char && UPPER[i] == 'A' + i as char
    {
      LowerAt(i);
      UpperAt(i);
    }
    forall i | 0 <= i < 10
      ensures DIGITS[i] == '0' + i as char
    {
      DigitAt(i);
    }
    InRun(c, LOWER, 'a');
    InRun(c, UPPER, 'A');
    InRun(c, DIGITS, '0');
    assert |LOWER| == |UPPER| == 26 && |DIGITS| == 10;
    hide LOWER, UPPER, DIGITS;
  }

  /** A name of such characters only. */
  predicate IsAlphabetic(name: string) {
    name != "" && forall i :: 0 <= i < |name| ==> InAlphabet(name[i])
  }

  lemma AlphabeticIsWord(name: string)
    requires IsAlphabetic(name)
    ensures name != "" && IsWord(name) && name[|name| - 1] != '.'
  {
    hide IsNameChar, InAlphabet;
    forall i | 0 <= i < |name|
      ensures IsNameChar(name[i])
    {
      AlphabetExactly(name[i]);
    }
    AlphabetExactly(name[|name| - 1]);
    assert !IsNameChar('.') by { NoDots(); }
  }

  lemma NoDots()
    ensures !IsNameChar('.')
  {
  }

  /** The parts with dots between them. */
  function Dotted(parts: seq<string>): string
    requires parts != []
  {
    if |parts| == 1 then parts[0] else Dotted(parts[..|parts| - 1]) + "." + parts[|parts| - 1]
  }

  /** Parts of such characters, with dots between them, spell exactly the path of these parts. */
  lemma {:induction false} DottedPath(parts: seq<string>)
    requires parts != [] && forall i :: 0 <= i < |parts| ==> IsAlphabetic(parts[i])
    ensures Path(Dotted(parts)) == Some(parts)
    ensures Dotted(parts) != "" && Dotted(parts)[|Dotted(parts)| - 1] != '.'
    ensures SplitSelector(Dotted(parts)) == Split(if |parts| == 1 then "" else Dotted(parts[..|parts| - 1]), parts[|parts| - 1])
  {
    hide IsAlphabetic, Path, SplitSelector, IsWord;
    var n := |parts| - 1;
    AlphabeticIsWord(parts[n]);
    if n == 0 {
      OnePart(parts[0]);
      assert [parts[0]] == parts;
    } else {
      DottedPath(parts[..n]);
      OneMorePart(Dotted(parts[..n]), parts[n]);
      assert parts[..n] + [parts[n]] == parts;
    }
  }

  /** A name with any other character, dots apart, spells no path. */
  lemma {:induction false} ForeignCharacter(s: string, name: string, i: nat)
    requires i < |name| && name[i] != '.' && !InAlphabet(name[i])
    ensures PathFrom(s, name) == None
    decreases |name|
  {
    hide InAlphabet;
    AlphabetExactly(name[i]);
    hide IsNameChar;
    if i > 0 {
      assert name[1..][i - 1] == name[i];
      if name[0] == '.' {
        ForeignCharacter("", name[1..], i - 1);
      } else if IsNameChar(name[0]) {
        ForeignCharacter(s + [name[0]], name[1..], i - 1);
      }
    }
  }

  lemma ForeignRefused(name: string, i: nat)
    requires i < |name| && name[i] != '.' && !InAlphabet(name[i])
    ensures Path(name) == None
  {
    hide InAlphabet;
    ForeignCharacter("", name, i);
  }

  /** A selector is invalid when it is empty, ends in a dot, or has its only dot at the front. */
  lemma SplitExactly(name: string)
    ensures SplitSelector(name).Invalid? <==>
      name == "" || name[|name| - 1] == '.' || (name[0] == '.' && '.' !in name[1..])
  {
    hide LastDot;
    LastDotIsLast(name);
    if name != "" {
      var p := LastDot(name);
      NoDotBehind(name, p);
      assert p < |name| - 1 ==> name[|name| - 1] == name[p + 1..][|name| - p - 2];
      assert p > 0 ==> name[1..][p - 1] == '.';
    }
  }

  /** A doubled dot before the last part can be defined and not be selected. */
  lemma DoubledDot()
    ensures SplitSelector("a..b") == Split("a.", "b") && Path("a.") == Some(["a"]) && Path("a..b") == None
  {
    var name := "a..b";
    assert name[..3] == "a.." && name[..2] == "a." && name[3..] == "b";
    assert LastDot(name) == 2;
    PathOfName(name);
    assert "a."[1..] == "." && "."[1..] == "" && "" + "a" == "a";
    assert PathFrom("a", ".") == Some(["a"] + []);
    assert ["a"] + [] == ["a"];
  }

  lemma EmptyPath()
    ensures PathFrom("", "") == Some([])
  {
  }

  lemma SplitJoins(name: string)
    requires SplitSelector(name).Split?
    ensures var Split(base, tail) := SplitSelector(name);
      '.' !in tail && tail != "" && (if base == "" then tail == name else name == base + "." + tail)
  {
    hide LastDot;
    var p := LastDot(name);
    LastDotIsLast(name);
    NoDotBehind(name, p);
    if p >= 0 {
      Around(name, p);
    } else {
      assert name[0..] == name;
    }
  }

  lemma NoDotBehind(name: string, p: int)
    requires -1 <= p < |name| && forall i :: p < i < |name| ==> name[i] != '.'
    ensures '.' !in name[p + 1..]
  {
    var tail := name[p + 1..];
    assert forall i :: 0 <= i < |tail| ==> tail[i] == name[p + 1 + i];
  }

  lemma Around(name: string, p: nat)
    requires p < |name| && name[p] == '.'
    ensures name == name[..p] + "." + name[p + 1..]
  {
  }

  // ---------- Round trips ----------

  /** The path asks the very object it leads to for the property tail. */
  predicate PassesItself(h: Heap, path: seq<string>, tail: string) {
    var w := Walk(h, GLOBAL, path);
    w.Found? && w.value.Obj? && Uses(h, GLOBAL, path, w.value.ref, tail)
  }

  /** The heap with the missing objects of a path, and what the path leads to in it. */
  function Created(h: Heap, next: nat, path: seq<string>): Heap {
    Build(h, next, GLOBAL, path).heap
  }

  function Target(h: Heap, next: nat, path: seq<string>): Value {
    var r := Build(h, next, GLOBAL, path).result;
    if r.Reached? then r.value else Undefined
  }

  /** A definition sets one property of the object that its base leads to when missing objects are created. */
  lemma Definition(h: Heap, next: nat, name: string, v: Value)
    requires Sound(h, next) && AfterDefine(h, next, name, v).2.Done?
    ensures SplitSelector(name).Split? && Path(SplitSelector(name).base).Some?
    ensures Build(h, next, GLOBAL, BasePath(name)).result.Reached?
    ensures var m, t := Created(h, next, BasePath(name)), Target(h, next, BasePath(name));
      && IsObject(m, t) && Walk(m, GLOBAL, BasePath(name)) == Found(t)
      && AfterDefine(h, next, name, v).0 == SetProp(m, t.ref, LastPart(name), v)
  {
    var Split(base, tail) := SplitSelector(name);
    ScanIsBuild(h, next, GLOBAL, "", base);
    BuildWalks(h, next, GLOBAL, Path(base).value);
  }

  /**
   * After a successful definition: a name without a path selects nothing; a path that does not pass itself
   * leads to the value; and any other path goes on from the value where it first asks for the property.
   */
  lemma DefineThenSelect(h: Heap, next: nat, name: string, v: Value)
    requires Sound(h, next) && AfterDefine(h, next, name, v).2.Done?
    ensures var path, tail := BasePath(name), LastPart(name);
      var m, t := Created(h, next, path), Target(h, next, path);
      var g := AfterDefine(h, next, name, v).0;
      var found := ScanSelect(g, GLOBAL, "", name).0;
      && t.Obj? && (PassesItself(m, path, tail) <==> Uses(m, GLOBAL, path, t.ref, tail))
      && if Path(name).None? then !found.Found?
         else if !PassesItself(m, path, tail) then found == Found(v)
         else found == Walk(g, v, Behind(m, GLOBAL, path, t.ref, tail) + [tail])
  {
    Definition(h, next, name, v);
    var path, tail, g := BasePath(name), LastPart(name), AfterDefine(h, next, name, v).0;
    var m, t := Created(h, next, path), Target(h, next, path);
    ScanIsWalk(g, GLOBAL, "", name);
    PathOfName(name);
    SetGets(m, t.ref, tail, v);
    hide ScanSelect, AfterDefine, SetProp, Created, Target, PathFrom, IsWord, Uses, Walk, Get, SameFor, SeenAs, DiffersAt;
    if Uses(m, GLOBAL, path, t.ref, tail) {
      BehindMore(m, GLOBAL, path, tail, t.ref, tail);
      WalkDetour(m, g, GLOBAL, path + [tail], t.ref, tail, Found(v));
    } else {
      WalkUnaware(m, g, GLOBAL, path, t.ref, tail);
      WalkAppend(g, GLOBAL, path, tail);
    }
  }

  /** No path from the value asks for the property or comes back to the value. */
  ghost predicate Apart(h: Heap, v: Value, ref: nat, key: string) {
    forall p: seq<string> :: !Uses(h, v, p, ref, key) && (p != [] ==> Walk(h, v, p) != Found(v))
  }

  /** A number, a text, or an object that is apart is selected if and only if the path does not pass itself. */
  lemma DefinedIsSelected(h: Heap, next: nat, name: string, v: Value)
    requires Sound(h, next) && AfterDefine(h, next, name, v).2.Done?
    ensures var path, tail := BasePath(name), LastPart(name);
      var m, t := Created(h, next, path), Target(h, next, path);
      t.Obj? && (!v.Obj? || Apart(m, v, t.ref, tail) ==>
        (ScanSelect(AfterDefine(h, next, name, v).0, GLOBAL, "", name).0 == Found(v) <==>
         Path(name).Some? && !PassesItself(m, path, tail)))
  {
    Definition(h, next, name, v);
    DefineThenSelect(h, next, name, v);
    var path, tail, g := BasePath(name), LastPart(name), AfterDefine(h, next, name, v).0;
    var m, t := Created(h, next, path), Target(h, next, path);
    SetGets(m, t.ref, tail, v);
    hide ScanSelect, AfterDefine, SetProp, Created, Target, PathFrom, Uses, Walk, Get, SameFor, SeenAs, DiffersAt;
    if !v.Obj? {
      PrimitivesApart(m, v, t.ref, tail);
    }
    if Apart(m, v, t.ref, tail) && PassesItself(m, path, tail) {
      var rest := Behind(m, GLOBAL, path, t.ref, tail) + [tail];
      assert !Uses(m, v, rest, t.ref, tail) && Walk(m, v, rest) != Found(v);
      WalkUnaware(m, g, v, rest, t.ref, tail);
    }
  }

  lemma PrimitivesApart(h: Heap, v: Value, ref: nat, key: string)
    requires !v.Obj?
    ensures Apart(h, v, ref, key)
  {
    forall p: seq<string>
      ensures !Uses(h, v, p, ref, key) && (p != [] ==> Walk(h, v, p) != Found(v))
    {
      if p != [] {
        assert Get(h, v, p[0]) == TypeError;
      }
    }
  }

  /** Properties lead down, and prototypes do not lead up. */
  ghost predicate Ranked(h: Heap, rank: map<nat, nat>) {
    && (forall r <- h :: r in rank)
    && (forall r <- h, k: string :: Own(h, r, k).Found? && IsObject(h, Own(h, r, k).value) ==>
          rank[Own(h, r, k).value.ref] < rank[r])
    && forall r <- h, i :: 0 <= i < |h[r].protos| && h[r].protos[i] in h ==> rank[h[r].protos[i]] <= rank[r]
  }

  /** One step of a path leads below every object of the chain that bounds the rank. */
  lemma {:induction false} FirstRanked(h: Heap, rank: map<nat, nat>, chain: seq<nat>, key: string, bound: nat)
    requires Ranked(h, rank) && forall i :: 0 <= i < |chain| && chain[i] in h ==> rank[chain[i]] <= bound
    ensures var r := First(h, chain, key); r.Found? && IsObject(h, r.value) ==> rank[r.value.ref] < bound
  {
    if chain != [] {
      FirstRanked(h, rank, chain[1..], key, bound);
    }
  }

  lemma StepRanked(h: Heap, rank: map<nat, nat>, v: Value, key: string)
    requires Ranked(h, rank) && IsObject(h, v)
    ensures var r := Get(h, v, key); r.Found? && IsObject(h, r.value) ==> rank[r.value.ref] < rank[v.ref]
  {
    FirstRanked(h, rank, Chain(h, v.ref), key, rank[v.ref]);
  }

  lemma {:induction false} PathRanked(h: Heap, rank: map<nat, nat>, next: nat, v: Value, path: seq<string>, ref: nat, key: string)
    requires Ranked(h, rank) && Sound(h, next) && IsObject(h, v)
    requires Walk(h, v, path) == Found(Obj(ref)) && ref in h
    ensures !Uses(h, v, path, ref, key) && rank[ref] <= rank[v.ref]
    decreases |path|
  {
    if path != [] {
      var r := Get(h, v, path[0]);
      StepRanked(h, rank, v, path[0]);
      FirstSound(h, next, Chain(h, v.ref), path[0]);
      if path[0] == key && Asks(h, v, key, ref) {
        AskedGets(h, Chain(h, v.ref), key, ref);
        StepRanked(h, rank, Obj(ref), key);
      }
      hide Ranked, Sound, Asked, First, Chain;
      PrimitiveWalk(h, r.value, path[1..]);
      PathRanked(h, rank, next, r.value, path[1..], ref, key);
    }
  }

  lemma PrimitiveWalk(h: Heap, v: Value, path: seq<string>)
    ensures Walk(h, v, path).Found? && Walk(h, v, path).value.Obj? ==> v.Obj?
  {
  }

  /** In object trees, and all graphs in which objects can be ranked, no path passes itself. */
  lemma TreesNeverPass(h: Heap, next: nat, rank: map<nat, nat>, path: seq<string>, tail: string)
    requires Sound(h, next) && Ranked(h, rank)
    ensures !PassesItself(h, path, tail)
  {
    var w := Walk(h, GLOBAL, path);
    if w.Found? && w.value.Obj? {
      WalkSound(h, next, GLOBAL, path);
      PathRanked(h, rank, next, GLOBAL, path, w.value.ref, tail);
    }
  }

  lemma {:induction false} WalkSound(h: Heap, next: nat, v: Value, path: seq<string>)
    requires Sound(h, next) && (v.Obj? ==> v.ref in h)
    ensures var w := Walk(h, v, path); w.Found? && w.value.Obj? ==> w.value.ref in h
    decreases |path|
  {
    if path != [] && IsObject(h, v) {
      FirstSound(h, next, Chain(h, v.ref), path[0]);
      hide Sound, First;
      var r := Get(h, v, path[0]);
      if r.Found? {
        WalkSound(h, next, r.value, path[1..]);
      }
    }
  }

  /** A path in which the last part of the name does not occur never passes itself, whatever the objects are. */
  lemma NewPartNeverPasses(h: Heap, path: seq<string>, tail: string)
    requires tail !in path
    ensures !PassesItself(h, path, tail)
  {
    var w := Walk(h, GLOBAL, path);
    if w.Found? && w.value.Obj? {
      NewPartNotUsed(h, GLOBAL, path, w.value.ref, tail);
    }
  }

  lemma {:induction false} NewPartNotUsed(h: Heap, v: Value, path: seq<string>, ref: nat, key: string)
    requires key !in path
    ensures !Uses(h, v, path, ref, key)
    decreases |path|
  {
    hide Get, Asks;
    if path != [] && Get(h, v, path[0]).Found? {
      NewPartNotUsed(h, Get(h, v, path[0]).value, path[1..], ref, key);
    }
  }

  /** A path that exists needs no building. */
  lemma {:induction false} WalkBuilds(h: Heap, next: nat, v: Value, path: seq<string>)
    requires Walk(h, v, path).Found?
    ensures Build(h, next, v, path) == Built(h, next, Reached(Walk(h, v, path).value))
    decreases |path|
  {
    hide Get;
    if path != [] {
      WalkBuilds(h, next, Get(h, v, path[0]).value, path[1..]);
    }
  }

  // ---------- Definitions, judged on the heap before them ----------

  /** No new object would inherit an object under one of these keys. */
  predicate InheritsNoObject(h: Heap, keys: seq<string>) {
    forall i :: 0 <= i < |keys| ==>
      !(Get(h, Obj(OBJECT_PROTOTYPE), keys[i]).Found? && Get(h, Obj(OBJECT_PROTOTYPE), keys[i]).value.Obj?)
  }

  /**
   * Where the path ends too early, creating the rest of it gives new objects only: they inherit none under
   * the rest, neither from the usual prototype as it is nor because the path continues at a prototype.
   */
  predicate Plain(h: Heap, v: Value, path: seq<string>)
    decreases |path|
  {
    path == [] ||
    match Get(h, v, path[0])
    case TypeError => true
    case Found(w) => Plain(h, w, path[1..])
    case NotFound =>
      InheritsNoObject(h, path[1..]) && (v.Obj? && v.ref in Chain(h, OBJECT_PROTOTYPE) ==> path[0] !in path[1..])
  }

  /** What a created object has: nothing of its own, and what the usual prototype had before. */
  lemma CreatedInherits(h: Heap, next: nat, v: Value, key: string, k: string)
    requires Sound(h, next) && IsObject(h, v) && Get(h, v, key) == NotFound
    ensures var d := Descend(h, next, v, key);
      && next !in h && Get(d.heap, Obj(next), k) == Get(d.heap, Obj(OBJECT_PROTOTYPE), k)
      && Chain(d.heap, OBJECT_PROTOTYPE) == Chain(h, OBJECT_PROTOTYPE)
      && (v.ref !in Chain(h, OBJECT_PROTOTYPE) || k != key ==>
            Get(d.heap, Obj(OBJECT_PROTOTYPE), k) == Get(h, Obj(OBJECT_PROTOTYPE), k))
  {
    hide Sound, Allocate, Descend, SetProp, First, Own, Asked, Chain, DiffersAt, SeenAs, SameFor;
    var m, d, chain := Allocate(h, next), Descend(h, next, v, key).heap, Chain(h, OBJECT_PROTOTYPE);
    CreatedChain(h, next, v, key, k);
    FirstBehind(d, next, chain, k);
    if v.ref !in chain || k != key {
      AllocateGets(h, next);
      SetUnasked(m, v.ref, key, Obj(next), k);
    }
  }

  /** Setting a property is not noticed under other keys, or by an object that does not inherit from its object. */
  lemma SetUnasked(h: Heap, ref: nat, key: string, x: Value, k: string)
    requires ref in h && (ref !in Chain(h, OBJECT_PROTOTYPE) || k != key)
    ensures Get(SetProp(h, ref, key, x), Obj(OBJECT_PROTOTYPE), k) == Get(h, Obj(OBJECT_PROTOTYPE), k)
  {
    hide SetProp, First, Own, Asked, Chain, DiffersAt, SeenAs, Get;
    SetGets(h, ref, key, x);
    if k == key {
      NotAsked(h, Chain(h, OBJECT_PROTOTYPE), key, ref);
    }
  }

  lemma FirstBehind(h: Heap, ref: nat, chain: seq<nat>, key: string)
    requires Own(h, ref, key) == NotFound
    ensures First(h, [ref] + chain, key) == First(h, chain, key)
  {
    assert ([ref] + chain)[1..] == chain;
  }

  lemma CreatedChain(h: Heap, next: nat, v: Value, key: string, k: string)
    requires Sound(h, next) && IsObject(h, v) && Get(h, v, key) == NotFound
    ensures var d, chain := Descend(h, next, v, key).heap, Chain(h, OBJECT_PROTOTYPE);
      && next !in h && next in d && v.ref != next && Own(d, next, k) == NotFound
      && Chain(d, next) == [next] + chain && Chain(d, OBJECT_PROTOTYPE) == chain
      && OBJECT_PROTOTYPE in d && OBJECT_PROTOTYPE != next && v.ref in Allocate(h, next)
      && d == SetProp(Allocate(h, next), v.ref, key, Obj(next)) && Chain(Allocate(h, next), OBJECT_PROTOTYPE) == chain
  {
    assert next !in h;
    hide Get;
  }

  lemma {:induction false} BuildProtos(h: Heap, next: nat, v: Value, path: seq<string>, r: nat)
    requires Sound(h, next) && (v.Obj? ==> v.ref in h) && r in h
    ensures r in Build(h, next, v, path).heap && Build(h, next, v, path).heap[r].protos == h[r].protos
    decreases |path|
  {
    if path != [] {
      PrimitiveEnds(h, next, v, path[0]);
      if IsObject(h, v) {
        var d := Descend(h, next, v, path[0]);
        DescendSound(h, next, v, path[0]);
        assert r in d.heap && d.heap[r].protos == h[r].protos;
        hide Sound, Descend, Extends;
        BuildProtos(d.heap, d.next, d.result.value, path[1..], r);
      }
    }
  }

  /** An object that came later is asked by no earlier one. */
  lemma LaterNotAsked(h: Heap, next: nat, v: Value, path: seq<string>, key: string, ref: nat)
    requires Sound(h, next) && IsObject(h, v) && ref >= next
    ensures !Asks(Build(h, next, v, path).heap, v, key, ref)
  {
    var g := Build(h, next, v, path).heap;
    BuildProtos(h, next, v, path, v.ref);
    assert Chain(g, v.ref) == Chain(h, v.ref);
    forall i | 0 <= i < |Chain(h, v.ref)|
      ensures Chain(h, v.ref)[i] != ref
    {
      assert Chain(h, v.ref)[i] in h;
    }
    NotAsked(g, Chain(h, v.ref), key, ref);
  }

  /** A plain path that is not there leads to an object created last, which it asks for nothing. */
  lemma {:induction false} PlainBuild(h: Heap, next: nat, v: Value, path: seq<string>, key: string)
    requires Sound(h, next) && (v.Obj? ==> v.ref in h) && Plain(h, v, path) && !Walk(h, v, path).Found?
    requires var r := Build(h, next, v, path).result; r.Reached? && r.value.Obj?
    ensures var b := Build(h, next, v, path);
      b.next > next && b.result == Reached(Obj(b.next - 1)) && !Uses(b.heap, v, path, b.next - 1, key)
    decreases |path|
  {
    hide Sound, Plain, Extends, Descend, Asks, Get, Uses;
    PrimitiveEnds(h, next, v, path[0]);
    var b, d, rest := Build(h, next, v, path), Descend(h, next, v, path[0]), path[1..];
    DescendSound(h, next, v, path[0]);
    var w := d.result.value;
    PlainStep(h, next, v, path);
    BuildWalks(d.heap, d.next, w, rest);
    BuildKeeps(d.heap, d.next, w, rest, v, path[0]);
    if rest == [] {
      NothingUsed(b.heap, w, b.next - 1, key);
    } else if Walk(d.heap, w, rest).Found? {
      WalkBuilds(d.heap, d.next, w, rest);
    } else {
      PlainBuild(d.heap, d.next, w, rest, key);
    }
    LaterNotAsked(h, next, v, path, key, b.next - 1);
    StepUses(b.heap, v, path, w, b.next - 1, key);
  }

  lemma NothingUsed(h: Heap, v: Value, ref: nat, key: string)
    ensures !Uses(h, v, [], ref, key)
  {
  }

  lemma StepUses(h: Heap, v: Value, path: seq<string>, w: Value, ref: nat, key: string)
    requires path != [] && Get(h, v, path[0]) == Found(w)
    requires !Asks(h, v, key, ref) && !Uses(h, w, path[1..], ref, key)
    ensures !Uses(h, v, path, ref, key)
  {
    hide Get, Asks;
  }

  /** One step of a plain path that is not there. */
  lemma PlainStep(h: Heap, next: nat, v: Value, path: seq<string>)
    requires Sound(h, next) && IsObject(h, v) && Plain(h, v, path) && path != [] && !Walk(h, v, path).Found?
    ensures var d, rest := Descend(h, next, v, path[0]), path[1..];
      && d.result.Reached? && Plain(d.heap, d.result.value, rest)
      && (d.next == next ==> rest != [] && !Walk(d.heap, d.result.value, rest).Found?)
      && (d.next != next ==> d.next == next + 1 && d.result.value == Obj(next))
      && (d.next != next && rest != [] ==> var r := Walk(d.heap, d.result.value, rest); r.Found? ==> !r.value.Obj?)
  {
    if Get(h, v, path[0]).NotFound? {
      PlainCreated(h, next, v, path);
    }
  }

  /** The rest of a plain path is plain from the created object on, and leads to no object that exists. */
  lemma PlainCreated(h: Heap, next: nat, v: Value, path: seq<string>)
    requires Sound(h, next) && IsObject(h, v) && path != [] && Plain(h, v, path) && Get(h, v, path[0]) == NotFound
    ensures var d, rest := Descend(h, next, v, path[0]).heap, path[1..];
      && Plain(d, Obj(next), rest)
      && (rest != [] ==> var r := Walk(d, Obj(next), rest); r.Found? ==> !r.value.Obj?)
  {
    var d, rest := Descend(h, next, v, path[0]).heap, path[1..];
    forall i | 0 <= i < |rest|
      ensures Get(d, Obj(next), rest[i]) == Get(d, Obj(OBJECT_PROTOTYPE), rest[i]) == Get(h, Obj(OBJECT_PROTOTYPE), rest[i])
    {
      CreatedInherits(h, next, v, path[0], rest[i]);
      assert rest[i] in rest;
    }
    if rest != [] {
      CreatedInherits(h, next, v, path[0], rest[0]);
      var r := Get(d, Obj(next), rest[0]);
      hide Get, Descend, Sound, Chain;
      if r.Found? {
        assert !r.value.Obj?;
        PrimitiveWalk(d, r.value, rest[1..]);
        PrimitivePlain(d, r.value, rest[1..]);
      }
    }
  }

  lemma PrimitivePlain(h: Heap, v: Value, path: seq<string>)
    requires !v.Obj?
    ensures Plain(h, v, path)
  {
  }

  lemma BuildKeeps(h: Heap, next: nat, w: Value, path: seq<string>, v: Value, key: string)
    requires Sound(h, next) && (w.Obj? ==> w.ref in h) && Get(h, v, key) == Found(w)
    ensures Get(Build(h, next, w, path).heap, v, key) == Found(w)
  {
    hide Sound;
    BuildWalks(h, next, w, path);
  }

  lemma SoundRoots(h: Heap, next: nat)
    requires Sound(h, next)
    ensures 0 in h && OBJECT_PROTOTYPE in h
  {
  }

  /** Creating the missing objects of a plain path changes nothing about whether it passes itself. */
  lemma PassesAsBefore(h: Heap, next: nat, path: seq<string>, tail: string)
    requires Sound(h, next) && Plain(h, GLOBAL, path)
    requires var r := Build(h, next, GLOBAL, path).result; r.Reached? && r.value.Obj?
    ensures PassesItself(Created(h, next, path), path, tail) <==> PassesItself(h, path, tail)
    ensures PassesItself(h, path, tail) ==> Created(h, next, path) == h
  {
    hide Sound, Plain, Get, Uses, Walk, Build, Extends, Chain;
    SoundRoots(h, next);
    if Walk(h, GLOBAL, path).Found? {
      WalkBuilds(h, next, GLOBAL, path);
    } else {
      BuildWalks(h, next, GLOBAL, path);
      PlainBuild(h, next, GLOBAL, path, tail);
    }
  }

  /**
   * The round trip in terms of the heap before the call: a plain name selects any value defined under it
   * unless its path passes itself, and then no number, no text and no object that is apart.
   */
  lemma PlainRoundTrip(h: Heap, next: nat, name: string, v: Value)
    requires Sound(h, next) && AfterDefine(h, next, name, v).2.Done? && Plain(h, GLOBAL, BasePath(name))
    ensures var path, tail := BasePath(name), LastPart(name);
      var found := ScanSelect(AfterDefine(h, next, name, v).0, GLOBAL, "", name).0;
      if Path(name).None? then !found.Found?
      else if !PassesItself(h, path, tail) then found == Found(v)
      else !v.Obj? || Apart(h, v, Walk(h, GLOBAL, path).value.ref, tail) ==> found != Found(v)
  {
    hide ScanSelect, AfterDefine, Plain, Sound, Apart, Uses, Build, Path;
    Definition(h, next, name, v);
    DefineThenSelect(h, next, name, v);
    DefinedIsSelected(h, next, name, v);
    PassesAsBefore(h, next, BasePath(name), LastPart(name));
  }

  /** Every object that can be held by a property ranks above the usual prototype. */
  ghost predicate AbovePrototype(h: Heap, rank: map<nat, nat>)
    requires Ranked(h, rank) && 0 in h && OBJECT_PROTOTYPE in h
  {
    && rank[0] > rank[OBJECT_PROTOTYPE]
    && forall r <- h, k: string :: Own(h, r, k).Found? && IsObject(h, Own(h, r, k).value) ==>
         rank[Own(h, r, k).value.ref] > rank[OBJECT_PROTOTYPE]
  }

  lemma {:induction false} FirstAbove(h: Heap, rank: map<nat, nat>, chain: seq<nat>, key: string)
    requires Ranked(h, rank) && 0 in h && OBJECT_PROTOTYPE in h && AbovePrototype(h, rank)
    ensures var r := First(h, chain, key); r.Found? && IsObject(h, r.value) ==> rank[r.value.ref] > rank[OBJECT_PROTOTYPE]
  {
    if chain != [] {
      FirstAbove(h, rank, chain[1..], key);
    }
  }

  /** The usual prototype of a tree has no objects to inherit. */
  lemma TreeInheritsNoObject(h: Heap, next: nat, rank: map<nat, nat>, keys: seq<string>)
    requires Sound(h, next) && Ranked(h, rank) && AbovePrototype(h, rank)
    ensures InheritsNoObject(h, keys)
  {
    forall i | 0 <= i < |keys|
      ensures var r := Get(h, Obj(OBJECT_PROTOTYPE), keys[i]); !(r.Found? && r.value.Obj?)
    {
      StepRanked(h, rank, Obj(OBJECT_PROTOTYPE), keys[i]);
      FirstAbove(h, rank, Chain(h, OBJECT_PROTOTYPE), keys[i]);
      FirstSound(h, next, Chain(h, OBJECT_PROTOTYPE), keys[i]);
    }
  }

  lemma {:induction false} TreesArePlain(h: Heap, next: nat, rank: map<nat, nat>, v: Value, path: seq<string>)
    requires Sound(h, next) && Ranked(h, rank) && AbovePrototype(h, rank)
    requires v.Obj? ==> v.ref in h && rank[v.ref] > rank[OBJECT_PROTOTYPE]
    ensures Plain(h, v, path)
    decreases |path|
  {
    if path != [] && v.Obj? {
      TreeInheritsNoObject(h, next, rank, path[1..]);
      FirstAbove(h, rank, Chain(h, v.ref), path[0]);
      FirstSound(h, next, Chain(h, v.ref), path[0]);
      assert v.ref !in Chain(h, OBJECT_PROTOTYPE);
      hide Sound, Ranked, AbovePrototype, First, InheritsNoObject, Chain;
      var r := Get(h, v, path[0]);
      if r.Found? {
        TreesArePlain(h, next, rank, r.value, path[1..]);
      }
    }
  }

  /** In a tree, over a prototype of lower rank, every value defined under a name with a path is selected. */
  lemma TreeRoundTrip(h: Heap, next: nat, rank: map<nat, nat>, name: string, v: Value)
    requires Sound(h, next) && Ranked(h, rank) && AbovePrototype(h, rank)
    requires AfterDefine(h, next, name, v).2.Done? && Path(name).Some?
    ensures ScanSelect(AfterDefine(h, next, name, v).0, GLOBAL, "", name).0 == Found(v)
  {
    assert 0 in h && GLOBAL.Obj?;
    TreesArePlain(h, next, rank, GLOBAL, BasePath(name));
    TreesNeverPass(h, next, rank, BasePath(name), LastPart(name));
    hide Sound, Ranked, AbovePrototype, ScanSelect, AfterDefine, Plain, PassesItself, Path;
    PlainRoundTrip(h, next, name, v);
  }

  /** In a new engine every definition can be selected. */
  lemma FirstRoundTrip(name: string, v: Value)
    requires AfterDefine(EMPTY, 2, name, v).2.Done? && Path(name).Some?
    ensures ScanSelect(AfterDefine(EMPTY, 2, name, v).0, GLOBAL, "", name).0 == Found(v)
  {
    hide Sound, Ranked, AbovePrototype, ScanSelect, AfterDefine, Path;
    EmptyIsTree();
    TreeRoundTrip(EMPTY, 2, map[0 := 1, 1 := 0], name, v);
  }

  lemma EmptyIsTree()
    ensures Sound(EMPTY, 2) && Ranked(EMPTY, map[0 := 1, 1 := 0]) && AbovePrototype(EMPTY, map[0 := 1, 1 := 0])
  {
    assert Chain(EMPTY, 0) == [0, 1] && Chain(EMPTY, 1) == [1];
  }

  /** A global object with itself as the property g. */
  const CIRCLE: Heap := map[0 := Object(map["g" := GLOBAL], [1]), 1 := Object(map[], [])]

  lemma CircleFacts()
    ensures Sound(CIRCLE, 2) && Walk(CIRCLE, GLOBAL, ["g"]) == Found(GLOBAL)
    ensures Uses(CIRCLE, GLOBAL, ["g"], 0, "g") && IsObject(CIRCLE, GLOBAL)
  {
    assert Own(CIRCLE, 0, "g") == Found(GLOBAL) && ["g"][1..] == [];
    assert Asked(CIRCLE, Chain(CIRCLE, 0), "g", 0);
  }

  /** A circle is enough to lose the value: g.g is g itself, and g.g.g is set to a number. */
  lemma CircleLosesValue()
    ensures var d := AfterDefine(CIRCLE, 2, "g.g", Number(5));
      Sound(CIRCLE, 2) && d.2 == Done && ScanSelect(d.0, GLOBAL, "", "g.g").0 == TypeError
  {
    CircleFacts();
    WalkBuilds(CIRCLE, 2, GLOBAL, ["g"]);
    ScanIsBuild(CIRCLE, 2, GLOBAL, "", "g");
    TwoParts();
    hide SplitSelector, Path, PathFrom, ScanDefine, ScanSelect, Build, Uses, Walk, Sound, IsObject, SetProp, CIRCLE;
    assert AfterDefine(CIRCLE, 2, "g.g", Number(5)).2 == Done;
    DefinedPast(CIRCLE, 2, "g.g", 5);
  }

  lemma PrimitiveFails(h: Heap, v: Value, path: seq<string>)
    requires !v.Obj? && path != []
    ensures Walk(h, v, path) == TypeError
  {
  }

  lemma TwoParts()
    ensures SplitSelector("g.g") == Split("g", "g") && Path("g") == Some(["g"]) && Path("g.g") == Some(["g", "g"])
  {
    assert IsWord("g");
    hide SplitSelector, Path, IsWord;
    OnePart("g");
    OneMorePart("g", "g");
    assert "g" + "." + "g" == "g.g" && ["g"] + ["g"] == ["g", "g"];
  }

  lemma OnePart(word: string)
    requires word != "" && IsWord(word)
    ensures Path(word) == Some([word]) && word[|word| - 1] != '.' && SplitSelector(word) == Split("", word)
  {
    hide PathFrom, LastDot;
    assert '.' !in word;
    WordPath("", word);
    assert "" + word == word;
  }

  lemma OneMorePart(base: string, word: string)
    requires base != "" && base[|base| - 1] != '.' && word != "" && IsWord(word)
    ensures SplitSelector(base + "." + word) == Split(base, word)
    ensures Path(base).Some? ==> Path(base + "." + word) == Some(Path(base).value + [word])
  {
    hide LastDot, PathFrom;
    var name := base + "." + word;
    var p := LastDot(name);
    LastDotIsLast(name);
    assert name[|base|] == '.';
    assert forall i :: |base| < i < |name| ==> name[i] == word[i - |base| - 1];
    assert p == |base|;
    assert name[..p] == base && name[p + 1..] == word;
    PathOfName(name);
  }

  /** A tree in which the property p of the global object is the usual prototype itself. */
  const TREE: Heap := map[0 := Object(map["p" := Obj(1)], [1]), 1 := Object(map[], [])]

  /** After defining p.x.x on it: the object 2 is the x of the prototype, and so inherits itself as x. */
  const GROWN: Heap :=
    map[0 := Object(map["p" := Obj(1)], [1]), 1 := Object(map["x" := Obj(2)], []), 2 := Object(map[], [1])]

  lemma TreeFacts()
    ensures Sound(TREE, 2) && Ranked(TREE, map[0 := 1, 1 := 0])
    ensures Get(TREE, GLOBAL, "p") == Found(Obj(1)) && Get(TREE, Obj(1), "x") == NotFound
    ensures SetProp(Allocate(TREE, 2), 1, "x", Obj(2)) == GROWN
  {
    assert Chain(TREE, 0) == [0, 1];
    assert Own(TREE, 0, "p") == Found(Obj(1)) && Own(TREE, 1, "x") == NotFound;
    assert Chain(TREE, 1) == [1] && [1][1..] == [];
  }

  lemma GrownFacts()
    ensures Get(GROWN, GLOBAL, "p") == Found(Obj(1)) && Get(GROWN, Obj(1), "x") == Found(Obj(2))
    ensures Get(GROWN, Obj(2), "x") == Found(Obj(2)) && Asks(GROWN, Obj(2), "x", 2) && IsObject(GROWN, Obj(2))
  {
    assert Own(GROWN, 0, "p") == Found(Obj(1)) && Own(GROWN, 1, "x") == Found(Obj(2)) && Own(GROWN, 2, "x") == NotFound;
    assert Chain(GROWN, 2) == [2, 1] && [2, 1][1..] == [1];
  }

  lemma GrowsAlong()
    ensures Build(TREE, 2, GLOBAL, ["p", "x", "x"]) == Built(GROWN, 3, Reached(Obj(2)))
    ensures Walk(GROWN, GLOBAL, ["p", "x", "x"]) == Found(Obj(2)) && Uses(GROWN, GLOBAL, ["p", "x", "x"], 2, "x")
  {
    TreeFacts();
    GrownFacts();
    hide Get, Asks, Allocate, SetProp, TREE, GROWN;
    assert ["p", "x", "x"][1..] == ["x", "x"] && ["x", "x"][1..] == ["x"] && ["x"][1..] == [];
    assert Build(GROWN, 3, Obj(2), ["x"]) == Built(GROWN, 3, Reached(Obj(2)));
    assert Descend(TREE, 2, Obj(1), "x") == Built(GROWN, 3, Reached(Obj(2)));
    assert Build(TREE, 2, Obj(1), ["x", "x"]) == Built(GROWN, 3, Reached(Obj(2)));
  }

  /** In a tree that can reach the usual prototype a path can pass itself: p.x.x.x cannot be selected. */
  lemma PrototypeLosesValue()
    ensures Sound(TREE, 2) && Ranked(TREE, map[0 := 1, 1 := 0])
    ensures var name := "p.x.x.x"; var d := AfterDefine(TREE, 2, name, Number(5));
      && !PassesItself(TREE, BasePath(name), LastPart(name)) && Path(name).Some?
      && d.2 == Done && ScanSelect(d.0, GLOBAL, "", name).0 == TypeError
  {
    TreeFacts();
    GrownFacts();
    GrowsAlong();
    PathOfFour();
    TreesNeverPass(TREE, 2, map[0 := 1, 1 := 0], ["p", "x", "x"], "x");
    ScanIsBuild(TREE, 2, GLOBAL, "", "p.x.x");
    hide SplitSelector, Path, ScanDefine, ScanSelect, Build, Uses, Walk, Get, Sound, Ranked, IsObject, SetProp, TREE, GROWN;
    hide PassesItself;
    assert AfterDefine(TREE, 2, "p.x.x.x", Number(5)).2 == Done;
    DefinedPast(TREE, 2, "p.x.x.x", 5);
  }

  /** A number under a name whose path passes itself when it is built. */
  lemma DefinedPast(h: Heap, next: nat, name: string, n: int)
    requires Sound(h, next) && AfterDefine(h, next, name, Number(n)).2.Done? && Path(name).Some?
    requires var t := Target(h, next, BasePath(name));
      t.Obj? && Uses(Created(h, next, BasePath(name)), GLOBAL, BasePath(name), t.ref, LastPart(name))
    ensures ScanSelect(AfterDefine(h, next, name, Number(n)).0, GLOBAL, "", name).0 == TypeError
  {
    hide ScanSelect, AfterDefine, Sound, Uses, Build, Path, Walk;
    DefineThenSelect(h, next, name, Number(n));
    var path, tail := BasePath(name), LastPart(name);
    var m, t := Created(h, next, path), Target(h, next, path);
    PrimitiveFails(AfterDefine(h, next, name, Number(n)).0, Number(n), Behind(m, GLOBAL, path, t.ref, tail) + [tail]);
  }

  lemma PathOfFour()
    ensures SplitSelector("p.x.x.x") == Split("p.x.x", "x") && Path("p.x.x") == Some(["p", "x", "x"])
    ensures Path("p.x.x.x").Some?
  {
    assert IsWord("x");
    hide SplitSelector, Path, IsWord;
    PathOfTwo();
    assert "p.x" + "." + "x" == "p.x.x" && ["p", "x"] + ["x"] == ["p", "x", "x"];
    OneMorePart("p.x", "x");
    assert "p.x.x" + "." + "x" == "p.x.x.x";
    OneMorePart("p.x.x", "x");
  }

  lemma PathOfTwo()
    ensures Path("p.x") == Some(["p", "x"])
  {
    assert IsWord("p") && IsWord("x");
    hide SplitSelector, Path, IsWord;
    assert "p" + "." + "x" == "p.x" && ["p"] + ["x"] == ["p", "x"];
    OnePart("p");
    OneMorePart("p", "x");
  }

  /** What the object at the end of the base inherits under the last part of the name. */
  function Leftover(h: Heap, name: string): Lookup {
    match SplitSelector(name)
    case Invalid => NotFound
    case Split(base, tail) =>
      var parent := ScanSelect(h, GLOBAL, "", base).0;
      if parent.Found? && parent.value.Obj? then Inherited(h, parent.value.ref, tail) else NotFound
  }

  /**
   * After a removal: a name without a path selects nothing. If the object inherits no such property, its
   * path selects nothing either. If it does, a path that does not pass itself leads to the inherited
   * value, and any other path goes on from that value.
   */
  lemma UndefThenSelect(h: Heap, next: nat, name: string)
    requires Sound(h, next) && name != "" && AfterUndef(h, name).1.Done?
    ensures var g, last := AfterUndef(h, name).0, Leftover(h, name);
      var found := ScanSelect(g, GLOBAL, "", name).0;
      if Path(name).None? then !found.Found?
      else if !last.Found? then found == NotFound
      else
        var path, tail := BasePath(name), LastPart(name);
        var t := Walk(h, GLOBAL, path);
        && t.Found? && t.value.Obj?
        && if !PassesItself(h, path, tail) then found == last
           else found == Walk(g, last.value, Behind(h, GLOBAL, path, t.value.ref, tail) + [tail])
  {
    var Split(base, tail) := SplitSelector(name);
    var g, last := AfterUndef(h, name).0, Leftover(h, name);
    ScanIsWalk(h, GLOBAL, "", base);
    ScanIsWalk(g, GLOBAL, "", name);
    PathOfName(name);
    hide ScanSelect, PathFrom, IsWord, Walk, Get, LastDot, Uses, Sound, Inherited, DelProp, SameFor, SeenAs, DiffersAt;
    if Path(name).Some? {
      var path := Path(base).value;
      var parent := Walk(h, GLOBAL, path);
      if parent.Found? {
        Removal(h, next, path, tail);
      } else {
        WalkMisses(h, GLOBAL, path, tail);
      }
    }
  }

  lemma Removal(h: Heap, next: nat, path: seq<string>, tail: string)
    requires Sound(h, next)
    requires Walk(h, GLOBAL, path).Found? && IsObject(h, Walk(h, GLOBAL, path).value)
    ensures var t := Walk(h, GLOBAL, path).value;
      var g, last := DelProp(h, t.ref, tail), Inherited(h, t.ref, tail);
      Walk(g, GLOBAL, path + [tail]) ==
        if !Uses(h, GLOBAL, path, t.ref, tail) || !last.Found? then last
        else Walk(g, last.value, Behind(h, GLOBAL, path, t.ref, tail) + [tail])
  {
    var t := Walk(h, GLOBAL, path).value;
    var g, last := DelProp(h, t.ref, tail), Inherited(h, t.ref, tail);
    DelGets(h, next, t.ref, tail);
    assert Asks(h, t, tail, t.ref);
    hide Walk, Get, Uses, Sound, Inherited, DelProp, SameFor, DiffersAt, Asks;
    assert Get(g, t, tail) == last;
    hide SeenAs;
    if Uses(h, GLOBAL, path, t.ref, tail) {
      BehindMore(h, GLOBAL, path, tail, t.ref, tail);
      WalkDetour(h, g, GLOBAL, path + [tail], t.ref, tail, last);
    } else {
      WalkUnaware(h, g, GLOBAL, path, t.ref, tail);
      WalkAppend(g, GLOBAL, path, tail);
    }
  }

  /** A removed name selects something only if that is inherited, and exactly then if its path does not pass itself. */
  lemma UndefExact(h: Heap, next: nat, name: string)
    requires Sound(h, next) && name != "" && AfterUndef(h, name).1.Done?
    ensures var found := ScanSelect(AfterUndef(h, name).0, GLOBAL, "", name).0.Found?;
      && (found ==> Path(name).Some? && Leftover(h, name).Found?)
      && (!PassesItself(h, BasePath(name), LastPart(name)) ==>
            (found <==> Path(name).Some? && Leftover(h, name).Found?))
  {
    hide ScanSelect, Path, Leftover, PassesItself, Sound, AfterUndef;
    UndefThenSelect(h, next, name);
  }

  /** A property of the usual prototype can be removed from an object and is still selected. */
  lemma InheritedSurvives()
    ensures var h: Heap := map[0 := Object(map[], [1]), 1 := Object(map["k" := Number(7)], [])];
      var d := AfterUndef(h, "k");
      && Sound(h, 2) && d.1 == Done && ScanSelect(d.0, GLOBAL, "", "k").0 == Found(Number(7))
  {
    var h: Heap := map[0 := Object(map[], [1]), 1 := Object(map["k" := Number(7)], [])];
    assert LastDot("k") == -1 by {
      assert "k"[..0] == "";
    }
    assert SplitSelector("k") == Split("", "k");
    EmptyPath();
    PathOfName("k");
    NewPartNeverPasses(h, [], "k");
    assert First(h, [1], "k") == Found(Number(7));
    UndefThenSelect(h, 2, "k");
  }

  // ---------- When the operations fail ----------

  /** Which names a definition refuses, and which because of the objects. */
  lemma DefineOutcome(h: Heap, next: nat, name: string, v: Value)
    ensures var r := AfterDefine(h, next, name, v).2;
      && (r == BadSelector <==> SplitSelector(name).Invalid?)
      && (SplitSelector(name).Split? ==>
            var path := Path(SplitSelector(name).base);
            if path.None? then r == BadName || r == BadTarget
            else
              var b := Build(h, next, GLOBAL, path.value);
              r == if b.result.Reached? && IsObject(b.heap, b.result.value) then Done else BadTarget)
  {
    if SplitSelector(name).Split? {
      var base := SplitSelector(name).base;
      ScanIsBuild(h, next, GLOBAL, "", base);
      if Path(base).Some? {
        NeverInvalid(h, next, GLOBAL, Path(base).value);
      }
      hide ScanDefine, Build, Path, SplitSelector;
    }
  }

  lemma {:induction false} NeverInvalid(h: Heap, next: nat, v: Value, path: seq<string>)
    ensures Build(h, next, v, path).result != InvalidName
    decreases |path|
  {
    if path != [] {
      var d := Descend(h, next, v, path[0]);
      hide Get;
      if d.result.Reached? {
        NeverInvalid(d.heap, d.next, d.result.value, path[1..]);
      }
    }
  }

  /** A name that needs a foreign character in its base is a bad name in a new engine. */
  lemma BadBase()
    ensures SplitSelector("a b.c") == Split("a b", "c") && AfterDefine(EMPTY, 2, "a b.c", Number(5)).2 == BadName
  {
    assert IsWord("c");
    hide Path, IsWord;
    assert "a b" + "." + "c" == "a b.c";
    OneMorePart("a b", "c");
    ScanBad();
  }

  lemma ScanBad()
    ensures ScanDefine(EMPTY, 2, GLOBAL, "", "a b").result == InvalidName
  {
    assert "a b"[1..] == " b" && "" + "a" == "a";
    assert ScanDefine(EMPTY, 2, GLOBAL, "a", " b").result == InvalidName;
  }

  /** A removal succeeds when nothing is there to remove, and fails when a primitive is in the way. */
  lemma UndefOutcome(h: Heap, name: string)
    ensures name == "" ==> AfterUndef(h, name) == (h, Done)
    ensures name != "" ==> (AfterUndef(h, name).1 == BadSelector <==> SplitSelector(name).Invalid?)
    ensures name != "" && SplitSelector(name).Split? && Path(SplitSelector(name).base).Some? ==>
      var w := Walk(h, GLOBAL, Path(SplitSelector(name).base).value);
      && (w.NotFound? ==> AfterUndef(h, name) == (h, Done))
      && (w.TypeError? || (w.Found? && !IsObject(h, w.value)) ==> AfterUndef(h, name) == (h, BadTarget))
      && (w.Found? && IsObject(h, w.value) ==> AfterUndef(h, name).1 == Done)
  {
    if name != "" && SplitSelector(name).Split? {
      ScanIsWalk(h, GLOBAL, "", SplitSelector(name).base);
    }
    hide ScanSelect, Walk, Path, SplitSelector;
  }

  // ---------- Everything else stays ----------

  /** The path goes through the object ref by the key. */
  predicate Through(h: Heap, v: Value, path: seq<string>, ref: nat, key: string)
    decreases |path|
  {
    path != [] &&
    ((v == Obj(ref) && path[0] == key)
      || (Get(h, v, path[0]).Found? && Through(h, Get(h, v, path[0]).value, path[1..], ref, key)))
  }

  lemma {:induction false} ThroughMore(h: Heap, v: Value, path: seq<string>, key: string, ref: nat, k: string)
    ensures Through(h, v, path, ref, k) ==> Through(h, v, path + [key], ref, k)
    ensures Walk(h, v, path) == Found(Obj(ref)) ==> Through(h, v, path + [key], ref, key)
    decreases |path|
  {
    hide Get;
    if path == [] {
      assert ([] + [key])[0] == key;
    } else {
      assert (path + [key])[1..] == path[1..] + [key];
      var r := Get(h, v, path[0]);
      if r.Found? {
        ThroughMore(h, r.value, path[1..], key, ref, k);
      }
    }
  }

  /** Following one property changes at most that property. */
  lemma DescendFrame(h: Heap, next: nat, v: Value, key: string, ref: nat, k: string)
    requires IsObject(h, v) && next !in h
    ensures Own(Descend(h, next, v, key).heap, ref, k) != Own(h, ref, k) ==> v == Obj(ref) && k == key
  {
  }

  /** Building changes no property of its own of an object that the path does not go through. */
  lemma {:induction false} BuildFrame(h: Heap, next: nat, v: Value, path: seq<string>, ref: nat, k: string)
    requires Sound(h, next) && (v.Obj? ==> v.ref in h) && Build(h, next, v, path).result.Reached?
    ensures var b := Build(h, next, v, path);
      Own(b.heap, ref, k) != Own(h, ref, k) ==> Through(b.heap, v, path, ref, k)
    decreases |path|
  {
    hide Sound, Descend, Get, Own;
    if path != [] {
      if IsObject(h, v) {
        var d := Descend(h, next, v, path[0]);
        DescendSound(h, next, v, path[0]);
        FreeReference(h, next);
        DescendFrame(h, next, v, path[0], ref, k);
        BuildFrame(d.heap, d.next, d.result.value, path[1..], ref, k);
        BuildWalks(d.heap, d.next, d.result.value, path[1..]);
      } else {
        PrimitiveEnds(h, next, v, path[0]);
      }
    }
  }

  lemma FreeReference(h: Heap, next: nat)
    requires Sound(h, next)
    ensures next !in h
  {
  }

  /** A definition changes no property of any object but those its own path goes through. */
  lemma DefineFrame(h: Heap, next: nat, name: string, v: Value, ref: nat, k: string)
    requires Sound(h, next) && AfterDefine(h, next, name, v).2.Done?
    ensures var path, tail := BasePath(name), LastPart(name);
      !Through(Created(h, next, path), GLOBAL, path + [tail], ref, k) ==>
        Own(AfterDefine(h, next, name, v).0, ref, k) == Own(h, ref, k)
  {
    Definition(h, next, name, v);
    var path, tail := BasePath(name), LastPart(name);
    var m, t := Created(h, next, path), Target(h, next, path);
    BuildFrame(h, next, GLOBAL, path, ref, k);
    assert Own(m, ref, k) != Own(h, ref, k) ==> Through(m, GLOBAL, path, ref, k);
    SetGets(m, t.ref, tail, v);
    hide AfterDefine, Created, Target, PathFrom, LastDot, Through, Walk, Get, Own, SetProp, SameFor, SeenAs;
    ThroughMore(m, GLOBAL, path, tail, ref, k);
  }

  /** A removal changes no property but the one its path ends with. */
  lemma UndefFrame(h: Heap, next: nat, name: string, ref: nat, k: string)
    requires Sound(h, next) && name != "" && AfterUndef(h, name).1.Done?
    requires !Through(h, GLOBAL, BasePath(name) + [LastPart(name)], ref, k)
    ensures Own(AfterUndef(h, name).0, ref, k) == Own(h, ref, k)
  {
    var Split(base, tail) := SplitSelector(name);
    ScanIsWalk(h, GLOBAL, "", base);
    hide ScanSelect, PathFrom, LastDot, Through, Walk, Get, Own, Sound, DelProp, SameFor, SeenAs;
    var parent := Walk(h, GLOBAL, BasePath(name));
    if Path(base).Some? && parent.Found? && IsObject(h, parent.value) {
      ThroughMore(h, GLOBAL, BasePath(name), tail, parent.value.ref, k);
      DelGets(h, next, parent.value.ref, tail);
    }
  }

  /** Both operations keep the object graph sound, whether they succeed or not. */
  lemma StaysSound(h: Heap, next: nat, name: string, v: Value)
    requires Sound(h, next) && (v.Obj? ==> v.ref in h)
    ensures var d := AfterDefine(h, next, name, v); Sound(d.0, d.1)
    ensures Sound(AfterUndef(h, name).0, next)
  {
    if SplitSelector(name).Split? {
      var Split(base, tail) := SplitSelector(name);
      ScanSound(h, next, GLOBAL, "", base);
      hide ScanDefine, ScanSelect, Sound, Extends, LastDot;
      var b := ScanDefine(h, next, GLOBAL, "", base);
      if b.result.Reached? && IsObject(b.heap, b.result.value) {
        SetSound(b.heap, b.next, b.result.value.ref, tail, v) by {
          assert v.Obj? ==> v.ref in b.heap by { Larger(h, b.heap); }
        }
      }
      var w := ScanSelect(h, GLOBAL, "", base).0;
      if w.Found? && IsObject(h, w.value) {
        DelSound(h, next, w.value.ref, tail);
      }
    }
  }

  lemma Larger(h: Heap, g: Heap)
    requires Extends(h, g)
    ensures forall r <- h :: r in g
  {
  }

  lemma {:induction false} ScanSound(h: Heap, next: nat, v: Value, s: string, name: string)
    requires Sound(h, next)
    ensures var b := ScanDefine(h, next, v, s, name); Sound(b.heap, b.next) && Extends(h, b.heap)
    decreases |name|
  {
    if IsObject(h, v) {
      DescendSound(h, next, v, s);
    }
    hide Sound, Descend;
    if name != "" {
      if name[0] == '.' {
        var b := Descend(h, next, v, s);
        if s != "" && b.result.Reached? {
          PrimitiveEnds(h, next, v, s);
          ScanSound(b.heap, b.next, b.result.value, "", name[1..]);
        }
      } else if IsNameChar(name[0]) {
        ScanSound(h, next, v, s + [name[0]], name[1..]);
      }
    }
  }
}
