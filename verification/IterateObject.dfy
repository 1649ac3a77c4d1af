/**
 * The functional iteration of objects and arrays (each, any, none, all) as the value stack of the
 * engine sees it.
 */
module IterateObject {
  import opened Common

  datatype Value =
    | Undefined
    | Boolean(b: bool)
    | Int(n: int)
    | Text(s: string)
    | Object(id: nat, callable: bool, isArray: bool)
    | Enumerator

  datatype Mode = ForEach | Any | NoneOf | All

  /** What calling a function ends with. */
  datatype Result = Gives(value: Value) | Raises(error: Value)

  /** What the iteration ends with. */
  datatype Outcome = Nothing | Returns(value: Value) | Throws(error: Value) | BadArguments

  datatype Call = Call(function_: Value, args: seq<Value>)

  datatype Item = Item(key: Value, value: Value)

  /**
   * What is outside: the function may do anything, so the property delivered next and the result of the
   * last call depend on all calls so far. The keys are those of the beginning, no more than limit.
   */
  datatype World = World(limit: nat, next: seq<Call> -> Option<Item>, answer: seq<Call> -> Result, toInt: Value -> Value)

  function Answer(w: World, calls: seq<Call>): Result {
    w.answer(calls)
  }

  function Converted(w: World, key: Value): Value {
    w.toInt(key)
  }

  /** The property delivered after these calls, when this is the (position + 1)-th. */
  function Delivered(w: World, calls: seq<Call>, position: nat): Option<Item> {
    if position < w.limit then w.next(calls) else None
  }

  // ---------- What an iteration is ----------

  datatype Iteration = Iteration(mode: Mode, fn: Value, receiver: Value, world: World)

  predicate IsArray(v: Value) {
    v.Object? && v.isArray
  }

  /** The function sees the value, the key (a number for arrays) and the object. */
  function CallFor(it: Iteration, item: Item): Call {
    Call(it.fn, [item.value, if IsArray(it.receiver) then Converted(it.world, item.key) else item.key, it.receiver])
  }

  /** The properties delivered behind these calls, as long as no result ends the iteration. */
  function Rest(it: Iteration, calls: seq<Call>): seq<Item>
    decreases it.world.limit - |calls|
  {
    var item := Delivered(it.world, calls, |calls|);
    if item.None? then [] else [item.value] + Rest(it, calls + [CallFor(it, item.value)])
  }

  function Items(it: Iteration): seq<Item> {
    Rest(it, [])
  }

  /** The first n calls. */
  function CallsOf(it: Iteration, n: nat): (r: seq<Call>)
    requires n <= |Items(it)|
    ensures |r| == n
  {
    seq(n, i requires 0 <= i < n => CallFor(it, Items(it)[i]))
  }

  function ResultOf(it: Iteration, i: nat): Result
    requires i < |Items(it)|
  {
    Answer(it.world, CallsOf(it, i + 1))
  }

  predicate SaysTrue(r: Result) {
    r == Gives(Boolean(true))
  }

  /** A result that ends the iteration. */
  predicate Decides(mode: Mode, r: Result) {
    r.Raises? ||
    match mode
    case ForEach => false
    case Any => SaysTrue(r)
    case NoneOf => SaysTrue(r)
    case All => !SaysTrue(r)
  }

  /** The first item from i on whose result ends the iteration, or the number of items. */
  function Decider(it: Iteration, i: nat): (d: nat)
    requires i <= |Items(it)|
    ensures i <= d <= |Items(it)|
    decreases |Items(it)| - i
  {
    if i == |Items(it)| || Decides(it.mode, ResultOf(it, i)) then i else Decider(it, i + 1)
  }

  lemma {:induction false} DeciderIsFirst(it: Iteration, i: nat)
    requires i <= |Items(it)|
    ensures var d := Decider(it, i);
      && (d < |Items(it)| ==> Decides(it.mode, ResultOf(it, d)))
      && forall j :: i <= j < d ==> !Decides(it.mode, ResultOf(it, j))
    decreases |Items(it)| - i
  {
    hide ResultOf, Decides;
    if i < |Items(it)| && !Decides(it.mode, ResultOf(it, i)) {
      DeciderIsFirst(it, i + 1);
    }
  }

  /** The outcome when the iteration ends at item d, or runs through. */
  function OutcomeAt(it: Iteration, d: nat): Outcome
    requires d <= |Items(it)|
  {
    if d < |Items(it)| && ResultOf(it, d).Raises? then Throws(ResultOf(it, d).error)
    else if it.mode == ForEach then Nothing
    else Returns(Boolean((d < |Items(it)|) == (it.mode == Any)))
  }

  /** The first item that ends the iteration, one item at a time. */
  lemma DeciderStep(it: Iteration, i: nat)
    requires i < |Items(it)| && i <= Decider(it, 0)
    ensures if Decides(it.mode, ResultOf(it, i)) then Decider(it, 0) == i else Decider(it, 0) > i
  {
    DeciderIsFirst(it, 0);
    hide ResultOf, Decider, Decides;
  }

  lemma CallsStep(it: Iteration, i: nat)
    requires i < |Items(it)|
    ensures CallsOf(it, i) + [CallFor(it, Items(it)[i])] == CallsOf(it, i + 1)
  {
  }

  /** After n calls the remaining properties are delivered, whatever the function did in them. */
  lemma {:induction false} RestOfItems(it: Iteration, n: nat)
    requires n <= |Items(it)|
    ensures Rest(it, CallsOf(it, n)) == Items(it)[n..]
  {
    hide Delivered, CallFor;
    if n == 0 {
      assert CallsOf(it, 0) == [];
    } else {
      RestOfItems(it, n - 1);
      CallsStep(it, n - 1);
      assert Items(it)[n - 1..][1..] == Items(it)[n..];
    }
  }

  /** The property after i calls is property i, and there is none behind the last one. */
  lemma NextItem(it: Iteration, i: nat)
    requires i <= |Items(it)|
    ensures var item := Delivered(it.world, CallsOf(it, i), i);
      if i < |Items(it)| then item == Some(Items(it)[i]) else item == None
  {
    RestOfItems(it, i);
    hide Delivered, CallFor, Items, CallsOf;
  }

  lemma RunsThrough(it: Iteration)
    ensures OutcomeAt(it, |Items(it)|) ==
      match it.mode
      case ForEach => Nothing
      case Any => Returns(Boolean(false))
      case NoneOf => Returns(Boolean(true))
      case All => Returns(Boolean(true))
  {
  }

  // ---------- What the outcome means ----------

  /** Without errors the outcome is the quantifier that the mode is named after. */
  lemma QuantifierExact(it: Iteration)
    requires forall i :: 0 <= i < |Items(it)| ==> ResultOf(it, i).Gives?
    ensures var r := OutcomeAt(it, Decider(it, 0));
      var some := exists i :: 0 <= i < |Items(it)| && SaysTrue(ResultOf(it, i));
      var every := forall i :: 0 <= i < |Items(it)| ==> SaysTrue(ResultOf(it, i));
      match it.mode
      case ForEach => r == Nothing && Decider(it, 0) == |Items(it)|
      case Any => r == Returns(Boolean(some))
      case NoneOf => r == Returns(Boolean(!some))
      case All => r == Returns(Boolean(every))
  {
    DeciderIsFirst(it, 0);
    hide ResultOf, Decider;
  }

  /** An error surfaces if and only if no earlier item decides. */
  lemma ErrorExact(it: Iteration, i: nat)
    requires i < |Items(it)| && ResultOf(it, i).Raises?
    requires forall j :: 0 <= j < i ==> ResultOf(it, j).Gives?
    ensures OutcomeAt(it, Decider(it, 0)) == Throws(ResultOf(it, i).error) <==>
      forall j :: 0 <= j < i ==> !Decides(it.mode, ResultOf(it, j))
    ensures OutcomeAt(it, Decider(it, 0)).Throws? ==> Decider(it, 0) == i
  {
    DeciderIsFirst(it, 0);
    hide ResultOf, Decider;
  }

  /** A function of value, key and object that always answers with a boolean. */
  type Predicate = (Value, Value, Value) -> bool

  function Test(f: Predicate, value: Value, key: Value, receiver: Value): bool {
    f(value, key, receiver)
  }

  /** The world in which calling the function means to ask f about the three arguments. */
  ghost predicate Asks(w: World, f: Predicate) {
    forall calls: seq<Call> :: calls != [] && |calls[|calls| - 1].args| == 3 ==>
      var a := calls[|calls| - 1].args;
      Answer(w, calls) == Gives(Boolean(Test(f, a[0], a[1], a[2])))
  }

  /** What f says of a property: its value first, then its key, a number for arrays, then the object. */
  predicate Holds(it: Iteration, f: Predicate, item: Item) {
    var key := if it.receiver.Object? && it.receiver.isArray then Converted(it.world, item.key) else item.key;
    Test(f, item.value, key, it.receiver)
  }

  lemma ResultIsTest(it: Iteration, f: Predicate, i: nat)
    requires Asks(it.world, f) && i < |Items(it)|
    ensures ResultOf(it, i) == Gives(Boolean(Holds(it, f, Items(it)[i])))
  {
    var calls := CallsOf(it, i + 1);
    assert calls[i] == CallFor(it, Items(it)[i]) && calls[|calls| - 1] == calls[i];
    hide Items, CallsOf, Test, Converted, Answer;
  }

  /** For such a function any, none and all are the quantifiers over the properties. */
  lemma QuantifiesOverProperties(it: Iteration, f: Predicate)
    requires Asks(it.world, f)
    ensures var r, items := OutcomeAt(it, Decider(it, 0)), Items(it);
      match it.mode
      case ForEach => r == Nothing
      case Any => r == Returns(Boolean(exists i :: 0 <= i < |items| && Holds(it, f, items[i])))
      case NoneOf => r == Returns(Boolean(!exists i :: 0 <= i < |items| && Holds(it, f, items[i])))
      case All => r == Returns(Boolean(forall i :: 0 <= i < |items| ==> Holds(it, f, items[i])))
  {
    hide Items, ResultOf, OutcomeAt, Decider, Holds, Asks;
    forall i: nat | i < |Items(it)|
      ensures ResultOf(it, i) == Gives(Boolean(Holds(it, f, Items(it)[i])))
    {
      ResultIsTest(it, f, i);
    }
    QuantifierExact(it);
  }

  /** What is left on the stack. */
  function Left(r: Outcome): seq<Value> {
    match r
    case Returns(v) => [v]
    case Throws(e) => [e]
    case _ => []
  }

  // ---------- The engine ----------

  class Engine {
    var stack: seq<Value>
    var position: nat
    var calls: seq<Call>
    const receiver: Value
    const world: World

    constructor (arguments: seq<Value>, receiver: Value, world: World)
      ensures stack == arguments && position == 0 && calls == []
      ensures this.receiver == receiver && this.world == world
    {
      this.receiver, this.world := receiver, world;
      stack, position, calls := arguments, 0, [];
    }

    method Push(v: Value)
      modifies `stack
      ensures stack == old(stack) + [v]
    {
      stack := stack + [v];
    }

    method Swap(i: nat, j: nat)
      requires i < |stack| && j < |stack|
      modifies `stack
      ensures stack == old(stack)[i := old(stack)[j]][j := old(stack)[i]]
    {
      stack := stack[i := stack[j]][j := stack[i]];
    }

    method Dup(i: nat)
      requires i < |stack|
      modifies `stack
      ensures stack == old(stack) + [old(stack)[i]]
    {
      stack := stack + [stack[i]];
    }

    /** Cuts the stack, or fills it with undefined values. */
    method Top(n: nat)
      modifies `stack
      ensures n <= |old(stack)| ==> stack == old(stack)[..n]
      ensures n > |old(stack)| ==> stack == old(stack) + seq(n - |old(stack)|, _ => Undefined)
    {
      stack := if n <= |stack| then stack[..n] else stack + seq(n - |stack|, _ => Undefined);
    }

    /** Pushes the next key and value of the enumerator, if there is one. */
    method Next(i: nat) returns (more: bool)
      requires i < |stack| && stack[i] == Enumerator
      modifies `stack, `position
      ensures var item := Delivered(world, calls, old(position));
        && more == item.Some?
        && position == old(position) + (if more then 1 else 0)
        && stack == old(stack) + if more then [item.value.key, item.value.value] else []
    {
      var item := Delivered(world, calls, position);
      more := item.Some?;
      if more {
        stack := stack + [item.value.key, item.value.value];
        position := position + 1;
      }
    }

    method ToInt(i: nat)
      requires i < |stack|
      modifies `stack
      ensures stack == old(stack)[i := Converted(world, old(stack)[i])]
    {
      stack := stack[i := Converted(world, stack[i])];
    }

    /** Calls the function below the n top values with them; the result or the error replaces all. */
    method PCall(n: nat) returns (error: bool)
      requires n < |stack|
      modifies `stack, `calls
      ensures var base := |old(stack)| - n - 1;
        var call := Call(old(stack)[base], old(stack)[base + 1..]);
        var r := Answer(world, old(calls) + [call]);
        && calls == old(calls) + [call]
        && error == r.Raises?
        && stack == old(stack)[..base] + [if r.Gives? then r.value else r.error]
    {
      var base := |stack| - n - 1;
      var call := Call(stack[base], stack[base + 1..]);
      calls := calls + [call];
      var r := Answer(world, calls);
      stack := stack[..base] + [if r.Gives? then r.value else r.error];
      error := r.Raises?;
    }

    /** The iteration these arguments and this object start. */
    ghost function Started(mode: Mode): Iteration
      reads this
      requires stack != []
    {
      Iteration(mode, stack[0], receiver, world)
    }

    /** [enum, fn, this, key, value] becomes [enum, fn, this, result] by one call. */
    method Apply(mode: Mode, fn: Value, numericallyIndexed: bool, ghost item: Item) returns (error: bool)
      requires stack == [Enumerator, fn, receiver, item.key, item.value]
      requires numericallyIndexed == IsArray(receiver)
      modifies `stack, `calls
      ensures var it := Iteration(mode, fn, receiver, world);
        var r := Answer(world, calls);
        && calls == old(calls) + [CallFor(it, item)]
        && error == r.Raises?
        && stack == [Enumerator, fn, receiver, if r.Raises? then r.error else r.value]
    {
      hide Answer, Converted;
      Dup(1);
      Swap(3, 5);
      Dup(2);
      if numericallyIndexed {
        ToInt(5);
      }
      ghost var it := Iteration(mode, fn, receiver, world);
      assert stack[4..] == CallFor(it, item).args;
      error := PCall(3);
    }

    /** Leaves one boolean on the stack. */
    method Leave(b: bool) returns (r: Outcome)
      modifies `stack
      ensures stack == [Boolean(b)] && r == Returns(Boolean(b))
    {
      Top(0);
      Push(Boolean(b));
      r := Returns(stack[0]);
    }

    /** Looks at the result on top and leaves when it decides. */
    method Judge(mode: Mode) returns (done: bool, r: Outcome)
      requires stack != []
      modifies `stack
      ensures done == (mode != ForEach && (old(stack)[|old(stack)| - 1] == Boolean(true)) == (mode != All))
      ensures if done then r == Returns(Boolean(mode == Any)) && stack == [r.value] else stack == old(stack)
    {
      done, r := true, Nothing;
      var result := stack[|stack| - 1];
      match mode {
        case ForEach =>
        case Any =>
          if result == Boolean(true) {
            r := Leave(true);
            return;
          }
        case NoneOf =>
          if result == Boolean(true) {
            r := Leave(false);
            return;
          }
        case All =>
          if result != Boolean(true) {
            r := Leave(false);
            return;
          }
      }
      done := false;
    }

    /** One turn of the loop, from [enum, fn, this, key, value] back to [enum, fn, this]. */
    method Turn(mode: Mode, numericallyIndexed: bool, ghost it: Iteration, ghost i: nat) returns (done: bool, r: Outcome)
      requires |stack| == 5 && it == Iteration(mode, stack[1], receiver, world)
      requires i < |Items(it)| && calls == CallsOf(it, i)
      requires stack == [Enumerator, it.fn, receiver, Items(it)[i].key, Items(it)[i].value]
      requires numericallyIndexed == IsArray(receiver)
      modifies `stack, `calls
      ensures calls == CallsOf(it, i + 1)
      ensures done == Decides(mode, ResultOf(it, i))
      ensures if done then r == OutcomeAt(it, i) && stack == Left(r) else stack == old(stack[..3])
    {
      CallsStep(it, i);
      hide Items, CallsOf, CallFor, IsArray, Answer;
      var error := Apply(mode, stack[1], numericallyIndexed, Items(it)[i]);
      assert Answer(world, calls) == ResultOf(it, i);
      if error {
        Swap(0, |stack| - 1);
        Top(1);
        return true, Throws(stack[0]);
      }
      done, r := Judge(mode);
      if !done {
        Top(3);
      }
    }

    /** The loop and what follows it, from [enum, fn, this] on. */
    method Loop(mode: Mode, numericallyIndexed: bool) returns (r: Outcome)
      requires position == 0 && calls == []
      requires |stack| == 3 && stack[0] == Enumerator && stack[2] == receiver
      requires numericallyIndexed == IsArray(receiver)
      modifies `stack, `position, `calls
      ensures var it := Iteration(mode, old(stack[1]), receiver, world);
        var d := Decider(it, 0);
        && calls == CallsOf(it, if d < |Items(it)| then d + 1 else d)
        && r == OutcomeAt(it, d)
        && stack == Left(r)
    {
      ghost var it := Iteration(mode, stack[1], receiver, world);
      assert CallsOf(it, 0) == [];
      hide Decider, CallsOf, OutcomeAt, ResultOf, Decides, CallFor, IsArray, Items, Delivered;
      ghost var i: nat := 0;
      NextItem(it, 0);
      var more := Next(0);
      while more
        modifies `stack, `position, `calls
        invariant i <= |Items(it)| && i <= Decider(it, 0) && calls == CallsOf(it, i)
        invariant if more then i < |Items(it)| && position == i + 1 else position == i == |Items(it)|
        invariant more ==> stack == [Enumerator, it.fn, receiver, Items(it)[i].key, Items(it)[i].value]
        decreases |Items(it)| - i
      {
        DeciderStep(it, i);
        var done;
        done, r := Turn(mode, numericallyIndexed, it, i);
        if done {
          return;
        }
        i := i + 1;
        NextItem(it, i);
        more := Next(0);
      }
      RunsThrough(it);
      match mode {
        case ForEach =>
          Top(0);
          r := Nothing;
        case Any =>
          r := Leave(false);
        case NoneOf =>
          r := Leave(true);
        case All =>
          r := Leave(true);
      }
    }

    /**
     * With one callable argument on an array or object: calls the function on the shortest deciding
     * prefix of the properties, in order, and leaves exactly the result on the stack.
     */
    method Iterate(mode: Mode) returns (r: Outcome)
      requires position == 0 && calls == []
      modifies this
      ensures old(|stack| != 1 || !(stack[0].Object? && stack[0].callable) || !receiver.Object?) ==>
        r == BadArguments && calls == []
      ensures old(|stack| == 1 && stack[0].Object? && stack[0].callable) && receiver.Object? ==>
        var it := old(Started(mode));
        var d := Decider(it, 0);
        && calls == CallsOf(it, if d < |Items(it)| then d + 1 else d)
        && r == OutcomeAt(it, d)
        && stack == Left(r)
    {
      if |stack| != 1 || !stack[0].Object? || !stack[0].callable {
        return BadArguments;
      }
      ghost var it := Started(mode);
      Push(receiver);
      var numericallyIndexed := IsArray(stack[1]);
      if !stack[1].Object? {
        return BadArguments;
      }
      Push(Enumerator);
      Swap(0, 2);
      Swap(1, 2);
      r := Loop(mode, numericallyIndexed);
    }
  }
}
