/** Command-line arguments of the Ethereum 2 clients. A client builds a list of
    arguments, each a bare flag or a flag with a value, and renders it in one of
    two ways: Teku passes a flag and its value as two elements, Nimbus passes one
    element per argument, built by `argWithVal(flag, value)`. */
module ClientArgs {

  datatype Arg = Switch(flag: string) | Opt(flag: string, value: string)

  /** One argument as separate elements: the flag, then its value if any. */
  function Spread1(a: Arg): seq<string> {
    match a
    case Switch(f) => [f]
    case Opt(f, v) => [f, v]
  }

  /** The arguments with every flag and every value as an element of its own. */
  function Spread(args: seq<Arg>): (r: seq<string>)
    ensures |args| <= |r| <= 2 * |args|
    decreases |args|
  {
    if |args| == 0 then [] else Spread1(args[0]) + Spread(args[1..])
  }

  /** One argument as a single element. */
  function Joined1(a: Arg, argWithVal: (string, string) -> string): string {
    match a
    case Switch(f) => f
    case Opt(f, v) => argWithVal(f, v)
  }

  /** The arguments one element each, flag and value joined by `argWithVal`. */
  function Joined(args: seq<Arg>, argWithVal: (string, string) -> string): (r: seq<string>)
    ensures |r| == |args|
    ensures forall k :: 0 <= k < |args| ==> r[k] == Joined1(args[k], argWithVal)
  {
    seq(|args|, k requires 0 <= k < |args| => Joined1(args[k], argWithVal))
  }

  /** `b` comes right after `a` somewhere in `xs`. */
  predicate Adjacent(xs: seq<string>, a: string, b: string) {
    exists k :: 0 <= k < |xs| - 1 && xs[k] == a && xs[k + 1] == b
  }

  lemma {:induction false} SpreadAppend(a: seq<Arg>, b: seq<Arg>)
    ensures Spread(a + b) == Spread(a) + Spread(b)
    decreases |a|
  {
    if |a| == 0 {
      assert a + b == b;
    } else {
      assert (a + b)[1..] == a[1..] + b;
      SpreadAppend(a[1..], b);
    }
  }

  /** Spreading keeps every argument intact: the flag of an option is followed by its
      value, and every bare flag appears. */
  lemma SpreadKeeps(args: seq<Arg>, a: Arg)
    requires a in args
    ensures a.Opt? ==> Adjacent(Spread(args), a.flag, a.value)
    ensures a.flag in Spread(args)
  {
    var k :| 0 <= k < |args| && args[k] == a;
    var before, after := args[..k], args[k + 1..];
    assert args == before + [a] + after;
    SpreadAppend(before + [a], after);
    SpreadAppend(before, [a]);
    assert Spread([a]) == Spread1(a);
    var r := Spread(args);
    assert r == Spread(before) + Spread1(a) + Spread(after);
    var i := |Spread(before)|;
    assert r[i] == a.flag;
    if a.Opt? {
      assert r[i + 1] == a.value;
    }
  }

  /** Every element of the spread list is a flag or a value of some argument. */
  lemma {:induction false} SpreadOnly(args: seq<Arg>, x: string)
    requires x in Spread(args)
    ensures exists a :: a in args && (x == a.flag || (a.Opt? && x == a.value))
    decreases |args|
  {
    assert |args| > 0;
    if x in Spread1(args[0]) {
      assert args[0] in args;
    } else {
      SpreadOnly(args[1..], x);
      var a :| a in args[1..] && (x == a.flag || (a.Opt? && x == a.value));
      assert a in args;
    }
  }

  /** Joining keeps every argument as one element. */
  lemma JoinedKeeps(args: seq<Arg>, a: Arg, argWithVal: (string, string) -> string)
    requires a in args
    ensures Joined1(a, argWithVal) in Joined(args, argWithVal)
  {
    var k :| 0 <= k < |args| && args[k] == a;
    assert Joined(args, argWithVal)[k] == Joined1(a, argWithVal);
  }

  lemma AdjacentIn(xs: seq<string>, a: string, b: string)
    requires Adjacent(xs, a, b)
    ensures a in xs && b in xs
  {
    var k :| 0 <= k < |xs| - 1 && xs[k] == a && xs[k + 1] == b;
    assert xs[k + 1] in xs;
  }
}
