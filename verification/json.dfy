/**
 * JSON-shaped values as the Python code handles them (`dict[str, Any]`,
 * lists, strings, numbers, booleans and `None`), plus the few Python
 * built-ins the core leans on: truthiness, `str(int)` and `str.join`.
 */
module Json {

  datatype Option<+T> = None | Some(value: T) {
    function GetOr(default: T): T {
      match this
      case Some(v) => v
      case None => default
    }
  }

  /** A decoded JSON value. `Real` stands for a Python float. */
  datatype Value =
    | Null
    | Bool(b: bool)
    | Int(i: int)
    | Real(r: real)
    | Str(s: string)
    | List(items: seq<Value>)
    | Obj(fields: map<string, Value>)

  /** A Python `dict[str, Any]`; Dafny maps keep no insertion order. */
  type Object = map<string, Value>

  /** Python's `bool(v)` on a JSON value. */
  predicate Truthy(v: Value) {
    match v
    case Null => false
    case Bool(b) => b
    case Int(i) => i != 0
    case Real(r) => r != 0.0
    case Str(s) => s != ""
    case List(items) => items != []
    case Obj(fields) => fields != map[]
  }

  /** `d.get(key, default)` on a dict. */
  function Get(d: Object, key: string, default: Value): Value {
    if key in d then d[key] else default
  }

  /** Wraps an optional string argument as an optional JSON value. */
  function OptStr(o: Option<string>): Option<Value> {
    match o
    case None => None
    case Some(s) => Some(Str(s))
  }

  function OptInt(o: Option<int>): Option<Value> {
    match o
    case None => None
    case Some(n) => Some(Int(n))
  }

  function OptReal(o: Option<real>): Option<Value> {
    match o
    case None => None
    case Some(x) => Some(Real(x))
  }

  function OptObj(o: Option<Object>): Option<Value> {
    match o
    case None => None
    case Some(d) => Some(Obj(d))
  }

  function StrList(xs: seq<string>): (r: seq<Value>)
    ensures |r| == |xs|
    ensures forall i :: 0 <= i < |xs| ==> r[i] == Str(xs[i])
  {
    if xs == [] then [] else [Str(xs[0])] + StrList(xs[1..])
  }

  function OptStrList(o: Option<seq<string>>): Option<Value> {
    match o
    case None => None
    case Some(xs) => Some(List(StrList(xs)))
  }

  /**
   * The conditional-insert idiom `if arg is not None: d[key] = arg`:
   * `key` is present exactly when the argument was given, holding it.
   */
  predicate OptField(d: Object, key: string, arg: Option<Value>) {
    && (key in d <==> arg.Some?)
    && (arg.Some? ==> d[key] == arg.value)
  }

  /** The key set contributed by one conditional insert. */
  function Present(key: string, given: bool): set<string> {
    if given then {key} else {}
  }

  // -----------------------------------------------------------------------
  // Keyword arguments
  // -----------------------------------------------------------------------

  /** A keyword argument as a tool forwards it: the dict key and the value, `None` when omitted. */
  type Arg = (string, Option<Value>)

  /**
   * The dict a run of conditional inserts builds: each argument in turn is
   * written under its key when given; a later write of a key wins.
   */
  function Given(args: seq<Arg>): Object {
    if args == [] then map[]
    else
      var d := Given(args[..|args| - 1]);
      var a := args[|args| - 1];
      if a.1.Some? then d[a.0 := a.1.value] else d
  }

  /** One more argument: written when given, otherwise nothing changes. */
  lemma GivenAppend(args: seq<Arg>, a: Arg)
    ensures Given(args + [a]) == if a.1.Some? then Given(args)[a.0 := a.1.value] else Given(args)
  {
    assert (args + [a])[..|args|] == args;
  }

  /** `if arg is not None: d[key] = arg`, one insert of a run described by `args`. */
  method Put(d: Object, key: string, arg: Option<Value>, ghost args: seq<Arg>) returns (r: Object)
    requires d == Given(args)
    ensures r == Given(args + [(key, arg)])
  {
    GivenAppend(args, (key, arg));
    r := d;
    if arg.Some? {
      r := r[key := arg.value];
    }
  }

  /** No key occurs twice among the arguments. */
  predicate DistinctKeys(args: seq<Arg>) {
    forall i, j :: 0 <= i < j < |args| ==> args[i].0 != args[j].0
  }

  /** A key is in the built dict exactly when some argument under it was given. */
  lemma {:induction false} GivenKeys(args: seq<Arg>, k: string)
    ensures k in Given(args) <==> exists i :: 0 <= i < |args| && args[i].0 == k && args[i].1.Some?
  {
    if args != [] {
      var init := args[..|args| - 1];
      GivenKeys(init, k);
      if k in Given(args) && k in Given(init) {
        var i :| 0 <= i < |init| && init[i].0 == k && init[i].1.Some?;
        assert args[i] == init[i];
      }
      if k !in Given(args) {
        forall i | 0 <= i < |args| && args[i].0 == k ensures args[i].1.None? {
          if i < |init| {
            assert args[i] == init[i];
          }
        }
      }
    }
  }

  /** No other argument shares the key of argument `i`. */
  predicate KeyOnce(args: seq<Arg>, i: nat) {
    i < |args| && forall j :: 0 <= j < |args| && j != i ==> args[j].0 != args[i].0
  }

  /** An argument whose key occurs once ends up in the dict as the conditional insert promises. */
  lemma {:induction false} GivenField(args: seq<Arg>, i: nat)
    requires KeyOnce(args, i)
    ensures OptField(Given(args), args[i].0, args[i].1)
  {
    var init := args[..|args| - 1];
    if i < |init| {
      assert init[i] == args[i];
      assert KeyOnce(init, i) by {
        forall j | 0 <= j < |init| && j != i ensures init[j].0 != init[i].0 {
          assert init[j] == args[j];
        }
      }
      GivenField(init, i);
    } else {
      GivenKeys(init, args[i].0);
      forall j | 0 <= j < |init| ensures init[j].0 != args[i].0 {
        assert init[j] == args[j];
      }
    }
  }

  /** With distinct keys, every argument ends up in the dict as given. */
  lemma AllFieldsGiven(args: seq<Arg>)
    requires DistinctKeys(args)
    ensures forall i :: 0 <= i < |args| ==> OptField(Given(args), args[i].0, args[i].1)
  {
    forall i | 0 <= i < |args| ensures OptField(Given(args), args[i].0, args[i].1) {
      GivenField(args, i);
    }
  }

  /** Python's `str(n)` on an int. */
  function Decimal(n: int): (r: string)
    ensures |r| >= 1
  {
    if n < 0 then "-" + Digits(-n) else Digits(n)
  }

  function Digits(n: nat): (r: string)
    ensures |r| >= 1
    ensures forall i :: 0 <= i < |r| ==> '0' <= r[i] <= '9'
  {
    if n < 10 then [DigitChar(n)] else Digits(n / 10) + [DigitChar(n % 10)]
  }

  function DigitChar(d: nat): (c: char)
    requires d < 10
    ensures '0' <= c <= '9'
  {
    ['0', '1', '2', '3', '4', '5', '6', '7', '8', '9'][d]
  }

  /** Python's `sep.join(parts)`. */
  function Join(parts: seq<string>, sep: string): string {
    if parts == [] then ""
    else if |parts| == 1 then parts[0]
    else parts[0] + sep + Join(parts[1..], sep)
  }
}
