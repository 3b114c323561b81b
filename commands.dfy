/** The pen methods a Camera records, the parameter schema of each one, and the
    record `Camera.add` builds for a call. */
module Commands {

  datatype Option<+T> = None | Some(value: T)

  /** The turtle pen methods that are recorded and replayed. */
  datatype Command =
    | Goto | Forward | Fd | Back | Backward | Bk | Circle
    | Left | Right | PenUp | PenDown
    | Reset | HideTurtle | ShowTurtle | Clear

  /** The parameter names that occur in the pen methods' signatures; keyword
      arguments are keyed by them. */
  datatype Param = X | Y | Distance | Radius | Extent | Steps | Angle

  /** The parameter names of each pen method, in declaration order: a fixed
      table standing in for `inspect.signature`. */
  function Params(cmd: Command): seq<Param>
  {
    match cmd
    case Goto => [X, Y]
    case Forward | Fd | Back | Backward | Bk => [Distance]
    case Circle => [Radius, Extent, Steps]
    case Left | Right => [Angle]
    case PenUp | PenDown | Reset | HideTurtle | ShowTurtle | Clear => []
  }

  /** The arguments of `cmd(*args, **kwargs)` bind to the pen method's
      signature: no more positional arguments than parameters, only its own
      parameter names as keywords, no parameter passed both ways, and its first
      parameter (the only one without a default) supplied. A goto also needs a
      y, since `goto(x)` reads `x` as a point. Otherwise issuing the call
      raises TypeError. Only the binding is checked: a non-integer `steps` of
      a circle binds, but still raises inside the pen. */
  predicate Binds(cmd: Command, args: seq<real>, kwargs: map<Param, real>)
  {
    |args| <= |Params(cmd)|
    && (forall i :: 0 <= i < |args| ==> Params(cmd)[i] !in kwargs)
    && (forall k :: k in kwargs ==> k in Params(cmd))
    && (|Params(cmd)| > 0 ==> |args| > 0 || Params(cmd)[0] in kwargs)
    && (cmd == Goto ==> |args| > 1 || Y in kwargs)
  }

  /** Every recorded call in `records` is one its pen method accepts. */
  predicate AllBind(records: seq<Record>)
  {
    forall i :: 0 <= i < |records| ==> Binds(records[i].cmd, records[i].args, records[i].kwargs)
  }

  /** The commands whose first argument is a length (distance or radius). */
  predicate ScalesLength(cmd: Command)
  {
    cmd in {Forward, Fd, Back, Backward, Bk, Circle}
  }

  /** Position of the first parameter called `name`. */
  function IndexOf(names: seq<Param>, name: Param): (i: nat)
    requires name in names
    ensures i < |names| && names[i] == name
    ensures forall j :: 0 <= j < i ==> names[j] != name
  {
    if names[0] == name then 0 else 1 + IndexOf(names[1..], name)
  }

  /** One call of a pen method: positional and keyword arguments. */
  datatype Call = Call(cmd: Command, args: seq<real>, kwargs: map<Param, real>)

  /** A recorded drawing call together with the world coordinates it was
      recorded with (None where no coordinate was found). */
  datatype Record = Record(
    cmd: Command,
    args: seq<real>,
    kwargs: map<Param, real>,
    originalX: Option<real>,
    originalY: Option<real>)

  /** The recorded world coordinate for `name`: the keyword argument of that
      name, else the positional argument at `pos`, else None. */
  function Recorded(name: Param, pos: nat, args: seq<real>, kwargs: map<Param, real>): (o: Option<real>)
    ensures name in kwargs ==> o == Some(kwargs[name])
    ensures name !in kwargs && pos < |args| ==> o == Some(args[pos])
    ensures o.None? <==> name !in kwargs && |args| <= pos
  {
    if name in kwargs then Some(kwargs[name])
    else if pos < |args| then Some(args[pos])
    else None
  }

  /** The record `Camera.add` stores for `cmd(*args, **kwargs)`. */
  function MakeRecord(cmd: Command, args: seq<real>, kwargs: map<Param, real>): Record
  {
    Record(cmd, args, kwargs, Recorded(X, 0, args, kwargs), Recorded(Y, 1, args, kwargs))
  }
}
