/** The camera transform applied to recorded calls during a replay, the call
    sequence one replay pass issues, and the bookkeeping of replay tokens. */
module Transform {
  import opened Commands

  /** World coordinate to screen coordinate along one axis. */
  function ToScreen(world: real, offset: real, scale: real): real
  {
    (world - offset) * scale
  }

  /** The world coordinate a record carries for parameter `name` (X or Y). */
  function Original(rec: Record, name: Param): Option<real>
  {
    if name == X then rec.originalX else rec.originalY
  }

  /** Replay rewrites parameter `name` of `rec`: the command has a parameter of
      that name and a coordinate was recorded for it. */
  predicate Placed(rec: Record, name: Param)
  {
    name in Params(rec.cmd) && Original(rec, name).Some?
  }

  /** ... and the call passed it by keyword. */
  predicate PlacedByKeyword(rec: Record, name: Param)
  {
    Placed(rec, name) && name in rec.kwargs
  }

  /** ... and the call passed it positionally, in slot `i`. */
  predicate PlacedAtIndex(rec: Record, name: Param, i: int)
  {
    Placed(rec, name) && name !in rec.kwargs && IndexOf(Params(rec.cmd), name) == i
  }

  /** Multiplies the value under `key`, if present, by `scale`. */
  function ScaleKey(kwargs: map<Param, real>, key: Param, scale: real): (r: map<Param, real>)
    ensures r.Keys == kwargs.Keys
  {
    if key in kwargs then kwargs[key := kwargs[key] * scale] else kwargs
  }

  /** Step one of the rewrite: the distance or radius of a length command. */
  function ScaleLength(call: Call, scale: real): (r: Call)
    ensures r.cmd == call.cmd && |r.args| == |call.args| && r.kwargs.Keys == call.kwargs.Keys
  {
    if ScalesLength(call.cmd) then
      var args := if |call.args| > 0 then call.args[0 := call.args[0] * scale] else call.args;
      call.(args := args, kwargs := ScaleKey(ScaleKey(call.kwargs, Distance, scale), Radius, scale))
    else call
  }

  /** Steps two and three: the `name` slot, by keyword if it was passed by name,
      else at its parameter index if the call reached that index. */
  function PlaceCoordinate(call: Call, name: Param, original: Option<real>, offset: real, scale: real): (r: Call)
    ensures r.cmd == call.cmd && |r.args| == |call.args| && r.kwargs.Keys == call.kwargs.Keys
  {
    if name !in Params(call.cmd) || original.None? then call
    else if name in call.kwargs then
      call.(kwargs := call.kwargs[name := ToScreen(original.value, offset, scale)])
    else
      var i := IndexOf(Params(call.cmd), name);
      if i < |call.args| then call.(args := call.args[i := ToScreen(original.value, offset, scale)])
      else call
  }

  /** The value a replay passes in positional slot `i` of `rec`: the screen
      coordinate for an x or y slot, the scaled length for the first argument of
      a length command, and the recorded value otherwise. */
  function ReplayedArg(rec: Record, i: nat, x: real, y: real, scale: real): real
    requires i < |rec.args|
  {
    if PlacedAtIndex(rec, Y, i) then ToScreen(rec.originalY.value, y, scale)
    else if PlacedAtIndex(rec, X, i) then ToScreen(rec.originalX.value, x, scale)
    else if i == 0 && ScalesLength(rec.cmd) then rec.args[0] * scale
    else rec.args[i]
  }

  /** The value a replay passes for keyword `k` of `rec`. */
  function ReplayedKeyword(rec: Record, k: Param, x: real, y: real, scale: real): real
    requires k in rec.kwargs
  {
    if k == Y && PlacedByKeyword(rec, Y) then ToScreen(rec.originalY.value, y, scale)
    else if k == X && PlacedByKeyword(rec, X) then ToScreen(rec.originalX.value, x, scale)
    else if ScalesLength(rec.cmd) && (k == Distance || k == Radius) then rec.kwargs[k] * scale
    else rec.kwargs[k]
  }

  /** The call a replay issues for `rec` under camera offset (x, y) and zoom
      `scale`: the same command with the same argument shape. */
  function Rewrite(rec: Record, x: real, y: real, scale: real): (call: Call)
    ensures call.cmd == rec.cmd
    ensures |call.args| == |rec.args| && call.kwargs.Keys == rec.kwargs.Keys
  {
    var scaled := ScaleLength(Call(rec.cmd, rec.args, rec.kwargs), scale);
    PlaceCoordinate(PlaceCoordinate(scaled, X, rec.originalX, x, scale), Y, rec.originalY, y, scale)
  }

  /** Positional slot `i` of the replayed call holds what ReplayedArg prescribes:
      only x/y slots and the length of a length command change. */
  lemma RewriteArg(rec: Record, i: nat, x: real, y: real, scale: real)
    requires i < |rec.args|
    ensures Rewrite(rec, x, y, scale).args[i] == ReplayedArg(rec, i, x, y, scale)
  {
  }

  lemma ScaleLengthKeyword(call: Call, k: Param, scale: real)
    requires k in call.kwargs
    ensures ScaleLength(call, scale).kwargs[k]
         == if ScalesLength(call.cmd) && (k == Distance || k == Radius) then call.kwargs[k] * scale else call.kwargs[k]
  {
  }

  lemma PlaceCoordinateKeyword(call: Call, name: Param, original: Option<real>, offset: real, scale: real, k: Param)
    requires k in call.kwargs
    ensures PlaceCoordinate(call, name, original, offset, scale).kwargs[k]
         == if k == name && name in Params(call.cmd) && original.Some? then ToScreen(original.value, offset, scale)
            else call.kwargs[k]
  {
  }

  /** Keyword `k` of the replayed call holds what ReplayedKeyword prescribes. */
  lemma RewriteKeyword(rec: Record, k: Param, x: real, y: real, scale: real)
    requires k in rec.kwargs
    ensures Rewrite(rec, x, y, scale).kwargs[k] == ReplayedKeyword(rec, k, x, y, scale)
  {
    var scaled := ScaleLength(Call(rec.cmd, rec.args, rec.kwargs), scale);
    var placedX := PlaceCoordinate(scaled, X, rec.originalX, x, scale);
    ScaleLengthKeyword(Call(rec.cmd, rec.args, rec.kwargs), k, scale);
    PlaceCoordinateKeyword(scaled, X, rec.originalX, x, scale, k);
    PlaceCoordinateKeyword(placedX, Y, rec.originalY, y, scale, k);
  }

  /** A call with no x/y parameter and no length, such as penup or left, is
      issued exactly as it was recorded. */
  lemma NonSpatialPassesThrough(rec: Record, x: real, y: real, scale: real)
    requires !ScalesLength(rec.cmd) && X !in Params(rec.cmd) && Y !in Params(rec.cmd)
    ensures Rewrite(rec, x, y, scale) == Call(rec.cmd, rec.args, rec.kwargs)
  {
  }

  /** A goto recorded positionally is replayed at the screen image of its
      world point. */
  lemma GotoTransform(wx: real, wy: real, x: real, y: real, scale: real)
    ensures Rewrite(MakeRecord(Goto, [wx, wy], map[]), x, y, scale)
         == Call(Goto, [ToScreen(wx, x, scale), ToScreen(wy, y, scale)], map[])
  {
    var rec := MakeRecord(Goto, [wx, wy], map[]);
    var call := Rewrite(rec, x, y, scale);
    RewriteArg(rec, 0, x, y, scale);
    RewriteArg(rec, 1, x, y, scale);
    assert call.args == [ToScreen(wx, x, scale), ToScreen(wy, y, scale)];
  }

  /** A goto recorded with keyword arguments is replayed with the same keywords
      holding the screen image of its world point. */
  lemma GotoKeywordTransform(wx: real, wy: real, x: real, y: real, scale: real)
    ensures Rewrite(MakeRecord(Goto, [], map[X := wx, Y := wy]), x, y, scale)
         == Call(Goto, [], map[X := ToScreen(wx, x, scale), Y := ToScreen(wy, y, scale)])
  {
    var rec := MakeRecord(Goto, [], map[X := wx, Y := wy]);
    var call := Rewrite(rec, x, y, scale);
    RewriteKeyword(rec, X, x, y, scale);
    RewriteKeyword(rec, Y, x, y, scale);
    assert call.kwargs == map[X := ToScreen(wx, x, scale), Y := ToScreen(wy, y, scale)];
  }

  /** A length command recorded positionally is replayed with its length
      multiplied by the zoom; the offset does not enter, even though its first
      argument was recorded as `originalX`. */
  lemma LengthTransform(cmd: Command, args: seq<real>, x: real, y: real, scale: real)
    requires ScalesLength(cmd) && |args| > 0
    ensures Rewrite(MakeRecord(cmd, args, map[]), x, y, scale)
         == Call(cmd, [args[0] * scale] + args[1..], map[])
  {
    var rec := MakeRecord(cmd, args, map[]);
    var call := Rewrite(rec, x, y, scale);
    forall i | 0 <= i < |args|
      ensures call.args[i] == ([args[0] * scale] + args[1..])[i]
    {
      RewriteArg(rec, i, x, y, scale);
    }
    assert call.args == [args[0] * scale] + args[1..];
  }

  /** The calls one replay pass issues for `records`: call `i` is the rewrite
      of record `i`, so a replay neither drops, adds nor reorders records. */
  function Replay(records: seq<Record>, x: real, y: real, scale: real): (calls: seq<Call>)
    ensures |calls| == |records|
  {
    seq(|records|, i requires 0 <= i < |records| => Rewrite(records[i], x, y, scale))
  }

  /** Issuing the rewrite of record `i` after a replay of records lo..i-1
      yields the replay of records lo..i. */
  lemma ReplayExtend(records: seq<Record>, lo: nat, i: nat, x: real, y: real, scale: real,
                     base: seq<Call>, before: seq<Call>, after: seq<Call>)
    requires lo <= i < |records|
    requires before == base + Replay(records[lo..i], x, y, scale)
    requires after == before + [Rewrite(records[i], x, y, scale)]
    ensures after == base + Replay(records[lo..i + 1], x, y, scale)
  {
    assert Replay(records[lo..i + 1], x, y, scale) == Replay(records[lo..i], x, y, scale) + [Rewrite(records[i], x, y, scale)];
  }

  /** The backend calls that open a pass: reset, hide, clear, pen up, move to the
      screen image of the world origin, show. */
  function Prelude(x: real, y: real, scale: real): seq<Call>
  {
    [ Call(Reset, [], map[]), Call(HideTurtle, [], map[]), Call(Clear, [], map[]),
      Call(PenUp, [], map[]), Call(Goto, [(-x) * scale, (-y) * scale], map[]),
      Call(ShowTurtle, [], map[]) ]
  }

  /** Everything an uninterrupted pass issues. */
  function Pass(records: seq<Record>, x: real, y: real, scale: real): seq<Call>
  {
    Prelude(x, y, scale) + Replay(records, x, y, scale)
  }

  /** A pass starts with the pen up at the screen image of the world origin and
      then issues exactly one call per record. */
  lemma PassShape(records: seq<Record>, x: real, y: real, scale: real)
    ensures |Pass(records, x, y, scale)| == 6 + |records|
    ensures Pass(records, x, y, scale)[3] == Call(PenUp, [], map[])
    ensures Pass(records, x, y, scale)[4] == Call(Goto, [ToScreen(0.0, x, scale), ToScreen(0.0, y, scale)], map[])
    ensures forall i :: 0 <= i < |records| ==> Pass(records, x, y, scale)[6 + i] == Rewrite(records[i], x, y, scale)
  {
  }

  /** The guard of the replay loop: the newest token in the list is not the
      current one, so a newer pass has started. */
  predicate Superseded(ids: seq<int>, current: int)
  {
    |ids| > 0 && ids[|ids| - 1] != current
  }

  /** `list.remove`: drops the first occurrence of `v`. */
  function RemoveFirst(s: seq<int>, v: int): (r: seq<int>)
    requires v in s
    ensures |r| == |s| - 1
  {
    if s[0] == v then s[1..] else [s[0]] + RemoveFirst(s[1..], v)
  }

  /** `list.remove` takes out exactly one occurrence of `v` and keeps the rest. */
  lemma {:induction false} RemoveFirstRemovesOne(s: seq<int>, v: int)
    requires v in s
    ensures multiset(RemoveFirst(s, v)) == multiset(s) - multiset{v}
  {
    assert s == [s[0]] + s[1..];
    if s[0] != v {
      RemoveFirstRemovesOne(s[1..], v);
    }
  }

  /** The occurrence `list.remove` takes out is the first one, at index `k`,
      and the other elements keep their order. */
  lemma {:induction false} RemoveFirstKeepsOrder(s: seq<int>, v: int, k: nat)
    requires k < |s| && s[k] == v && v !in s[..k]
    ensures RemoveFirst(s, v) == s[..k] + s[k + 1..]
  {
    if k > 0 {
      assert s[0] in s[..k];
      assert s[1..][..k - 1] == s[1..k];
      RemoveFirstKeepsOrder(s[1..], v, k - 1);
      assert s[..k] == [s[0]] + s[1..][..k - 1];
      assert s[k + 1..] == s[1..][k..];
    }
  }

  /** Removing a token just pushed, that was not in the list before, restores
      the list. */
  lemma {:induction false} RemoveFirstOfPushed(s: seq<int>, v: int)
    requires v !in s
    ensures RemoveFirst(s + [v], v) == s
  {
    if s != [] {
      assert (s + [v])[1..] == s[1..] + [v];
      RemoveFirstOfPushed(s[1..], v);
    }
  }
}
