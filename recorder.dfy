/** The Camera: a deferred command buffer of recorded pen calls, replayed
    through the pan/zoom transform onto the pen on every redraw. */
module Recorder {
  import opened Commands
  import opened Transform

  class Camera {
    /** Pan offset in world units. */
    var x: real
    var y: real
    /** Zoom factor. */
    var scale: real
    /** The command buffer. */
    var objects: seq<Record>
    /** Tokens of the passes in progress, newest last. */
    var executionIds: seq<int>
    /** The token of the newest pass. */
    var currentId: int
    /** Accumulated scroll distance since the last scroll-triggered redraw. */
    var redraw: nat
    /** Every call the pen has received, in issue order. */
    var output: seq<Call>

    /** No token in the list is newer than the current one. */
    ghost predicate Valid()
      reads this
    {
      forall j :: 0 <= j < |executionIds| ==> executionIds[j] <= currentId
    }

    constructor (x0: real, y0: real, objects0: seq<Record>, scale0: real)
      ensures x == x0 && y == y0 && scale == scale0 && objects == objects0
      ensures executionIds == [] && currentId == 0 && redraw == 0 && output == []
      ensures Valid()
    {
      x, y, scale, objects := x0, y0, scale0, objects0;
      executionIds, currentId, redraw, output := [], 0, 0, [];
    }

    /** Records `cmd(*args, **kwargs)` at the end of the buffer; nothing is drawn. */
    method Add(cmd: Command, args: seq<real>, kwargs: map<Param, real>)
      modifies this`objects
      ensures objects == old(objects) + [MakeRecord(cmd, args, kwargs)]
      ensures X in kwargs ==> objects[|objects| - 1].originalX == Some(kwargs[X])
      ensures X !in kwargs && |args| > 0 ==> objects[|objects| - 1].originalX == Some(args[0])
      ensures X !in kwargs && |args| == 0 ==> objects[|objects| - 1].originalX == None
      ensures Y in kwargs ==> objects[|objects| - 1].originalY == Some(kwargs[Y])
      ensures Y !in kwargs && |args| > 1 ==> objects[|objects| - 1].originalY == Some(args[1])
      ensures Y !in kwargs && |args| <= 1 ==> objects[|objects| - 1].originalY == None
    {
      objects := objects + [MakeRecord(cmd, args, kwargs)];
    }

    /** Iterations `lo` to `hi - 1` of the replay loop: unless a newer pass has
        started, each issues the rewritten call of its record. Nothing here
        changes the tokens, so a pass is either live for the whole range or
        superseded for the whole range. */
    method ReplayRange(lo: nat, hi: nat)
      requires lo <= hi <= |objects|
      modifies this`output
      ensures !Superseded(executionIds, currentId) ==> output == old(output) + Replay(objects[lo..hi], x, y, scale)
      ensures Superseded(executionIds, currentId) ==> output == old(output)
    {
      var i := lo;
      while i < hi
        invariant lo <= i <= hi
        invariant output == old(output) + if Superseded(executionIds, currentId) then [] else Replay(objects[lo..i], x, y, scale)
      {
        if !Superseded(executionIds, currentId) {
          ghost var before := output;
          output := output + [Rewrite(objects[i], x, y, scale)];
          ReplayExtend(objects, lo, i, x, y, scale, old(output), before, output);
        }
        i := i + 1;
      }
      assert old(output) + [] == old(output);
    }

    /** One uninterrupted redraw: takes a new token, resets the pen, and issues
        the rewritten call of every record in buffer order. */
    method Draw()
      modifies this`currentId, this`executionIds, this`output
      ensures currentId == old(currentId) + 1
      ensures executionIds == RemoveFirst(old(executionIds) + [currentId], currentId)
      ensures old(Valid()) ==> Valid() && executionIds == old(executionIds)
      ensures output == old(output) + Pass(objects, x, y, scale)
    {
      ghost var ids, wasValid := executionIds, Valid();
      currentId := currentId + 1;
      executionIds := executionIds + [currentId];
      output := output + Prelude(x, y, scale);
      ReplayRange(0, |objects|);
      assert objects[0..|objects|] == objects;
      if wasValid {
        assert forall j :: 0 <= j < |ids| ==> ids[j] < currentId;
        RemoveFirstOfPushed(ids, currentId);
      }
      executionIds := RemoveFirst(executionIds, currentId);
    }

    /** A redraw during which, while the pen executes the call of record `k`,
        the host delivers an event whose handler sets the camera to
        (nx, ny, nscale) and runs a complete newer redraw. The older pass then
        issues nothing more: only the newer pass's picture follows. It ends
        where the older pass would remove the current token, which the newer
        pass has already removed: there `list.remove` raises. */
    method DrawInterruptedAt(k: nat, nx: real, ny: real, nscale: real)
      requires Valid() && k < |objects|
      modifies this`x, this`y, this`scale, this`currentId, this`executionIds, this`output
      ensures Valid()
      ensures x == nx && y == ny && scale == nscale
      ensures currentId == old(currentId) + 2
      ensures executionIds == old(executionIds) + [old(currentId) + 1]
      ensures Superseded(executionIds, currentId)
      ensures currentId !in executionIds
      ensures output == old(output) + Prelude(old(x), old(y), old(scale))
                        + Replay(objects[..k + 1], old(x), old(y), old(scale))
                        + Pass(objects, nx, ny, nscale)
    {
      currentId := currentId + 1;
      executionIds := executionIds + [currentId];
      output := output + Prelude(x, y, scale);
      // the older pass runs alone up to and including record k
      ReplayRange(0, k + 1);
      assert objects[0..k + 1] == objects[..k + 1];
      // the newer event arrives while the call of record k is on the pen
      x, y, scale := nx, ny, nscale;
      Draw();
      // the older pass finds a newer token and skips every remaining record
      ReplayRange(k + 1, |objects|);
      // and its removal at the end looks for the newer token, already gone
      assert forall j :: 0 <= j < |executionIds| ==> executionIds[j] < currentId;
    }
  }

  /** Two uninterrupted redraws with nothing changed in between issue the same
      calls. */
  method RedrawIsIdempotent(c: Camera)
    modifies c`currentId, c`executionIds, c`output
    ensures c.output == old(c.output) + Pass(c.objects, c.x, c.y, c.scale) + Pass(c.objects, c.x, c.y, c.scale)
  {
    c.Draw();
    c.Draw();
  }
}
