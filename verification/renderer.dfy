/**
 * The WebGL manager's bookkeeping: the ordered list of live game objects, the draw pass
 * that issues one indexed draw per live object, and the canvas resize.  The graphics
 * device is reduced to the trace of draw calls it receives.
 */
module Renderer {
  import opened Numbers
  import opened Arrays

  /** Game objects are compared by identity; an ObjId stands for one object reference. */
  type ObjId = nat

  datatype Option<T> = None | Some(value: T)

  /** One gl.drawElements(TRIANGLES, count, UNSIGNED_SHORT, 0) call, made while obj's buffers are bound. */
  datatype DrawCall = DrawElements(obj: ObjId, count: nat)

  /**
   * The live list after `destroy(obj)`: splice(indexOf(obj), 1).  A present object loses its
   * first occurrence; for an absent one indexOf gives -1 and the splice drops the LAST entry.
   */
  function Destroyed(objects: seq<ObjId>, obj: ObjId): (r: seq<ObjId>)
    ensures obj in objects ==>
      var i := IndexOf(objects, obj);
      objects[i] == obj && obj !in objects[..i] && r == objects[..i] + objects[i + 1..]
    ensures obj in objects ==> multiset(r) == multiset(objects) - multiset{obj}
    ensures obj !in objects && objects != [] ==> r == objects[..|objects| - 1]
    ensures objects == [] ==> r == []
    ensures objects != [] ==> |r| == |objects| - 1
  {
    var r := SpliceOne(objects, IndexOf(objects, obj));
    if obj in objects then
      var i := IndexOf(objects, obj);
      assert r == objects[..i] + objects[i + 1..];
      assert objects == objects[..i] + [obj] + objects[i + 1..];
      r
    else
      assert objects != [] ==> r == objects[..|objects| - 1];
      r
  }

  /** The draw calls of one pass over `objects`, built up in list order. */
  function DrawPass(objects: seq<ObjId>, indexCount: ObjId -> nat): (calls: seq<DrawCall>)
    ensures |calls| == |objects|
    ensures forall i :: 0 <= i < |objects| ==> calls[i] == DrawElements(objects[i], indexCount(objects[i]))
  {
    if objects == [] then []
    else
      var last := objects[|objects| - 1];
      DrawPass(objects[..|objects| - 1], indexCount) + [DrawElements(last, indexCount(last))]
  }

  /** `multiplier || 1`: an omitted or zero multiplier means 1. */
  function EffectiveMultiplier(multiplier: Option<real>): (m: real)
    ensures m != 0.0
    ensures multiplier.Some? && multiplier.value != 0.0 ==> m == multiplier.value
    ensures multiplier.None? || multiplier.value == 0.0 ==> m == 1.0
  {
    if multiplier.None? || multiplier.value == 0.0 then 1.0 else multiplier.value
  }

  /** `client * multiplier | 0`: truncated toward zero, then wrapped into a signed 32-bit integer. */
  function DisplaySize(client: int, multiplier: Option<real>): (size: int)
    ensures -TwoTo31 <= size < TwoTo31
    ensures (multiplier.None? || multiplier.value == 0.0 || multiplier.value == 1.0) && 0 <= client < TwoTo31 ==> size == client
  {
    ToInt32(Truncate(client as real * EffectiveMultiplier(multiplier)))
  }

  class WebGlManager {
    /** #instantiatedObjects, in insertion order. */
    var objects: seq<ObjId>
    /** The canvas drawing-buffer size, canvas.width and canvas.height. */
    var canvasWidth: int
    var canvasHeight: int
    /** Every gl.drawElements call issued so far, oldest first. */
    var drawCalls: seq<DrawCall>

    constructor (width: int, height: int)
      ensures objects == [] && drawCalls == []
      ensures canvasWidth == width && canvasHeight == height
    {
      objects := [];
      drawCalls := [];
      canvasWidth, canvasHeight := width, height;
    }

    method Instantiate(obj: ObjId)
      modifies this`objects
      ensures objects == old(objects) + [obj]
      ensures |objects| == |old(objects)| + 1 && objects[..|old(objects)|] == old(objects)
    {
      objects := objects + [obj];
    }

    method Destroy(obj: ObjId)
      modifies this`objects
      ensures objects == Destroyed(old(objects), obj)
    {
      var index := IndexOf(objects, obj);
      objects := SpliceOne(objects, index);
    }

    /** draw(): resize the canvas (no multiplier), then draw every live object. */
    method Draw(indexCount: ObjId -> nat, clientWidth: int, clientHeight: int)
      modifies this`canvasWidth, this`canvasHeight, this`drawCalls
      ensures canvasWidth == DisplaySize(clientWidth, None) && canvasHeight == DisplaySize(clientHeight, None)
      ensures drawCalls == old(drawCalls) + DrawPass(objects, indexCount)
    {
      var resized := ResizeCanvasToDisplaySize(clientWidth, clientHeight, None);
      DrawGameObjects(indexCount);
    }

    /** #drawGameObjects: one indexed draw per live object, in list order. */
    method DrawGameObjects(indexCount: ObjId -> nat)
      modifies this`drawCalls
      ensures drawCalls == old(drawCalls) + DrawPass(objects, indexCount)
    {
      var i := 0;
      while i < |objects|
        invariant 0 <= i <= |objects|
        invariant drawCalls == old(drawCalls) + DrawPass(objects[..i], indexCount)
      {
        var gameObject := objects[i];
        assert objects[..i + 1][..i] == objects[..i];
        drawCalls := drawCalls + [DrawElements(gameObject, indexCount(gameObject))];
        i := i + 1;
      }
      assert objects[..i] == objects;
    }

    /** #resizeCanvasToDisplaySize: reports whether the drawing buffer had to change. */
    method ResizeCanvasToDisplaySize(clientWidth: int, clientHeight: int, multiplier: Option<real>) returns (resized: bool)
      modifies this`canvasWidth, this`canvasHeight
      ensures canvasWidth == DisplaySize(clientWidth, multiplier)
      ensures canvasHeight == DisplaySize(clientHeight, multiplier)
      ensures resized <==> old(canvasWidth) != canvasWidth || old(canvasHeight) != canvasHeight
    {
      var width := DisplaySize(clientWidth, multiplier);
      var height := DisplaySize(clientHeight, multiplier);
      if canvasWidth != width || canvasHeight != height {
        canvasWidth := width;
        canvasHeight := height;
        return true;
      }
      return false;
    }
  }

  /** Resizing twice to the same client size: the second call finds nothing to change. */
  method ResizeIsIdempotent(manager: WebGlManager, clientWidth: int, clientHeight: int, multiplier: Option<real>)
    returns (first: bool, second: bool)
    modifies manager`canvasWidth, manager`canvasHeight
    ensures !second
    ensures first <==> (old(manager.canvasWidth) != DisplaySize(clientWidth, multiplier) ||
                        old(manager.canvasHeight) != DisplaySize(clientHeight, multiplier))
    ensures manager.canvasWidth == DisplaySize(clientWidth, multiplier)
    ensures manager.canvasHeight == DisplaySize(clientHeight, multiplier)
  {
    first := manager.ResizeCanvasToDisplaySize(clientWidth, clientHeight, multiplier);
    second := manager.ResizeCanvasToDisplaySize(clientWidth, clientHeight, multiplier);
  }
}
