/**
 * The frame loop (`draw` and `run`). The GL context is an abstract device
 * that records, in order, the calls that matter for a frame: the request for
 * the next frame, the clear-and-bind prologue of `draw`, one indexed draw per
 * object with that object's index count and model-view matrix, and the
 * update of each object.
 */
module FrameLoop {
  import opened Meshes
  import opened Animation

  datatype Event =
    | RequestFrame
    | Clear
    | DrawElements(obj: nat, mode: Primitive, count: nat, modelView: seq<Op>)
    | UpdateObject(obj: nat)

  /** The rendering context, reduced to the log of calls made on it. */
  class Context {
    var log: seq<Event>

    constructor ()
      ensures log == []
    {
      log := [];
    }
  }

  /** The mesh descriptor of each object, in list order. */
  function MeshesOf(objs: seq<SceneObject>): (ms: seq<Mesh>)
    ensures |ms| == |objs|
  {
    if objs == [] then [] else MeshesOf(objs[..|objs| - 1]) + [objs[|objs| - 1].mesh]
  }

  /** The current model-view matrix of each object, in list order. */
  function ViewsOf(objs: seq<SceneObject>): (vs: seq<seq<Op>>)
    reads objs
    ensures |vs| == |objs|
  {
    if objs == [] then [] else ViewsOf(objs[..|objs| - 1]) + [objs[|objs| - 1].modelView]
  }

  /** Entry `i` of the snapshots is object `i`'s mesh and current matrix. */
  lemma {:induction false} SnapshotsAt(objs: seq<SceneObject>)
    ensures forall i :: 0 <= i < |objs| ==>
      MeshesOf(objs)[i] == objs[i].mesh && ViewsOf(objs)[i] == objs[i].modelView
  {
    if objs != [] {
      SnapshotsAt(objs[..|objs| - 1]);
    }
  }

  /** One `drawElements(obj.primtype, obj.nIndices, ...)` per object, in list order. */
  function DrawCalls(meshes: seq<Mesh>, views: seq<seq<Op>>): seq<Event>
    requires |meshes| == |views|
  {
    if meshes == [] then []
    else
      var n := |meshes| - 1;
      DrawCalls(meshes[..n], views[..n]) + [DrawElements(n, meshes[n].primtype, meshes[n].nIndices, views[n])]
  }

  lemma DrawCallsSnoc(meshes: seq<Mesh>, views: seq<seq<Op>>, m: Mesh, v: seq<Op>)
    requires |meshes| == |views|
    ensures DrawCalls(meshes + [m], views + [v])
         == DrawCalls(meshes, views) + [DrawElements(|meshes|, m.primtype, m.nIndices, v)]
  {
    assert (meshes + [m])[..|meshes|] == meshes;
    assert (views + [v])[..|views|] == views;
  }

  /** One update per object, in list order. */
  function Updates(n: nat): seq<Event>
  {
    if n == 0 then [] else Updates(n - 1) + [UpdateObject(n - 1)]
  }

  /**
   * What one call of `run` does for objects with these meshes and current
   * matrices: request the next frame, draw everything, update everything.
   */
  function FrameEvents(meshes: seq<Mesh>, views: seq<seq<Op>>): seq<Event>
    requires |meshes| == |views|
  {
    [RequestFrame, Clear] + DrawCalls(meshes, views) + Updates(|meshes|)
  }

  /** A frame appended to a log, written as its parts: the regrouping step `Run` needs, proved here once rather than in the method's heap context. */
  lemma FrameAfter(log: seq<Event>, meshes: seq<Mesh>, views: seq<seq<Op>>)
    requires |meshes| == |views|
    ensures log + [RequestFrame, Clear] + DrawCalls(meshes, views) + Updates(|meshes|)
         == log + FrameEvents(meshes, views)
  {
  }

  /** The number of draw calls in a log. */
  function CountDraws(log: seq<Event>): nat
  {
    if log == [] then 0
    else CountDraws(log[..|log| - 1]) + (if log[|log| - 1].DrawElements? then 1 else 0)
  }

  lemma CountDrawsSnoc(log: seq<Event>, e: Event)
    ensures CountDraws(log + [e]) == CountDraws(log) + (if e.DrawElements? then 1 else 0)
  {
    assert (log + [e])[..|log|] == log;
  }

  lemma {:induction false} CountDrawsAppend(a: seq<Event>, b: seq<Event>)
    ensures CountDraws(a + b) == CountDraws(a) + CountDraws(b)
    decreases |b|
  {
    if b == [] {
      assert a + b == a;
    } else {
      var n := |b|;
      CountDrawsAppend(a, b[..n - 1]);
      assert a + b == (a + b[..n - 1]) + [b[n - 1]];
      CountDrawsSnoc(a + b[..n - 1], b[n - 1]);
      CountDrawsSnoc(b[..n - 1], b[n - 1]);
      assert b[..n - 1] + [b[n - 1]] == b;
    }
  }

  /** Every one of the per-object calls is a draw call. */
  lemma {:induction false} DrawCallsCount(meshes: seq<Mesh>, views: seq<seq<Op>>)
    requires |meshes| == |views|
    ensures CountDraws(DrawCalls(meshes, views)) == |meshes|
  {
    if meshes != [] {
      var n := |meshes| - 1;
      DrawCallsCount(meshes[..n], views[..n]);
      CountDrawsSnoc(DrawCalls(meshes[..n], views[..n]),
        DrawElements(n, meshes[n].primtype, meshes[n].nIndices, views[n]));
    }
  }

  /** Update `i` is object `i`'s, and updates contain no draw call. */
  lemma {:induction false} UpdatesAt(n: nat)
    ensures |Updates(n)| == n
    ensures forall i :: 0 <= i < n ==> Updates(n)[i] == UpdateObject(i)
    ensures CountDraws(Updates(n)) == 0
  {
    if n > 0 {
      UpdatesAt(n - 1);
      CountDrawsSnoc(Updates(n - 1), UpdateObject(n - 1));
    }
  }

  /**
   * The layout of one frame: the next frame is requested first, then the
   * prologue, then one draw call per object in list order, then one update
   * per object in list order.
   */
  lemma FrameLayout(meshes: seq<Mesh>, views: seq<seq<Op>>)
    requires |meshes| == |views|
    ensures |FrameEvents(meshes, views)| == 2 + 2 * |meshes|
    ensures FrameEvents(meshes, views)[0] == RequestFrame && FrameEvents(meshes, views)[1] == Clear
    ensures forall i :: 0 <= i < |meshes| ==>
      FrameEvents(meshes, views)[2 + i] == DrawElements(i, meshes[i].primtype, meshes[i].nIndices, views[i])
    ensures forall i :: 0 <= i < |meshes| ==>
      FrameEvents(meshes, views)[2 + |meshes| + i] == UpdateObject(i)
  {
    var n := |meshes|;
    DrawCallsLength(meshes, views);
    UpdatesLength(n);
    assert FrameEvents(meshes, views) == [RequestFrame, Clear] + (DrawCalls(meshes, views) + Updates(n));
    forall i | 0 <= i < n
      ensures FrameEvents(meshes, views)[2 + i] == DrawElements(i, meshes[i].primtype, meshes[i].nIndices, views[i])
      ensures FrameEvents(meshes, views)[2 + n + i] == UpdateObject(i)
    {
      FrameAt(meshes, views, i);
    }
  }

  /** Position `2 + i` of a frame is draw call `i`, and position `2 + n + i` is update `i`. */
  lemma FrameAt(meshes: seq<Mesh>, views: seq<seq<Op>>, i: nat)
    requires |meshes| == |views| && i < |meshes|
    ensures |FrameEvents(meshes, views)| == 2 + 2 * |meshes|
    ensures FrameEvents(meshes, views)[2 + i] == DrawElements(i, meshes[i].primtype, meshes[i].nIndices, views[i])
    ensures FrameEvents(meshes, views)[2 + |meshes| + i] == UpdateObject(i)
  {
    var p: seq<Event> := [RequestFrame, Clear];
    var d := DrawCalls(meshes, views);
    var u := Updates(|meshes|);
    DrawCallIndex(meshes, views, i);
    UpdatesAt(|meshes|);
    assert FrameEvents(meshes, views) == (p + d) + u;
    assert (p + d)[2 + i] == d[i];
  }

  lemma {:induction false} UpdatesLength(n: nat)
    ensures |Updates(n)| == n
  {
    if n > 0 {
      UpdatesLength(n - 1);
    }
  }

  lemma {:induction false} DrawCallsLength(meshes: seq<Mesh>, views: seq<seq<Op>>)
    requires |meshes| == |views|
    ensures |DrawCalls(meshes, views)| == |meshes|
  {
    if meshes != [] {
      DrawCallsLength(meshes[..|meshes| - 1], views[..|meshes| - 1]);
    }
  }

  /** Draw call `i` is object `i`'s, with its primitive, its index count and its matrix. */
  lemma {:induction false} DrawCallIndex(meshes: seq<Mesh>, views: seq<seq<Op>>, i: nat)
    requires |meshes| == |views| && i < |meshes|
    ensures |DrawCalls(meshes, views)| == |meshes|
    ensures DrawCalls(meshes, views)[i] == DrawElements(i, meshes[i].primtype, meshes[i].nIndices, views[i])
  {
    var n := |meshes| - 1;
    DrawCallsLength(meshes[..n], views[..n]);
    if i < n {
      DrawCallIndex(meshes[..n], views[..n], i);
    }
  }

  /** A frame holds exactly as many draw calls as there are objects. */
  lemma FrameDrawCount(meshes: seq<Mesh>, views: seq<seq<Op>>)
    requires |meshes| == |views|
    ensures CountDraws(FrameEvents(meshes, views)) == |meshes|
  {
    var d := DrawCalls(meshes, views);
    DrawCallsCount(meshes, views);
    UpdatesAt(|meshes|);
    CountDrawsAppend([RequestFrame, Clear], d);
    CountDrawsAppend([RequestFrame, Clear] + d, Updates(|meshes|));
    assert CountDraws([RequestFrame, Clear]) == 0 by {
      CountDrawsSnoc([RequestFrame], Clear);
      CountDrawsSnoc([], RequestFrame);
      assert [RequestFrame] == [] + [RequestFrame];
      assert [RequestFrame, Clear] == [RequestFrame] + [Clear];
    }
  }

  /** Within a frame no draw call comes after an update: all drawing sees the matrices before any update. */
  lemma DrawsPrecedeUpdates(meshes: seq<Mesh>, views: seq<seq<Op>>)
    requires |meshes| == |views|
    ensures forall a, b ::
      (0 <= a < b < |FrameEvents(meshes, views)| && FrameEvents(meshes, views)[a].UpdateObject?) ==>
      !FrameEvents(meshes, views)[b].DrawElements?
  {
    FrameLayout(meshes, views);
    var e := FrameEvents(meshes, views);
    var n := |meshes|;
    assert forall k :: 0 <= k < 2 + n ==> !e[k].UpdateObject? by {
      forall k | 2 <= k < 2 + n ensures !e[k].UpdateObject? {
        var i := k - 2;
        assert e[2 + i] == DrawElements(i, meshes[i].primtype, meshes[i].nIndices, views[i]);
      }
    }
    forall a, b | 0 <= a < b < |e| && e[a].UpdateObject?
      ensures !e[b].DrawElements?
    {
      assert e[2 + n + (b - 2 - n)] == UpdateObject(b - 2 - n);
    }
  }

  /**
   * A frame draws every object whose index list is a triangle list as
   * triangles, with an index count equal to that list's length.
   */
  lemma DrawCountsAreListLengths(meshes: seq<Mesh>, views: seq<seq<Op>>)
    requires |meshes| == |views|
    requires forall i :: 0 <= i < |meshes| ==> TriangleList(meshes[i])
    ensures |FrameEvents(meshes, views)| == 2 + 2 * |meshes|
    ensures forall i :: 0 <= i < |meshes| ==>
      && FrameEvents(meshes, views)[2 + i].DrawElements?
      && FrameEvents(meshes, views)[2 + i].count == |meshes[i].indices|
      && FrameEvents(meshes, views)[2 + i].mode == Triangles
  {
    FrameLayout(meshes, views);
  }

  /** `draw`: clear and bind once, then one indexed draw per object in list order. */
  method Draw(gl: Context, objs: seq<SceneObject>)
    modifies gl
    ensures gl.log == old(gl.log) + [Clear] + DrawCalls(MeshesOf(objs), ViewsOf(objs))
  {
    ghost var meshes := MeshesOf(objs);
    ghost var views := ViewsOf(objs);
    SnapshotsAt(objs);
    gl.log := gl.log + [Clear];
    for i := 0 to |objs|
      invariant gl.log == old(gl.log) + [Clear] + DrawCalls(meshes[..i], views[..i])
    {
      var obj := objs[i];
      assert meshes[..i + 1] == meshes[..i] + [obj.mesh];
      assert views[..i + 1] == views[..i] + [obj.modelView];
      DrawCallsSnoc(meshes[..i], views[..i], obj.mesh, obj.modelView);
      gl.log := gl.log + [DrawElements(i, obj.mesh.primtype, obj.mesh.nIndices, obj.modelView)];
    }
    assert meshes[..|objs|] == meshes;
    assert views[..|objs|] == views;
  }

  /** The update loop of `run`: each object in list order, with its own clock reading. */
  method UpdateAll(gl: Context, objs: seq<SceneObject>, clock: seq<int>)
    requires |clock| == |objs|
    requires forall i, j :: 0 <= i < j < |objs| ==> objs[i] != objs[j]
    modifies gl, objs
    ensures gl.log == old(gl.log) + Updates(|objs|)
    ensures forall i :: 0 <= i < |objs| ==>
      objs[i].State() == Tick(old(objs[i].State()), objs[i].axis, clock[i])
    ensures forall i :: 0 <= i < |objs| && old(objs[i].Valid()) ==> objs[i].Valid()
  {
    for i := 0 to |objs|
      invariant gl.log == old(gl.log) + Updates(i)
      invariant forall j :: 0 <= j < i ==>
        objs[j].State() == Tick(old(objs[j].State()), objs[j].axis, clock[j])
      invariant forall j :: 0 <= j < i && old(objs[j].Valid()) ==> objs[j].Valid()
      invariant forall j :: i <= j < |objs| ==> objs[j].State() == old(objs[j].State())
    {
      objs[i].Update(clock[i]);
      gl.log := gl.log + [UpdateObject(i)];
    }
  }

  /**
   * `run`: request the next frame, draw every object with the matrix it has
   * now, then update every object in list order with its clock reading.
   * Each object is therefore drawn with the matrix its previous update made,
   * and its new matrix only shows in the next frame.
   */
  method Run(gl: Context, objs: seq<SceneObject>, clock: seq<int>)
    requires |clock| == |objs|
    requires forall i, j :: 0 <= i < j < |objs| ==> objs[i] != objs[j]
    modifies gl, objs
    ensures gl.log == old(gl.log) + FrameEvents(MeshesOf(objs), old(ViewsOf(objs)))
    ensures forall i :: 0 <= i < |objs| ==>
      objs[i].State() == Tick(old(objs[i].State()), objs[i].axis, clock[i])
    ensures forall i :: 0 <= i < |objs| && old(objs[i].Valid()) ==> objs[i].Valid()
  {
    ghost var views := ViewsOf(objs);
    gl.log := gl.log + [RequestFrame];
    Draw(gl, objs);
    assert gl.log == old(gl.log) + [RequestFrame, Clear] + DrawCalls(MeshesOf(objs), views);
    UpdateAll(gl, objs, clock);
    FrameAfter(old(gl.log), MeshesOf(objs), views);
  }
}
