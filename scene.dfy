/**
 * The model registry of the viewer's engine (zenith_viz/cpp/Engine.cpp): an
 * int-keyed map of models with add, remove, existence and count, and the
 * arbitration in the render loop that chooses the one picked point across
 * all pickable models.
 *
 * A registered model is a value here: the source stores pointers, and the
 * model does not track aliasing between them. The per-model select of the
 * controls reaches the arbitration as a function parameter.
 */
module Scene {
  import opened Wrappers
  import opened Input

  /** Draw parameters of an animated model, as the front end passes them. */
  datatype Animation = Animation(stepSize: int, windowSize: int, timeData: seq<int>)

  /** What a registered model carries that the engine and the front end look at. */
  datatype ModelEntry = ModelEntry(
    id: int,
    name: string,
    drawType: int,
    numVertices: int,
    vertices: seq<real>,
    color: seq<real>,
    colorData: seq<real>,
    useColorData: bool,
    stringReps: seq<string>,
    pickingEnabled: bool,
    animation: Option<Animation>)

  // ---------------------------------------------------------------------------
  // The registry as a map
  // ---------------------------------------------------------------------------

  /** std::map::insert: a key already present keeps its model. */
  function Insert(m: map<int, ModelEntry>, id: int, e: ModelEntry): (r: map<int, ModelEntry>)
    ensures r.Keys == m.Keys + {id}
    ensures id in m ==> r == m
    ensures id !in m ==> r[id] == e && forall k :: k in m ==> r[k] == m[k]
  {
    if id in m then m else m[id := e]
  }

  /** std::map::erase of one key. */
  function Erase(m: map<int, ModelEntry>, id: int): (r: map<int, ModelEntry>)
    ensures r.Keys == m.Keys - {id}
    ensures forall k :: k in r ==> r[k] == m[k]
  {
    m - {id}
  }

  /** A fresh add raises the count by one; re-adding a present key changes nothing. */
  lemma InsertCount(m: map<int, ModelEntry>, id: int, e: ModelEntry)
    ensures |Insert(m, id, e).Keys| == |m.Keys| + (if id in m then 0 else 1)
  {
    if id !in m {
      assert Insert(m, id, e).Keys == m.Keys + {id};
    }
  }

  /** A successful remove lowers the count by one; removing an absent key changes nothing. */
  lemma EraseCount(m: map<int, ModelEntry>, id: int)
    ensures |Erase(m, id).Keys| == |m.Keys| - (if id in m then 1 else 0)
    ensures id !in m ==> Erase(m, id) == m
  {
    assert Erase(m, id).Keys == m.Keys - {id};
  }

  /** Removing a freshly added key restores the registry. */
  lemma EraseUndoesInsert(m: map<int, ModelEntry>, id: int, e: ModelEntry)
    requires id !in m
    ensures Erase(Insert(m, id, e), id) == m
  {
    assert Erase(Insert(m, id, e), id).Keys == m.Keys;
  }

  // ---------------------------------------------------------------------------
  // Pick arbitration
  // ---------------------------------------------------------------------------

  /** best_dist before any model is visited. */
  const InitialBestDistance := 1000000.0

  /** The arbitration's memory: the winning model's key (best_model), best_id, the point and best_dist. */
  datatype Best = Best(key: int, index: int, point: Vec3, distance: real)

  /** A model whose pick can win at all: pickable, a real point (id >= 0), and closer than the initial best_dist. */
  ghost predicate IsCandidate(models: map<int, ModelEntry>, query: ModelEntry -> Selection, k: int)
  {
    k in models && models[k].pickingEnabled && query(models[k]).id >= 0
    && query(models[k]).distance < InitialBestDistance
  }

  /**
   * best is the outcome of a strict-minimum choice over the models with keys in
   * keys: nothing when no model there is a candidate; otherwise a candidate
   * whose selection it records, no farther than any other candidate, and
   * strictly closer than every candidate with a lower key.
   */
  ghost predicate IsBestAmong(models: map<int, ModelEntry>, query: ModelEntry -> Selection, keys: set<int>, best: Option<Best>)
  {
    && (best.None? <==> forall k :: k in keys ==> !IsCandidate(models, query, k))
    && (best.Some? ==>
          var b := best.value;
          && b.key in keys && IsCandidate(models, query, b.key)
          && query(models[b.key]) == Selection(b.index, b.point, b.distance)
          && forall k :: k in keys && IsCandidate(models, query, k) ==>
               query(models[k]).distance >= b.distance && (k < b.key ==> query(models[k]).distance > b.distance))
  }

  /** The strict-minimum choice has at most one outcome. */
  lemma BestIsUnique(models: map<int, ModelEntry>, query: ModelEntry -> Selection, keys: set<int>, b1: Option<Best>, b2: Option<Best>)
    requires IsBestAmong(models, query, keys, b1) && IsBestAmong(models, query, keys, b2)
    ensures b1 == b2
  {
    if b1.Some? && b2.Some? {
      var k1, k2 := b1.value.key, b2.value.key;
      if k1 != k2 {
        assert false;
      }
    }
  }

  /** Every non-empty set of keys has a least element. */
  lemma {:induction false} SetHasMin(s: set<int>)
    requires s != {}
    ensures exists k :: k in s && forall j :: j in s ==> k <= j
  {
    if forall x :: x !in s {
      assert false;
    }
    var x :| x in s;
    if s != {x} {
      SetHasMin(s - {x});
      var y :| y in s - {x} && forall j :: j in s - {x} ==> y <= j;
      var m := if x < y then x else y;
      forall j | j in s
        ensures m <= j
      {
        if j != x {
          assert j in s - {x};
        }
      }
    } else {
      assert forall j :: j in s ==> x <= j;
    }
  }

  /** The label the info box shows for a pick. */
  datatype Label = Label(name: string, index: int, data: Option<string>)

  /** The engine: the registry and the last picked point. */
  class Engine {
    var models: map<int, ModelEntry>
    var pickingPoint: Vec3
    var mouseSpeed: real

    /** An empty registry, mouse speed 20 and the picked point at the origin. */
    constructor ()
      ensures models == map[] && pickingPoint == Vec3(0.0, 0.0, 0.0) && mouseSpeed == 20.0
    {
      models := map[];
      mouseSpeed := 20.0;
      pickingPoint := Vec3(0.0, 0.0, 0.0);
    }

    /**
     * The top of each frame of Engine::animate (2D) or Engine3d::animate (3D):
     * the engine recomputes its mouseSpeed from the scroll offset and copies it
     * into the controls whose translation reads it. In 2D, width and height
     * are the dimensions of the previous frame, which the mean is taken of.
     */
    method UpdateMouseSpeed(controls: Controls, scrollOffset: real, width: int, height: int, threeD: bool)
      requires if threeD then height != 0 else width + height != 0 && scrollOffset != 0.0
      modifies this`mouseSpeed, controls`mouseSpeed
      ensures mouseSpeed == controls.mouseSpeed
      ensures threeD ==> mouseSpeed == FrameSpeed3D(scrollOffset, width, height)
      ensures !threeD ==> mouseSpeed == FrameSpeed2D(scrollOffset, width, height)
    {
      if threeD {
        mouseSpeed := FrameSpeed3D(scrollOffset, width, height);
      } else {
        mouseSpeed := FrameSpeed2D(scrollOffset, width, height);
      }
      controls.mouseSpeed := mouseSpeed;
    }

    /** addModel: inserts unless the id is taken, and always reports success. */
    method AddModel(id: int, model: ModelEntry) returns (ok: bool)
      modifies this`models
      ensures ok
      ensures models == Insert(old(models), id, model)
    {
      if id !in models {
        models := models[id := model];
      }
      ok := true;
    }

    /** removeModel: erases the id and reports whether it was present. */
    method RemoveModel(id: int) returns (ok: bool)
      modifies this`models
      ensures ok <==> id in old(models)
      ensures models == Erase(old(models), id)
    {
      if ModelExists(id) {
        models := models - {id};
        ok := true;
      } else {
        ok := false;
      }
    }

    /** modelExists. */
    function ModelExists(id: int): (b: bool)
      reads this
      ensures b <==> id in models
    {
      id in models
    }

    /** numModels: how many ids are registered. */
    function NumModels(): (n: nat)
      reads this
      ensures n == |models.Keys|
      ensures n == 0 <==> models == map[]
    {
      |models|
    }

    /**
     * The pick arbitration of the render loop: visit the models in ascending
     * key order, query the pickable ones, and keep a selection with id >= 0
     * only when it is strictly closer than the best so far; the picked point
     * follows the best and is left alone when nothing matches.
     */
    method Pick(query: ModelEntry -> Selection) returns (best: Option<Best>)
      modifies this`pickingPoint
      ensures IsBestAmong(models, query, models.Keys, best)
      ensures best.Some? ==> pickingPoint == best.value.point
      ensures best.None? ==> pickingPoint == old(pickingPoint)
    {
      var bestDist := InitialBestDistance;
      best := None;
      var remaining := models.Keys;
      while remaining != {}
        invariant remaining <= models.Keys
        invariant forall a, b :: a in models.Keys - remaining && b in remaining ==> a < b
        invariant IsBestAmong(models, query, models.Keys - remaining, best)
        invariant bestDist == if best.Some? then best.value.distance else InitialBestDistance
        invariant best.Some? ==> pickingPoint == best.value.point
        invariant best.None? ==> pickingPoint == old(pickingPoint)
        decreases remaining
      {
        SetHasMin(remaining);
        var k :| k in remaining && forall j :: j in remaining ==> k <= j;
        ghost var visited := models.Keys - remaining;
        ghost var before := best;
        var model := models[k];
        if model.pickingEnabled {
          var selection := query(model);
          if selection.id >= 0 {
            if selection.distance < bestDist {
              pickingPoint := selection.point;
              bestDist := selection.distance;
              best := Some(Best(k, selection.id, selection.point, selection.distance));
            }
          }
        }
        remaining := remaining - {k};
        assert models.Keys - remaining == visited + {k};
        PickStep(models, query, visited, k, before, best);
      }
    }

    /**
     * The info box of a pick: shown only for best_id > -1, with the model's
     * name, the point's index and, when the model has data strings, the one
     * at that index.
     */
    function Report(best: Option<Best>): (r: Option<Label>)
      reads this
      requires best.Some? && best.value.index > -1 ==>
                 best.value.key in models
                 && (|models[best.value.key].stringReps| > 0 ==> best.value.index < |models[best.value.key].stringReps|)
      ensures r.Some? <==> best.Some? && best.value.index > -1
      ensures r.Some? ==>
                var m := models[best.value.key];
                && r.value.name == m.name && r.value.index == best.value.index
                && (r.value.data.Some? <==> |m.stringReps| > 0)
                && (r.value.data.Some? ==> r.value.data.value == m.stringReps[best.value.index])
    {
      if best.Some? && best.value.index > -1 then
        var m := models[best.value.key];
        Some(Label(m.name, best.value.index,
                   if |m.stringReps| > 0 then Some(m.stringReps[best.value.index]) else None))
      else
        None
    }
  }

  /** One visit of the arbitration loop keeps the strict-minimum choice over the keys visited so far. */
  lemma PickStep(models: map<int, ModelEntry>, query: ModelEntry -> Selection, visited: set<int>, k: int,
                 before: Option<Best>, after: Option<Best>)
    requires k in models && k !in visited
    requires forall a :: a in visited ==> a < k
    requires IsBestAmong(models, query, visited, before)
    requires after == (
      if models[k].pickingEnabled && query(models[k]).id >= 0
         && query(models[k]).distance < (if before.Some? then before.value.distance else InitialBestDistance)
      then Some(Best(k, query(models[k]).id, query(models[k]).point, query(models[k]).distance))
      else before)
    ensures IsBestAmong(models, query, visited + {k}, after)
  {
    if after != before {
      assert IsCandidate(models, query, k);
      forall j | j in visited && IsCandidate(models, query, j)
        ensures query(models[j]).distance > after.value.distance
      {
        assert before.Some?;
      }
    }
  }

  /**
   * When every pickable model's query names one of its points and its data
   * strings are empty or one per point, the label of the arbitration's
   * outcome is defined.
   */
  lemma PickIsReportable(models: map<int, ModelEntry>, query: ModelEntry -> Selection, best: Option<Best>)
    requires forall k :: k in models && models[k].pickingEnabled && query(models[k]).id >= 0 ==>
               query(models[k]).id < models[k].numVertices
               && (|models[k].stringReps| == 0 || |models[k].stringReps| == models[k].numVertices)
    requires IsBestAmong(models, query, models.Keys, best)
    ensures best.Some? && best.value.index > -1 ==>
              best.value.key in models
              && (|models[best.value.key].stringReps| > 0 ==> best.value.index < |models[best.value.key].stringReps|)
  {
  }
}
