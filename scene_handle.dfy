/**
 * Transform-control handles (viser/_scene_handle.py): vector arguments checked and
 * cast by `_cast_vector`, the state snapshot, callback registration, and `set_state`,
 * which sends the new pose without changing the handle's own copy.
 */
module SceneHandle {
  import opened Wrappers
  import opened ServerMessages

  /** An argument of `_cast_vector`: a tuple, or a numpy array with its shape and elements. */
  datatype VectorArg = TupleVec(xs: seq<Num>) | ArrayVec(shape: seq<nat>, flat: seq<real>)

  /**
   * `_cast_vector`: a tuple of the right length comes back as it is; an array must
   * have shape (length,) and comes back as a tuple of floats; anything else fails an
   * assertion.
   */
  function CastVector(v: VectorArg, length: nat): (r: Result<seq<Num>>)
    ensures v.TupleVec? ==> (r.Ok? <==> |v.xs| == length) && (r.Ok? ==> r.value == v.xs)
    ensures v.ArrayVec? ==> (r.Ok? <==> v.shape == [length])
    ensures v.ArrayVec? && r.Ok? ==>
              && |r.value| == |v.flat|
              && forall i :: 0 <= i < |v.flat| ==> r.value[i] == FloatN(v.flat[i])
  {
    match v
    case TupleVec(xs) => if |xs| == length then Ok(xs) else Err("wrong vector length")
    case ArrayVec(shape, flat) =>
      if shape == [length] then Ok(seq(|flat|, i requires 0 <= i < |flat| => FloatN(flat[i])))
      else Err("wrong array shape")
  }

  /** An array of shape (length,) holds `length` elements, so its cast has the requested length. */
  lemma CastArrayHasLength(shape: seq<nat>, flat: seq<real>, length: nat)
    requires shape == [length] && |flat| == shape[0]
    ensures CastVector(ArrayVec(shape, flat), length).Ok?
    ensures |CastVector(ArrayVec(shape, flat), length).value| == length
  {
  }

  /** `TransformControlsState`: the frozen snapshot `get_state` returns. */
  datatype TransformControlsSnapshot = TransformControlsSnapshot(wxyz: seq<Num>, position: seq<Num>, lastUpdated: real)

  /** `_TransformControlsState` behind a `TransformControlsHandle`. */
  class TransformControlsHandle {
    const name: string
    const api: Outbox
    var wxyz: seq<Num>
    var position: seq<Num>
    var lastUpdated: real
    var updateCb: seq<Callback>

    constructor (name: string, api: Outbox, wxyz: seq<Num>, position: seq<Num>, now: real)
      ensures this.name == name && this.api == api && updateCb == []
      ensures GetState() == TransformControlsSnapshot(wxyz, position, now)
    {
      this.name := name;
      this.api := api;
      this.wxyz := wxyz;
      this.position := position;
      lastUpdated := now;
      updateCb := [];
    }

    /** `get_state`: a copy of the pose and its time. */
    function GetState(): TransformControlsSnapshot
      reads this
    {
      TransformControlsSnapshot(wxyz, position, lastUpdated)
    }

    /** `on_update`: the function is appended and handed back. */
    method OnUpdate(f: Callback) returns (g: Callback)
      modifies this
      ensures g == f && updateCb == old(updateCb) + [f]
      ensures GetState() == old(GetState())
    {
      updateCb := updateCb + [f];
      return f;
    }

    /**
     * `set_state`: both vectors are cast (the orientation first), then one message is
     * queued; the handle's own pose is left for the client's update to change.
     */
    method SetState(w: VectorArg, p: VectorArg) returns (ok: bool)
      modifies api
      ensures ok <==> CastVector(w, 4).Ok? && CastVector(p, 3).Ok?
      ensures !ok ==> api.queued == old(api.queued)
      ensures ok ==> api.queued == old(api.queued) + [TransformControlsSet(name, CastVector(w, 4).value, CastVector(p, 3).value)]
      ensures api.calls == old(api.calls)
    {
      var wc := CastVector(w, 4);
      if wc.Err? {
        return false;
      }
      var pc := CastVector(p, 3);
      if pc.Err? {
        return false;
      }
      api.Queue(TransformControlsSet(name, wc.value, pc.value));
      return true;
    }
  }
}
