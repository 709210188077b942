/**
 * URDF helpers (viser/extras/_urdf.py): the scene-node name given to a frame of the
 * robot's kinematic tree, and the joint-limit table. The URDF itself is reduced to what
 * these read: the parent of every frame, the base frame, and the joints in order.
 */
module Urdf {
  import opened Wrappers
  import Text

  /** The parent of each frame, as the scene graph's transform table records it. */
  type Parents = map<string, string>

  /** Walking up from f reaches the base, or a frame without a parent, within depth steps. */
  predicate Halts(parents: Parents, base: string, f: string, depth: nat)
    decreases depth
  {
    f == base || f !in parents || (depth > 0 && Halts(parents, base, parents[f], depth - 1))
  }

  /** The frames from f up to the base, base excluded; a frame with no recorded parent fails the lookup. */
  function Chain(parents: Parents, base: string, f: string, ghost depth: nat): (r: Result<seq<string>>)
    requires Halts(parents, base, f, depth)
    ensures r.Ok? && f != base ==> |r.value| > 0 && r.value[0] == f
    ensures f == base ==> r == Ok([])
    ensures r.Err? ==> r.error == "KeyError"
    decreases depth
  {
    if f == base then Ok([])
    else if f !in parents then Err("KeyError")
    else
      match Chain(parents, base, parents[f], depth - 1)
      case Ok(rest) => Ok([f] + rest)
      case Err(e) => Err(e)
  }

  function Reverse(s: seq<string>): (r: seq<string>)
    ensures |r| == |s| && forall i :: 0 <= i < |s| ==> r[i] == s[|s| - 1 - i]
  {
    seq(|s|, i requires 0 <= i < |s| => s[|s| - 1 - i])
  }

  /** `_viser_name_from_frame` as a value: "/" followed by the chain from the base down, joined with "/". */
  function NameFromFrame(parents: Parents, base: string, f: string, ghost depth: nat): (r: Result<string>)
    requires Halts(parents, base, f, depth)
    ensures r.Ok? <==> Chain(parents, base, f, depth).Ok?
    ensures r.Ok? ==> |r.value| >= 1 && r.value[0] == '/'
  {
    match Chain(parents, base, f, depth)
    case Ok(frames) => Ok("/" + Text.Join(Reverse(frames), '/'))
    case Err(e) => Err(e)
  }

  /** The base frame is the scene root. */
  lemma BaseIsRoot(parents: Parents, base: string, depth: nat)
    ensures NameFromFrame(parents, base, base, depth) == Ok("/")
  {
    assert Chain(parents, base, base, depth) == Ok([]);
    assert Reverse([]) == [];
    assert Text.Join([], '/') == "";
    assert "/" + Text.Join(Reverse([]), '/') == "/";
  }

  /**
   * A frame's name is its parent's name followed by "/" and the frame, so every ancestor's
   * name is a path prefix; a child of the base sits right under the root.
   */
  lemma NameExtendsParent(parents: Parents, base: string, f: string, depth: nat)
    requires f != base && f in parents && Halts(parents, base, f, depth + 1)
    requires Halts(parents, base, parents[f], depth)
    ensures var p := parents[f];
            var child := NameFromFrame(parents, base, f, depth + 1);
            var parent := NameFromFrame(parents, base, p, depth);
            && (child.Ok? <==> parent.Ok?)
            && (child.Ok? && p != base ==> child.value == parent.value + "/" + f)
            && (child.Ok? && p == base ==> child.value == "/" + f)
  {
    var p := parents[f];
    ChainDepth(parents, base, f, depth + 1);
    match Chain(parents, base, p, depth)
    case Ok(rest) =>
      assert Chain(parents, base, f, depth + 1) == Ok([f] + rest);
      assert Reverse([f] + rest) == Reverse(rest) + [f];
      if p != base {
        Text.JoinLast(Reverse(rest) + [f], '/');
        assert (Reverse(rest) + [f])[..|rest|] == Reverse(rest);
      } else {
        assert Reverse([f] + rest) == [f];
      }
    case Err(_) =>
  }

  /** The chain does not depend on the depth bound used to show the walk halts. */
  lemma {:induction false} ChainDepth(parents: Parents, base: string, f: string, depth: nat)
    requires f != base && f in parents && Halts(parents, base, f, depth)
    ensures depth > 0 && Halts(parents, base, parents[f], depth - 1)
    ensures Chain(parents, base, f, depth).Ok? <==> Chain(parents, base, parents[f], depth - 1).Ok?
    ensures Chain(parents, base, f, depth).Ok? ==>
              Chain(parents, base, f, depth).value == [f] + Chain(parents, base, parents[f], depth - 1).value
  {
  }

  /** `_viser_name_from_frame`: collect frames while walking up to the base, then join them base-first. */
  method ViserNameFromFrame(parents: Parents, base: string, frameName: string, ghost depth: nat)
    returns (r: Result<string>)
    requires Halts(parents, base, frameName, depth)
    ensures r == NameFromFrame(parents, base, frameName, depth)
    ensures r.Ok? && frameName != base ==> Text.EndsWith(r.value, frameName)
  {
    var frames: seq<string> := [];
    var f := frameName;
    ghost var d := depth;
    while f != base
      invariant Halts(parents, base, f, d)
      invariant Chain(parents, base, frameName, depth).Ok? <==> Chain(parents, base, f, d).Ok?
      invariant Chain(parents, base, f, d).Ok? ==>
                  Chain(parents, base, frameName, depth).value == frames + Chain(parents, base, f, d).value
      invariant frameName != base ==> |frames| > 0 || f == frameName
      invariant |frames| > 0 ==> frames[0] == frameName
      decreases d
    {
      if f !in parents {
        return Err("KeyError");
      }
      ChainDepth(parents, base, f, d);
      frames := frames + [f];
      f := parents[f];
      d := d - 1;
    }
    assert Chain(parents, base, f, d) == Ok([]);
    assert frames + [] == frames;
    assert Chain(parents, base, frameName, depth) == Ok(frames);
    r := Ok("/" + Text.Join(Reverse(frames), '/'));
    NameEndsWithFrame(parents, base, frameName, depth);
  }

  /** A frame's name ends with the frame itself. */
  lemma NameEndsWithFrame(parents: Parents, base: string, f: string, depth: nat)
    requires Halts(parents, base, f, depth)
    ensures var r := NameFromFrame(parents, base, f, depth);
            r.Ok? && f != base ==> Text.EndsWith(r.value, f)
  {
    var c := Chain(parents, base, f, depth);
    if c.Ok? && f != base {
      var rev := Reverse(c.value);
      if |rev| >= 2 {
        Text.JoinLast(rev, '/');
      }
      assert rev[|rev| - 1] == f;
    }
  }

  // ---------------------------------------------------------------- joint limits

  datatype Limit = Limit(lower: Option<real>, upper: Option<real>)
  datatype Joint = Joint(limit: Option<Limit>)

  /** The joints in the URDF's order, with a limit, as (name, (lower, upper)). */
  function JointLimits(joints: seq<(string, Joint)>): (r: seq<(string, Limit)>)
    ensures |r| <= |joints|
    ensures |joints| > 0 && joints[|joints| - 1].1.limit.Some? ==>
              |r| > 0 && r[|r| - 1] == (joints[|joints| - 1].0, joints[|joints| - 1].1.limit.value)
  {
    if |joints| == 0 then []
    else
      var rest := JointLimits(joints[..|joints| - 1]);
      var (name, joint) := joints[|joints| - 1];
      if joint.limit.None? then rest else rest + [(name, joint.limit.value)]
  }

  function LimitedIndices(joints: seq<(string, Joint)>): set<int>
  {
    set k | 0 <= k < |joints| && joints[k].1.limit.Some?
  }

  /** Exactly the joints that have a limit appear, with that limit, in the joint order. */
  lemma {:induction false} JointLimitsKeepsLimitedJoints(joints: seq<(string, Joint)>)
    ensures forall e :: e in JointLimits(joints) <==>
              exists k :: 0 <= k < |joints| && joints[k].1.limit == Some(e.1) && joints[k].0 == e.0
    ensures |JointLimits(joints)| == |LimitedIndices(joints)|
  {
    JointLimitsMembers(joints);
    JointLimitsCount(joints);
  }

  /** An entry is in the table exactly when some joint has that name and that limit. */
  lemma {:induction false} JointLimitsMembers(joints: seq<(string, Joint)>)
    ensures forall e :: e in JointLimits(joints) <==>
              exists k :: 0 <= k < |joints| && joints[k].1.limit == Some(e.1) && joints[k].0 == e.0
  {
    if |joints| > 0 {
      var n := |joints|;
      JointLimitsMembers(joints[..n - 1]);
      assert forall k :: 0 <= k < n - 1 ==> joints[..n - 1][k] == joints[k];
    }
  }

  /** The table has one entry per joint that has a limit. */
  lemma {:induction false} JointLimitsCount(joints: seq<(string, Joint)>)
    ensures |JointLimits(joints)| == |LimitedIndices(joints)|
  {
    if |joints| > 0 {
      var n := |joints|;
      JointLimitsCount(joints[..n - 1]);
      var before := LimitedIndices(joints[..n - 1]);
      var all := LimitedIndices(joints);
      assert forall k :: 0 <= k < n - 1 ==> joints[..n - 1][k] == joints[k];
      if joints[n - 1].1.limit.Some? {
        assert all == before + {n - 1};
      } else {
        assert all == before;
      }
    }
  }


  /** `get_joint_limits`: fill the table in joint order, skipping joints without a limit. */
  method GetJointLimits(joints: seq<(string, Joint)>) returns (out: seq<(string, Limit)>)
    ensures out == JointLimits(joints)
  {
    out := [];
    var i := 0;
    while i < |joints|
      invariant 0 <= i <= |joints|
      invariant out == JointLimits(joints[..i])
    {
      assert joints[..i + 1][..i] == joints[..i];
      var (jointName, joint) := joints[i];
      if joint.limit.None? {
        i := i + 1;
        continue;
      }
      out := out + [(jointName, joint.limit.value)];
      i := i + 1;
    }
    assert joints[..i] == joints;
  }
}
