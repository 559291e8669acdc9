/**
 * The integer bookkeeping that aligns the fine teacher trajectory with the coarse
 * student schedule: the teacher runs M+1 times as many intervals, and the student's
 * k-th target is the teacher sample at the end of the k-th coarse interval.
 */
module TeacherSlicing {

  /** Number of points in the teacher's schedule. */
  function NumStepsTeacher(M: int, numSteps: int): int {
    (M + 1) * (numSteps - 1) + 1
  }

  /** The comprehension `[i * (M + 1) for i in range(i, numSteps)]`. */
  function SliceFrom(M: int, i: int, numSteps: int): seq<int>
    decreases numSteps - i
  {
    if i >= numSteps then [] else [i * (M + 1)] + SliceFrom(M, i + 1, numSteps)
  }

  /** The teacher-trajectory indices used as student targets, one per coarse step. */
  function TeaSlice(M: int, numSteps: int): seq<int> {
    SliceFrom(M, 1, numSteps)
  }

  lemma {:induction false} SliceFromAt(M: int, i: int, numSteps: int)
    requires i <= numSteps
    ensures |SliceFrom(M, i, numSteps)| == numSteps - i
    ensures forall k :: 0 <= k < numSteps - i ==> SliceFrom(M, i, numSteps)[k] == (i + k) * (M + 1)
    decreases numSteps - i
  {
    if i < numSteps {
      SliceFromAt(M, i + 1, numSteps);
      var s := SliceFrom(M, i, numSteps);
      forall k | 0 < k < numSteps - i
        ensures s[k] == (i + k) * (M + 1)
      {
        assert s[k] == SliceFrom(M, i + 1, numSteps)[k - 1];
      }
    }
  }

  /** The slice has one entry per coarse step, and the k-th entry is (k+1)(M+1). */
  lemma TeaSliceShape(M: int, numSteps: int)
    requires numSteps >= 1
    ensures |TeaSlice(M, numSteps)| == numSteps - 1
    ensures forall k :: 0 <= k < numSteps - 1 ==> TeaSlice(M, numSteps)[k] == (k + 1) * (M + 1)
  {
    SliceFromAt(M, 1, numSteps);
  }

  lemma MulStrictMono(a: int, b: int, c: int)
    requires a < b && c > 0
    ensures a * c < b * c
  {
    assert b * c - a * c == (b - a) * c;
  }

  /** With M >= 0 the targets are taken in strictly increasing teacher order. */
  lemma TeaSliceIncreasing(M: int, numSteps: int)
    requires M >= 0 && numSteps >= 1
    ensures forall j, k :: 0 <= j < k < |TeaSlice(M, numSteps)| ==> TeaSlice(M, numSteps)[j] < TeaSlice(M, numSteps)[k]
  {
    TeaSliceShape(M, numSteps);
    var s := TeaSlice(M, numSteps);
    forall j, k | 0 <= j < k < |s|
      ensures s[j] < s[k]
    {
      MulStrictMono(j + 1, k + 1, M + 1);
    }
  }

  /**
   * Every index lies inside a trajectory of NumStepsTeacher points, and the last one
   * is the final teacher sample.
   */
  lemma TeaSliceInBounds(M: int, numSteps: int)
    requires M >= 0 && numSteps >= 1
    ensures NumStepsTeacher(M, numSteps) >= 1
    ensures |TeaSlice(M, numSteps)| == numSteps - 1
    ensures forall k :: 0 <= k < |TeaSlice(M, numSteps)| ==> 0 < TeaSlice(M, numSteps)[k] < NumStepsTeacher(M, numSteps)
    ensures numSteps >= 2 ==> TeaSlice(M, numSteps)[numSteps - 2] == NumStepsTeacher(M, numSteps) - 1
  {
    TeaSliceShape(M, numSteps);
    var s := TeaSlice(M, numSteps);
    assert (M + 1) * (numSteps - 1) >= 0;
    forall k | 0 <= k < |s|
      ensures 0 < s[k] < NumStepsTeacher(M, numSteps)
    {
      assert s[k] == (k + 1) * (M + 1);
      assert (k + 1) * (M + 1) > 0;
      if k + 1 < numSteps - 1 {
        MulStrictMono(k + 1, numSteps - 1, M + 1);
      }
    }
  }

  /** Five coarse points with M = 1: a teacher schedule of nine points, targets 2, 4, 6, 8. */
  lemma FiveStepsOneIntermediate()
    ensures NumStepsTeacher(1, 5) == 9
    ensures TeaSlice(1, 5) == [2, 4, 6, 8]
  {
    TeaSliceShape(1, 5);
  }

  /** Advanced indexing of a trajectory by a list of positions. */
  function Gather<T>(traj: seq<T>, idx: seq<int>): (r: seq<T>)
    requires forall k :: 0 <= k < |idx| ==> 0 <= idx[k] < |traj|
    ensures |r| == |idx|
  {
    seq(|idx|, k requires 0 <= k < |idx| => traj[idx[k]])
  }

  /**
   * Slicing a full teacher trajectory yields one target per coarse step: the sample at
   * the end of each coarse interval, the last being the teacher's final sample.
   */
  lemma TeacherTargets<T>(traj: seq<T>, M: int, numSteps: int)
    requires M >= 0 && numSteps >= 1
    requires |traj| == NumStepsTeacher(M, numSteps)
    ensures forall k :: 0 <= k < |TeaSlice(M, numSteps)| ==> 0 <= TeaSlice(M, numSteps)[k] < |traj|
    ensures |Gather(traj, TeaSlice(M, numSteps))| == numSteps - 1
    ensures forall k :: 0 <= k < numSteps - 1 ==> Gather(traj, TeaSlice(M, numSteps))[k] == traj[(k + 1) * (M + 1)]
    ensures numSteps >= 2 ==> Gather(traj, TeaSlice(M, numSteps))[numSteps - 2] == traj[|traj| - 1]
  {
    TeaSliceShape(M, numSteps);
    TeaSliceInBounds(M, numSteps);
  }
}
