// The project detail page (src/components/ProjectDetail.tsx): the index of the
// project named in the URL, the cyclic previous/next indices, the not-found view
// and the arrow-key navigation.

module ProjectDetail {
  import opened Lists

  /** `projects.findIndex(p => p.id === id)`: the first position with that id, or -1. */
  function FindIndex(ids: seq<string>, id: string): (i: int)
    ensures -1 <= i < |ids|
    ensures i == -1 <==> id !in ids
    ensures i >= 0 ==> ids[i] == id && id !in ids[..i]
  {
    if id in ids then IndexOf(ids, id) else -1
  }

  /** `currentIndex > 0 ? currentIndex - 1 : projects.length - 1`. */
  function PrevIndex(current: int, n: nat): (p: int)
    ensures current > 0 ==> p == current - 1
    ensures current <= 0 ==> p == n - 1
  {
    if current > 0 then current - 1 else n - 1
  }

  /** `currentIndex < projects.length - 1 ? currentIndex + 1 : 0`. */
  function NextIndex(current: int, n: nat): (q: int)
    ensures current < n - 1 ==> q == current + 1
    ensures current >= n - 1 ==> q == 0
  {
    if current < n - 1 then current + 1 else 0
  }

  /** For a known project, both neighbours are valid positions. */
  lemma NeighboursAreValid(current: int, n: nat)
    requires 0 <= current < n
    ensures 0 <= PrevIndex(current, n) < n && 0 <= NextIndex(current, n) < n
  {
  }

  /** Stepping back and then forward, or forward and then back, returns to the start. */
  lemma StepsUndo(current: int, n: nat)
    requires 0 <= current < n
    ensures NextIndex(PrevIndex(current, n), n) == current
    ensures PrevIndex(NextIndex(current, n), n) == current
  {
  }

  /** The ends wrap around: after the last comes the first, and before the first comes the last. */
  lemma EndsWrap(n: nat)
    requires n >= 1
    ensures NextIndex(n - 1, n) == 0 && PrevIndex(0, n) == n - 1
  {
  }

  /** The position reached by pressing the right arrow `k` times. */
  function StepForward(current: int, n: nat, k: nat): int {
    if k == 0 then current else NextIndex(StepForward(current, n, k - 1), n)
  }

  /** Stepping forward cycles through the projects: `k` steps move `k` places, modulo their number. */
  lemma {:induction false} StepForwardIsModular(current: int, n: nat, k: nat)
    requires 0 <= current < n
    ensures StepForward(current, n, k) == (current + k) % n
  {
    if k > 0 {
      StepForwardIsModular(current, n, k - 1);
      ModStep(current + k - 1, n);
    }
  }

  /** One more place moves the remainder on by one, wrapping from `n - 1` to 0. */
  lemma ModStep(a: int, n: int)
    requires 0 <= a && 0 < n
    ensures (a + 1) % n == if a % n == n - 1 then 0 else a % n + 1
  {
    var q, r := a / n, a % n;
    if r == n - 1 {
      assert a + 1 == (q + 1) * n;
      ModUnique(a + 1, n, q + 1, 0);
    } else {
      ModUnique(a + 1, n, q, r + 1);
    }
  }

  /** Euclidean division is unique: a quotient and an in-range remainder fix `a % n`. */
  lemma ModUnique(a: int, n: int, q: int, r: int)
    requires n > 0 && 0 <= r < n && a == q * n + r
    ensures a % n == r
  {
    var q', r' := a / n, a % n;
    assert (q - q') * n == r' - r;
    if q - q' >= 1 {
      MulAtLeast(q - q', n);
    } else if q' - q >= 1 {
      MulAtLeast(q' - q, n);
    }
  }

  /** A positive multiple of a positive `n` is at least `n`. */
  lemma {:induction false} MulAtLeast(d: int, n: int)
    requires d >= 1 && n > 0
    ensures d * n >= n
  {
    if d > 1 {
      MulAtLeast(d - 1, n);
      assert d * n == (d - 1) * n + n;
    }
  }

  /**
   * What the page renders. `Crash` is the empty project list: the render reads
   * `prevProject.id` of the missing last element for the key effect's dependencies
   * before it reaches the not-found test, so it throws a TypeError.
   */
  datatype View = Crash | NotFound | Detail(index: nat, prev: int, next: int)

  /** The page for an id: a crash for no projects, "Project not found" for an unknown id, else the project and its neighbours. */
  function PageFor(ids: seq<string>, id: string): (v: View)
    ensures v.Crash? <==> |ids| == 0
    ensures v.NotFound? <==> |ids| > 0 && id !in ids
    ensures v.Detail? ==> v.index < |ids| && ids[v.index] == id && 0 <= v.prev < |ids| && 0 <= v.next < |ids|
    ensures v.Detail? ==> v.index == FindIndex(ids, id) && v.prev == PrevIndex(v.index, |ids|) && v.next == NextIndex(v.index, |ids|)
  {
    if |ids| == 0 then Crash
    else
      var i := FindIndex(ids, id);
      if i < 0 then NotFound else Detail(i, PrevIndex(i, |ids|), NextIndex(i, |ids|))
  }

  /** An unknown id still has neighbours computed from -1: the last and the first project. */
  lemma UnknownIdNeighbours(ids: seq<string>, id: string)
    requires id !in ids && |ids| >= 1
    ensures PrevIndex(FindIndex(ids, id), |ids|) == |ids| - 1
    ensures NextIndex(FindIndex(ids, id), |ids|) == 0
  {
  }

  datatype Key = ArrowLeft | ArrowRight | OtherKey

  /** The keydown listener: the id of the project to navigate to, if the key is an arrow. */
  function KeyTarget(ids: seq<string>, id: string, key: Key): (t: Option<string>)
    requires |ids| >= 1
    ensures key == ArrowLeft ==> t == Some(ids[PrevIndex(FindIndex(ids, id), |ids|)])
    ensures key == ArrowRight ==> t == Some(ids[NextIndex(FindIndex(ids, id), |ids|)])
    ensures key == OtherKey ==> t.None?
  {
    var i := FindIndex(ids, id);
    match key
    case ArrowLeft => Some(ids[PrevIndex(i, |ids|)])
    case ArrowRight => Some(ids[NextIndex(i, |ids|)])
    case OtherKey => None
  }

  /** With distinct ids, the right arrow followed by the left arrow comes back to the same project. */
  lemma RightThenLeft(ids: seq<string>, id: string)
    requires |ids| >= 1 && NoDuplicates(ids) && id in ids
    ensures KeyTarget(ids, KeyTarget(ids, id, ArrowRight).value, ArrowLeft) == Some(id)
  {
    var i := FindIndex(ids, id);
    var j := NextIndex(i, |ids|);
    assert FindIndex(ids, ids[j]) == j by {
      var k := FindIndex(ids, ids[j]);
      assert ids[k] == ids[j];
    }
    StepsUndo(i, |ids|);
  }
}
