/**
 * The checklist logic that ComplianceManager.tsx and SmartChecklistModal.tsx
 * share: the list of completed step numbers, toggling a step, the "all steps
 * checked" gate and the remaining-steps count.
 */
module Checklist {
  import opened Constants

  /** `c.filter(id => id !== x)`. */
  function RemoveAll(c: seq<int>, x: int): (r: seq<int>)
    ensures |r| <= |c|
    ensures forall y :: y in r <==> y in c && y != x
    decreases |c|
  {
    if c == [] then []
    else if c[0] == x then RemoveAll(c[1..], x)
    else [c[0]] + RemoveAll(c[1..], x)
  }

  /** `c.includes(step) ? c.filter(id => id !== step) : [...c, step]`. */
  function Toggle(c: seq<int>, step: int): seq<int> {
    if step in c then RemoveAll(c, step) else c + [step]
  }

  predicate NoDup(c: seq<int>) {
    forall i, j :: 0 <= i < j < |c| ==> c[i] != c[j]
  }

  /** `SMART_CHECKLIST_STEPS.every(step => c.includes(step.step))`. */
  predicate AllChecked(c: seq<int>) {
    forall i :: 0 <= i < |SmartChecklistSteps| ==> SmartChecklistSteps[i].step in c
  }

  /** `SMART_CHECKLIST_STEPS.length - c.length`. */
  function Remaining(c: seq<int>): int {
    |SmartChecklistSteps| - |c|
  }

  /** A step number of the checklist. */
  predicate IsStep(n: int) {
    exists i :: 0 <= i < |SmartChecklistSteps| && SmartChecklistSteps[i].step == n
  }

  /**
   * The completed list as the views can reach it: only step numbers, each at
   * most once.
   */
  predicate ValidSteps(c: seq<int>) {
    NoDup(c) && forall i :: 0 <= i < |c| ==> IsStep(c[i])
  }

  lemma IsStepRange(n: int)
    ensures IsStep(n) <==> 1 <= n <= 5
  {
    ChecklistSteps();
    if 1 <= n <= 5 {
      assert SmartChecklistSteps[n - 1].step == n;
    }
  }

  /** The gate holds exactly when every number from 1 to 5 is in the list. */
  lemma AllCheckedIff(c: seq<int>)
    ensures AllChecked(c) <==> forall n :: 1 <= n <= 5 ==> n in c
  {
    ChecklistSteps();
    if forall n :: 1 <= n <= 5 ==> n in c {
      forall i | 0 <= i < |SmartChecklistSteps| ensures SmartChecklistSteps[i].step in c {
        assert SmartChecklistSteps[i].step == i + 1;
      }
    }
    if AllChecked(c) {
      forall n | 1 <= n <= 5 ensures n in c {
        assert SmartChecklistSteps[n - 1].step == n;
      }
    }
  }

  /** Nothing checked, or a step left out, keeps the gate closed. */
  lemma NotAllChecked(c: seq<int>, missing: int)
    requires 1 <= missing <= 5 && missing !in c
    ensures !AllChecked(c)
    ensures !AllChecked([])
  {
    AllCheckedIff(c);
    AllCheckedIff([]);
  }

  /** Toggling flips membership of the toggled step and keeps every other. */
  lemma ToggleMembership(c: seq<int>, step: int)
    ensures step in Toggle(c, step) <==> step !in c
    ensures forall y :: y != step ==> (y in Toggle(c, step) <==> y in c)
  {
  }

  /** Toggling the same step twice restores membership of every number. */
  lemma ToggleTwice(c: seq<int>, step: int)
    ensures forall y :: y in Toggle(Toggle(c, step), step) <==> y in c
  {
    ToggleMembership(c, step);
    ToggleMembership(Toggle(c, step), step);
  }

  /** A step that was absent is appended and then removed: the list comes back as it was. */
  lemma ToggleTwiceAbsent(c: seq<int>, step: int)
    requires step !in c
    ensures Toggle(Toggle(c, step), step) == c
  {
    assert step in c + [step];
    RemoveAppendAbsent(c, step);
  }

  /** A step that was present ends up at the end of the list after two toggles. */
  lemma ToggleTwicePresent(c: seq<int>, step: int)
    requires step in c
    ensures Toggle(Toggle(c, step), step) == RemoveAll(c, step) + [step]
  {
  }

  lemma {:induction false} RemoveAppendAbsent(c: seq<int>, x: int)
    requires x !in c
    ensures RemoveAll(c + [x], x) == c
    decreases |c|
  {
    if c == [] {
      assert [x][1..] == [];
    } else {
      assert (c + [x])[1..] == c[1..] + [x];
      RemoveAppendAbsent(c[1..], x);
      assert c == [c[0]] + c[1..];
    }
  }

  lemma {:induction false} RemoveAllNoDup(c: seq<int>, x: int)
    requires NoDup(c)
    ensures NoDup(RemoveAll(c, x))
    ensures |RemoveAll(c, x)| == if x in c then |c| - 1 else |c|
    decreases |c|
  {
    if c != [] {
      assert NoDup(c[1..]) by {
        forall i, j | 0 <= i < j < |c[1..]| ensures c[1..][i] != c[1..][j] {
          assert c[1..][i] == c[i + 1] && c[1..][j] == c[j + 1];
        }
      }
      assert c[0] !in c[1..] by {
        forall k | 0 <= k < |c[1..]| ensures c[1..][k] != c[0] {
          assert c[1..][k] == c[k + 1];
        }
      }
      RemoveAllNoDup(c[1..], x);
      assert x in c <==> x == c[0] || x in c[1..] by {
        assert c == [c[0]] + c[1..];
      }
      if c[0] != x {
        var r := RemoveAll(c[1..], x);
        assert c[0] !in r;
        forall i, j | 0 <= i < j < |[c[0]] + r| ensures ([c[0]] + r)[i] != ([c[0]] + r)[j] {
          if i > 0 {
            assert ([c[0]] + r)[i] == r[i - 1];
          }
          assert ([c[0]] + r)[j] == r[j - 1];
        }
      }
    }
  }

  /** Toggling keeps the completed list free of duplicates. */
  lemma ToggleNoDup(c: seq<int>, step: int)
    requires NoDup(c)
    ensures NoDup(Toggle(c, step))
  {
    if step in c {
      RemoveAllNoDup(c, step);
    } else {
      forall i, j | 0 <= i < j < |c + [step]| ensures (c + [step])[i] != (c + [step])[j] {
        if j == |c| {
          assert (c + [step])[i] == c[i];
        } else {
          assert (c + [step])[i] == c[i] && (c + [step])[j] == c[j];
        }
      }
    }
  }

  /** Toggling one of the checklist's steps keeps a reachable list reachable. */
  lemma ToggleValid(c: seq<int>, step: int)
    requires ValidSteps(c) && IsStep(step)
    ensures ValidSteps(Toggle(c, step))
  {
    ToggleNoDup(c, step);
    var t := Toggle(c, step);
    forall i | 0 <= i < |t| ensures IsStep(t[i]) {
      assert t[i] in t;
      if t[i] != step {
        var k :| 0 <= k < |c| && c[k] == t[i];
      }
    }
  }

  lemma BoundedNonEmpty(c: seq<int>, n: int)
    requires forall i :: 0 <= i < |c| ==> 1 <= c[i] <= n
    ensures |c| > 0 ==> n >= 1
  {
    if |c| > 0 {
      assert 1 <= c[0] <= n;
    }
  }

  /** Distinct numbers from 1 to `n`: at most `n` of them, and exactly `n` only when all are there. */
  lemma {:induction false} PigeonHole(c: seq<int>, n: nat)
    requires NoDup(c) && forall i :: 0 <= i < |c| ==> 1 <= c[i] <= n
    ensures |c| <= n
    ensures |c| == n ==> forall k :: 1 <= k <= n ==> k in c
    decreases n
  {
    if n == 0 {
      BoundedNonEmpty(c, n);
    } else {
      var r := RemoveAll(c, n);
      RemoveAllNoDup(c, n);
      forall i | 0 <= i < |r| ensures 1 <= r[i] <= n - 1 {
        assert r[i] in r;
        var k :| 0 <= k < |c| && c[k] == r[i];
      }
      PigeonHole(r, n - 1);
      if |c| == n {
        assert n in c;
        forall k | 1 <= k <= n ensures k in c {
          if k < n {
            assert k in r;
          }
        }
      }
    }
  }

  /**
   * On a reachable list the count shown is between 0 and 5, and it reaches 0
   * exactly when the gate opens.
   */
  lemma RemainingMatchesGate(c: seq<int>)
    requires ValidSteps(c)
    ensures 0 <= Remaining(c) <= |SmartChecklistSteps| == 5
    ensures Remaining(c) == 0 <==> AllChecked(c)
  {
    ChecklistSteps();
    forall i | 0 <= i < |c| ensures 1 <= c[i] <= 5 {
      IsStepRange(c[i]);
    }
    PigeonHole(c, 5);
    AllCheckedIff(c);
    if AllChecked(c) {
      CoverThenLonger(c);
    }
  }

  /** A duplicate-free list holding all of 1 to 5 has at least five entries. */
  lemma CoverThenLonger(c: seq<int>)
    requires NoDup(c) && forall n :: 1 <= n <= 5 ==> n in c
    ensures |c| >= 5
  {
    var r1 := RemoveAll(c, 1);
    RemoveAllNoDup(c, 1);
    var r2 := RemoveAll(r1, 2);
    RemoveAllNoDup(r1, 2);
    var r3 := RemoveAll(r2, 3);
    RemoveAllNoDup(r2, 3);
    var r4 := RemoveAll(r3, 4);
    RemoveAllNoDup(r3, 4);
    assert 5 in r4;
  }

  /**
   * What the confirm button says: the celebration label once every step is
   * checked, otherwise how many steps are left.
   */
  datatype GateLabel = Celebrate | StepsToGo(count: int)

  function Label(c: seq<int>): GateLabel {
    if AllChecked(c) then Celebrate else StepsToGo(Remaining(c))
  }

  /** On a reachable list the count shown while the gate is closed is between 1 and 5. */
  lemma LabelCount(c: seq<int>)
    requires ValidSteps(c)
    ensures Label(c).StepsToGo? ==> 1 <= Label(c).count <= 5
    ensures Label(c) == Celebrate <==> Remaining(c) == 0
  {
    RemainingMatchesGate(c);
  }
}
