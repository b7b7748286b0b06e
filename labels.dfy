// The label manager: a free list of on-screen channel labels. OnEnable fills
// it with the template label and its clones, all hidden; SpawnLabel pops the
// most recently freed label; Release hides a label and pushes it back unless
// it is already free. Both copies of the manager share this logic.

module LabelPool {
  import opened Numerics

  /** An OscChannelLabel, reduced to the visibility the pool manages. */
  class Label {
    var visible: bool

    constructor(visible: bool)
      ensures this.visible == visible
    {
      this.visible := visible;
    }
  }

  /** No label occurs twice in the list. */
  predicate Distinct(s: seq<Label>)
  {
    forall i, j :: 0 <= i < j < |s| ==> s[i] != s[j]
  }

  /** SpawnLabel on a list: the last label and the rest, or None when empty. */
  function Pop(s: seq<Label>): (r: Option<(Label, seq<Label>)>)
    ensures r.None? <==> |s| == 0
    ensures r.Some? ==> s == r.value.1 + [r.value.0]
  {
    if |s| == 0 then None else Some((s[|s| - 1], s[..|s| - 1]))
  }

  /** Release on a list: append the label unless it is already in it. */
  function Push(s: seq<Label>, l: Label): (r: seq<Label>)
    ensures l in r
    ensures l in s ==> r == s
    ensures l !in s ==> |r| == |s| + 1 && r[..|s|] == s
  {
    if l in s then s else s + [l]
  }

  /** Release keeps the free list free of duplicates. */
  lemma PushDistinct(s: seq<Label>, l: Label)
    requires Distinct(s)
    ensures Distinct(Push(s, l))
  {
    if l !in s {
      var r := s + [l];
      forall i, j | 0 <= i < j < |r|
        ensures r[i] != r[j]
      {
        if j == |s| {
          assert r[i] == s[i];
        }
      }
    }
  }

  /** Spawning keeps the free list free of duplicates. */
  lemma PopDistinct(s: seq<Label>)
    requires Distinct(s) && |s| > 0
    ensures Distinct(Pop(s).value.1)
    ensures Pop(s).value.0 !in Pop(s).value.1
  {
  }

  /** Releasing a label that was not free and then spawning gives that label back. */
  lemma ReleaseThenSpawn(s: seq<Label>, l: Label)
    requires l !in s
    ensures Pop(Push(s, l)) == Some((l, s))
  {
    assert (s + [l])[..|s|] == s;
  }

  /** Spawning and then releasing the spawned label restores the list. */
  lemma SpawnThenRelease(s: seq<Label>)
    requires Distinct(s) && |s| > 0
    ensures Push(Pop(s).value.1, Pop(s).value.0) == s
  {
    PopDistinct(s);
  }

  class OscLabelManager {
    /** The template label, the first entry of the pool. */
    const template: Label
    /** How many labels OnEnable creates. */
    const labelsNumber: int
    var freeLabels: seq<Label>

    constructor(template: Label, labelsNumber: int)
      ensures this.template == template && this.labelsNumber == labelsNumber
      ensures freeLabels == []
    {
      this.template := template;
      this.labelsNumber := labelsNumber;
      freeLabels := [];
    }

    /**
     * Creates the pool: the template followed by labelsNumber - 1 fresh
     * clones, every one hidden. A negative labelsNumber is a negative list
     * capacity, which the source rejects with an exception: ok is false and
     * nothing changes.
     */
    method OnEnable() returns (ok: bool)
      modifies this, template
      ensures ok <==> labelsNumber >= 0
      ensures !ok ==> freeLabels == old(freeLabels) && template.visible == old(template.visible)
      ensures ok ==> |freeLabels| == (if labelsNumber > 1 then labelsNumber else 1) && freeLabels[0] == template
      ensures ok ==> forall k :: 1 <= k < |freeLabels| ==> fresh(freeLabels[k])
      ensures ok ==> forall m :: m in freeLabels ==> !m.visible
      ensures ok ==> Distinct(freeLabels)
    {
      if labelsNumber < 0 {
        return false;
      }
      template.visible := false;
      var labels := [template];
      var i := 1;
      while i < labelsNumber
        invariant 1 <= i <= (if labelsNumber > 1 then labelsNumber else 1)
        invariant |labels| == i && labels[0] == template
        invariant forall k :: 1 <= k < |labels| ==> fresh(labels[k])
        invariant forall m :: m in labels ==> !m.visible
        invariant Distinct(labels)
        invariant !template.visible
      {
        var instance := new Label(false);
        labels := labels + [instance];
        i := i + 1;
      }
      freeLabels := labels;
      return true;
    }

    /**
     * Takes the most recently freed label off the pool. An empty pool is the
     * source's "reached limit" exception: the result is None and the pool
     * is unchanged.
     */
    method SpawnLabel() returns (r: Option<Label>)
      modifies this
      ensures r == (if Pop(old(freeLabels)).Some? then Some(Pop(old(freeLabels)).value.0) else None)
      ensures freeLabels == (if Pop(old(freeLabels)).Some? then Pop(old(freeLabels)).value.1 else old(freeLabels))
    {
      if |freeLabels| == 0 {
        return None;
      }
      var last := |freeLabels| - 1;
      r := Some(freeLabels[last]);
      freeLabels := freeLabels[..last];
    }

    /** Hides the label and returns it to the pool unless it is already free. */
    method Release(l: Label)
      modifies this, l
      ensures !l.visible
      ensures freeLabels == Push(old(freeLabels), l)
    {
      l.visible := false;
      if l !in freeLabels {
        freeLabels := freeLabels + [l];
      }
    }
  }
}
