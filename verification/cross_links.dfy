/** How the feature and task documents point at each other: both sides
    derive their links from the task's `featureIds`, so they always agree. */
module CrossLinks {
  import opened Project
  import opened FeaturesMd
  import opened TasksMd

  /** A task appears under a feature's Related Tasks exactly when the
      feature appears under that task's Related Features. */
  lemma LinkedBothWays(fs: seq<Feature>, ts: seq<Task>, f: Feature, t: Task)
    requires f in fs && t in ts
    ensures t in TasksOf(ts, f.id) <==> f in FeaturesOf(fs, t.featureIds)
    ensures t in TasksOf(ts, f.id) <==> f.id in t.featureIds
  {
    if f.id in t.featureIds {
      TasksOfKeeps(ts, f.id, t);
      FeaturesOfKeeps(fs, t.featureIds, f);
    }
  }

  /** A task that names no existing feature gets the placeholder, and no
      feature document lists it. */
  lemma UnlinkedTask(fs: seq<Feature>, ts: seq<Task>, t: Task)
    requires t in ts
    requires forall f | f in fs :: f.id !in t.featureIds
    ensures FeaturesBody(t, fs) == [NO_FEATURES]
    ensures forall f | f in fs :: t !in TasksOf(ts, f.id)
  {
    NoneLinked(fs, t.featureIds);
    assert FeatureLinks(t, fs) == [];
    forall f | f in fs
      ensures t !in TasksOf(ts, f.id)
    {
      var r := TasksOf(ts, f.id);
      assert forall i | 0 <= i < |r| :: f.id in r[i].featureIds;
    }
  }

  lemma {:induction false} NoneLinked(fs: seq<Feature>, ids: seq<string>)
    requires forall f | f in fs :: f.id !in ids
    ensures FeaturesOf(fs, ids) == []
  {
    if fs != [] {
      assert fs[0] in fs;
      NoneLinked(fs[1..], ids);
    }
  }
}
