/** The train/test split of `split_efforts` (modeling/validate_model.py):
    training efforts are those up to the cutoff date, testing efforts those
    after it, restricted to athletes who also have training efforts. */
module ValidateModel {
  import opened Frames

  /** The default cutoff '2015-08-01', as seconds since the Unix epoch
      (2015-08-01 00:00:00 is 16648 days after 1970-01-01). */
  const DefaultCutoff: int := 1438387200

  /** `df.athlete_id.unique()`, as a set. */
  function Athletes(efforts: seq<Effort>): set<Id>
  {
    set e | e in efforts :: e.athleteId
  }

  datatype Split = Split(training: seq<Effort>, testing: seq<Effort>)

  /** `split_efforts(df, date)`. */
  function SplitEfforts(efforts: seq<Effort>, cutoff: int := DefaultCutoff): (r: Split)
    ensures forall e :: e in r.training ==> e in efforts && e.date <= cutoff
    ensures forall e :: e in r.testing ==> e in efforts && e.date > cutoff
  {
    var training := Filter(efforts, (e: Effort) => e.date <= cutoff);
    var later := Filter(efforts, (e: Effort) => e.date > cutoff);
    var athletesToUse := Athletes(training) * Athletes(later);
    var testing := Filter(later, (e: Effort) => e.athleteId in athletesToUse);
    FilterMembers(efforts, (e: Effort) => e.date <= cutoff);
    FilterMembers(efforts, (e: Effort) => e.date > cutoff);
    FilterMembers(later, (e: Effort) => e.athleteId in athletesToUse);
    Split(training, testing)
  }

  /** The training set is every effort up to the cutoff, each as often as the
      table holds it. */
  lemma TrainingIsUpToCutoff(efforts: seq<Effort>, cutoff: int, e: Effort)
    ensures multiset(SplitEfforts(efforts, cutoff).training)[e] ==
      if e.date <= cutoff then multiset(efforts)[e] else 0
  {
    FilterCount(efforts, (e: Effort) => e.date <= cutoff, e);
  }

  /** The testing set is every effort after the cutoff whose athlete has an
      effort up to the cutoff, each as often as the table holds it; nothing
      else is dropped. */
  lemma TestingIsLaterEffortsOfTrainedAthletes(efforts: seq<Effort>, cutoff: int, e: Effort)
    ensures multiset(SplitEfforts(efforts, cutoff).testing)[e] ==
      if e.date > cutoff && (exists f :: f in efforts && f.date <= cutoff && f.athleteId == e.athleteId)
      then multiset(efforts)[e] else 0
  {
    var pre := (e: Effort) => e.date <= cutoff;
    var post := (e: Effort) => e.date > cutoff;
    var training := Filter(efforts, pre);
    var later := Filter(efforts, post);
    var athletesToUse := Athletes(training) * Athletes(later);
    var use := (e: Effort) => e.athleteId in athletesToUse;
    FilterCount(later, use, e);
    FilterCount(efforts, post, e);
    FilterMembers(efforts, pre);
    FilterMembers(efforts, post);
    if e.date > cutoff && e in efforts {
      assert e.athleteId in Athletes(later);
      if exists f :: f in efforts && f.date <= cutoff && f.athleteId == e.athleteId {
        var f :| f in efforts && f.date <= cutoff && f.athleteId == e.athleteId;
        assert f in training;
        assert e.athleteId in Athletes(training);
      }
      if e.athleteId in Athletes(training) {
        var f :| f in training && f.athleteId == e.athleteId;
        assert f in efforts && f.date <= cutoff;
      }
    }
  }

  /** No effort is both a training and a testing effort. */
  lemma SplitDisjoint(efforts: seq<Effort>, cutoff: int)
    ensures forall e :: !(e in SplitEfforts(efforts, cutoff).training && e in SplitEfforts(efforts, cutoff).testing)
  {
  }

  /** Every athlete in the testing set has an effort in the training set. */
  lemma TestingAthletesAreTrained(efforts: seq<Effort>, cutoff: int)
    ensures Athletes(SplitEfforts(efforts, cutoff).testing) <= Athletes(SplitEfforts(efforts, cutoff).training)
  {
    var s := SplitEfforts(efforts, cutoff);
    forall a | a in Athletes(s.testing) ensures a in Athletes(s.training) {
      var e :| e in s.testing && e.athleteId == a;
      TestingIsLaterEffortsOfTrainedAthletes(efforts, cutoff, e);
      assert multiset(s.testing)[e] > 0;
      var f :| f in efforts && f.date <= cutoff && f.athleteId == a;
      TrainingIsUpToCutoff(efforts, cutoff, f);
      assert multiset(s.training)[f] > 0;
    }
  }

  /** Both sets keep the table order: their efforts sit at increasing
      positions of the table. */
  lemma SplitKeepsOrder(efforts: seq<Effort>, cutoff: int) returns (trainPos: seq<nat>, testPos: seq<nat>)
    ensures var s := SplitEfforts(efforts, cutoff);
      && |trainPos| == |s.training| && |testPos| == |s.testing|
      && (forall k :: 0 <= k < |trainPos| ==> trainPos[k] < |efforts| && s.training[k] == efforts[trainPos[k]])
      && (forall k :: 0 <= k < |testPos| ==> testPos[k] < |efforts| && s.testing[k] == efforts[testPos[k]])
      && (forall k, l :: 0 <= k < l < |trainPos| ==> trainPos[k] < trainPos[l])
      && (forall k, l :: 0 <= k < l < |testPos| ==> testPos[k] < testPos[l])
  {
    var pre := (e: Effort) => e.date <= cutoff;
    var post := (e: Effort) => e.date > cutoff;
    var later := Filter(efforts, post);
    var athletesToUse := Athletes(Filter(efforts, pre)) * Athletes(later);
    var use := (e: Effort) => e.athleteId in athletesToUse;
    trainPos := FilterPositions(efforts, pre);
    var laterPos := FilterPositions(efforts, post);
    var usePos := FilterPositions(later, use);
    testPos := seq(|usePos|, k requires 0 <= k < |usePos| => laterPos[usePos[k]]);
  }
}
