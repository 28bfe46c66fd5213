/** The process feature extractor: every per-process record becomes a record
    holding only its `pid` and its `name`, each read with `dict.get`. */
module ProcessFeatures {
  import opened PyDict

  const PidKey: string := "pid"
  const NameKey: string := "name"

  /** The keys of every feature record. */
  const FeatureKeys: set<string> := {PidKey, NameKey}

  /** The feature record built from one process record: the map from `PidKey`
      and `NameKey` to what `Get` reads under each in `p`. */
  function FeatureOf(p: Record): (f: Record)
    ensures f.Keys == FeatureKeys
    ensures f[PidKey] == Get(p, PidKey) && f[NameKey] == Get(p, NameKey)
  {
    map[PidKey := Get(p, PidKey), NameKey := Get(p, NameKey)]
  }

  /** What `extract` returns for `procs`, one feature record per process record,
      in the same order. */
  function Extracted(procs: seq<Record>): (feats: seq<Record>)
    ensures |feats| == |procs|
  {
    if procs == [] then [] else [FeatureOf(procs[0])] + Extracted(procs[1..])
  }

  /** `ProcessFeatures.extract`: starts from an empty list and appends one feature
      record per input record. The input is a value and is left as it was. By
      `ExtractedCharacterized`, the first two postconditions hold of exactly one
      list, `Extracted(procList)`. */
  method Extract(procList: seq<Record>) returns (feats: seq<Record>)
    ensures |feats| == |procList|
    ensures forall i :: 0 <= i < |procList| ==> feats[i] == FeatureOf(procList[i])
    ensures forall i :: 0 <= i < |procList| ==>
              feats[i].Keys == FeatureKeys &&
              feats[i][PidKey] == Get(procList[i], PidKey) &&
              feats[i][NameKey] == Get(procList[i], NameKey)
  {
    feats := [];
    for n := 0 to |procList|
      invariant |feats| == n
      invariant forall j :: 0 <= j < n ==> feats[j] == FeatureOf(procList[j])
    {
      feats := feats + [FeatureOf(procList[n])];
    }
  }

  /** `Extracted` is the one list of the input's length whose element `i` is the
      feature record of input element `i`. */
  lemma {:induction false} ExtractedCharacterized(procs: seq<Record>, feats: seq<Record>)
    ensures feats == Extracted(procs) <==>
              |feats| == |procs| &&
              forall i :: 0 <= i < |procs| ==> feats[i] == FeatureOf(procs[i])
  {
    forall i | 0 <= i < |procs| {
      ExtractedAt(procs, i);
    }
  }

  /** Element `i` of the output is the feature record of element `i` of the input
      and of nothing else. */
  lemma {:induction false} ExtractedAt(procs: seq<Record>, i: nat)
    requires i < |procs|
    ensures Extracted(procs)[i] == FeatureOf(procs[i])
  {
    if i > 0 {
      ExtractedAt(procs[1..], i - 1);
    }
  }

  /** Extraction works record by record, so it distributes over concatenation. */
  lemma {:induction false} ExtractedAppend(a: seq<Record>, b: seq<Record>)
    ensures Extracted(a + b) == Extracted(a) + Extracted(b)
  {
    if a == [] {
      assert a + b == b;
    } else {
      assert (a + b)[1..] == a[1..] + b;
      ExtractedAppend(a[1..], b);
    }
  }

  /** A feature record depends on `p.get("pid")` and `p.get("name")` only: two
      process records give the same feature record exactly when they agree on those. */
  lemma FeatureOfDependsOnlyOnIdentity(p: Record, q: Record)
    ensures FeatureOf(p) == FeatureOf(q) <==>
              Get(p, PidKey) == Get(q, PidKey) && Get(p, NameKey) == Get(q, NameKey)
  {
  }

  /** Fields other than `pid` and `name` are dropped: changing or removing one
      does not change the feature record. */
  lemma FeatureOfIgnoresOtherFields(p: Record, k: string, v: Value)
    requires k !in FeatureKeys
    ensures FeatureOf(p[k := v]) == FeatureOf(p)
    ensures FeatureOf(p - {k}) == FeatureOf(p)
  {
  }

  /** A field that is missing and a field that is present with value `None` are
      not told apart. */
  lemma FeatureOfMissingIsNone(p: Record, k: string)
    requires k in FeatureKeys
    ensures FeatureOf(p - {k}) == FeatureOf(p[k := NoneV])
    ensures FeatureOf(p - {k})[k] == NoneV
  {
  }

  /** Extracting features from feature records changes nothing. */
  lemma {:induction false} ExtractedIdempotent(procs: seq<Record>)
    ensures Extracted(Extracted(procs)) == Extracted(procs)
  {
    var feats := Extracted(procs);
    forall i | 0 <= i < |procs|
      ensures Extracted(feats)[i] == feats[i]
    {
      ExtractedAt(procs, i);
      ExtractedAt(feats, i);
      FeatureOfDependsOnlyOnIdentity(FeatureOf(procs[i]), procs[i]);
    }
  }

  /** Two process lists give the same output exactly when they have equal length
      and agree, position by position, on `pid` and `name`. */
  lemma {:induction false} ExtractedEqualIff(procs: seq<Record>, others: seq<Record>)
    ensures Extracted(procs) == Extracted(others) <==>
              |procs| == |others| &&
              forall i :: 0 <= i < |procs| ==>
                Get(procs[i], PidKey) == Get(others[i], PidKey) &&
                Get(procs[i], NameKey) == Get(others[i], NameKey)
  {
    if |procs| == |others| {
      forall i | 0 <= i < |procs|
        ensures Extracted(procs)[i] == Extracted(others)[i] <==>
                  Get(procs[i], PidKey) == Get(others[i], PidKey) &&
                  Get(procs[i], NameKey) == Get(others[i], NameKey)
      {
        ExtractedAt(procs, i);
        ExtractedAt(others, i);
        FeatureOfDependsOnlyOnIdentity(procs[i], others[i]);
      }
    }
  }
}
