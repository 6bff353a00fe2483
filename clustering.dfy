/** Pose selection by clustering (scripts/clustering_functions.py): the pairwise
    metric matrix of the poses of one molecule, the 3DScore pick, the choice of the
    number of clusters, matching cluster centres back to poses, the `bestpose`
    filters, and `cluster_pebble`, which writes one clustered file per metric.
    The pose metrics, the scaler, k-medoids, affinity propagation and the silhouette
    score are parameters (`Backends`). */
module Clustering {
  import opened Wrappers
  import opened Text
  import opened Tables
  import Sorting
  import Combinations

  /** One docked pose: its `Pose ID`, molecule `ID` and molecule block. */
  datatype Pose = Pose(poseId: string, id: string, molecule: string)

  /** The pose-similarity functions of the `metrics` table. */
  datatype Metric = RMSD | SpyRMSD | Espsim | USRCAT | SPLIF

  datatype ClusterError =
    | InvalidMetric(name: string)        // ValueError at line 149
    | TooFewPoses                        // IndexError: no pair to index with fewer than two poses
    | UnknownMethod(name: string)        // KeyError on the `methods` table
    | TooFewForKMedoids                  // ValueError: k = 2, 3, 4 needs at least five poses
    | NothingToConcatenate               // pd.concat of an empty list

  /** The pose metrics and the clustering algorithms, which the model does not compute. */
  datatype Backends = Backends(
    pairMetric: (Metric, string, string) -> real,
    scale: seq<seq<real>> -> seq<seq<real>>,
    silhouette: (seq<seq<real>>, nat) -> real,
    kmedoidsCentres: (seq<seq<real>>, nat) -> seq<seq<real>>,
    affinityCentres: seq<seq<real>> -> seq<seq<real>>)

  // ---------------------------------------------------------------- metric table

  /** The metric function a metric name selects; `3DScore` computes spyRMSD. */
  function ResolveMetric(name: string): (r: Result<Metric, ClusterError>)
    ensures r.Ok? <==> name in {"RMSD", "spyRMSD", "espsim", "USRCAT", "SPLIF", "3DScore"}
    ensures name == "3DScore" ==> r == Ok(SpyRMSD)
    ensures r.Err? ==> r.error == InvalidMetric(name)
  {
    if name == "3DScore" then Ok(SpyRMSD)
    else if name == "RMSD" then Ok(RMSD)
    else if name == "spyRMSD" then Ok(SpyRMSD)
    else if name == "espsim" then Ok(Espsim)
    else if name == "USRCAT" then Ok(USRCAT)
    else if name == "SPLIF" then Ok(SPLIF)
    else Err(InvalidMetric(name))
  }

  /** The clustering algorithms of the `methods` table, keyed as written. */
  datatype Method = KMedoids | AffinityPropagation

  /** The lookup `methods[method]` as written: the keys are `KMedoids` and `AffProp`. */
  function ResolveMethodAsWritten(name: string): (r: Result<Method, ClusterError>)
    ensures r.Ok? <==> name == "KMedoids" || name == "AffProp"
  {
    if name == "KMedoids" then Ok(KMedoids)
    else if name == "AffProp" then Ok(AffinityPropagation)
    else Err(UnknownMethod(name))
  }

  /** The name the configuration accepts for affinity propagation is `Aff_Prop`,
      which the table above does not hold. */
  lemma AffPropSpellingRejected()
    ensures ResolveMethodAsWritten("Aff_Prop") == Err(UnknownMethod("Aff_Prop"))
  {
  }

  /** The lookup as intended: both spellings select affinity propagation. */
  function ResolveMethod(name: string): (r: Result<Method, ClusterError>)
    ensures r.Ok? <==> name in {"KMedoids", "AffProp", "Aff_Prop"}
    ensures r == Ok(AffinityPropagation) <==> name == "AffProp" || name == "Aff_Prop"
    ensures ResolveMethodAsWritten(name).Ok? ==> r == ResolveMethodAsWritten(name)
  {
    if name == "Aff_Prop" then Ok(AffinityPropagation) else ResolveMethodAsWritten(name)
  }

  // ---------------------------------------------------------------- pairs

  /** The indices lo, …, hi − 1. */
  function Indices(lo: nat, hi: nat): (r: seq<nat>)
    ensures |r| == if lo <= hi then hi - lo else 0
    decreases hi - lo
  {
    if lo >= hi then [] else [lo] + Indices(lo + 1, hi)
  }

  lemma {:induction false} SingleInIndices(y: nat, lo: nat, hi: nat)
    ensures Combinations.IsSubsequence([y], Indices(lo, hi)) <==> lo <= y < hi
    decreases hi - lo
  {
    if lo < hi {
      SingleInIndices(y, lo + 1, hi);
      assert [y][1..] == [];
    }
  }

  lemma {:induction false} PairInIndices(x: nat, y: nat, lo: nat, hi: nat)
    ensures Combinations.IsSubsequence([x, y], Indices(lo, hi)) <==> lo <= x < y < hi
    decreases hi - lo
  {
    if lo < hi {
      PairInIndices(x, y, lo + 1, hi);
      SingleInIndices(y, lo + 1, hi);
      assert [x, y][1..] == [y];
    }
  }

  /** `itertools.combinations(df['Molecule'], 2)` on row indices: exactly the pairs
      i < j of the n rows, C(n, 2) of them. */
  function Pairs(n: nat): (r: seq<seq<nat>>)
    ensures |r| == Combinations.Binomial(n, 2)
    ensures forall k :: 0 <= k < |r| ==> |r[k]| == 2 && r[k][0] < r[k][1] < n
    ensures forall i, j :: 0 <= i < j < n ==> [i, j] in r
  {
    var r := Combinations.Choose<nat>(Indices(0, n), 2);
    Combinations.ChooseCount<nat>(Indices(0, n), 2);
    Combinations.ChooseSound<nat>(Indices(0, n), 2);
    forall k | 0 <= k < |r| ensures r[k][0] < r[k][1] < n {
      assert r[k] == [r[k][0], r[k][1]];
      PairInIndices(r[k][0], r[k][1], 0, n);
    }
    forall i, j | 0 <= i < j < n ensures [i, j] in r {
      PairInIndices(i, j, 0, n);
      Combinations.ChooseComplete<nat>(Indices(0, n), [i, j]);
    }
    r
  }

  // ---------------------------------------------------------------- matrix

  /** The matrix entry of rows i and j: the metric of the pair for i ≠ j, 0 on the diagonal. */
  function Entry(f: (nat, nat) -> real, i: nat, j: nat): real
  {
    if i < j then f(i, j) else if j < i then f(j, i) else 0.0
  }

  /** An entry once the pairs `done` have been written. */
  function Filled(f: (nat, nat) -> real, done: seq<seq<nat>>, i: nat, j: nat): real
  {
    if i < j && [i, j] in done then f(i, j) else if j < i && [j, i] in done then f(j, i) else 0.0
  }

  /** Lines 158-160: a zero matrix, then the metric of each pair written at [i, j]
      and at [j, i]. The result is symmetric with a zero diagonal. */
  method PairMatrix(n: nat, f: (nat, nat) -> real) returns (m: array2<real>)
    ensures fresh(m) && m.Length0 == n && m.Length1 == n
    ensures forall i, j :: 0 <= i < n && 0 <= j < n ==> m[i, j] == Entry(f, i, j)
    ensures forall i, j :: 0 <= i < n && 0 <= j < n ==> m[i, j] == m[j, i]
    ensures forall i :: 0 <= i < n ==> m[i, i] == 0.0
  {
    var pairs := Pairs(n);
    m := new real[n, n]((i, j) => 0.0);
    for k := 0 to |pairs|
      invariant forall i, j :: 0 <= i < n && 0 <= j < n ==> m[i, j] == Filled(f, pairs[..k], i, j)
    {
      var i, j := pairs[k][0], pairs[k][1];
      assert pairs[k] == [i, j];
      assert pairs[..k + 1] == pairs[..k] + [[i, j]];
      var v := f(i, j);
      m[i, j] := v;
      m[j, i] := v;
      forall a, b | 0 <= a < n && 0 <= b < n ensures m[a, b] == Filled(f, pairs[..k + 1], a, b) {
        if [a, b] == [i, j] {
          assert a == [a, b][0] && b == [a, b][1];
        }
        if [b, a] == [i, j] {
          assert b == [b, a][0] && a == [b, a][1];
        }
      }
    }
    assert pairs[..|pairs|] == pairs;
  }

  /** The matrix as rows, the way the data frame built from it holds them. */
  function Entries(m: array2<real>): (rows: seq<seq<real>>)
    reads m
    ensures |rows| == m.Length0 && forall i :: 0 <= i < |rows| ==> |rows[i]| == m.Length1
  {
    seq(m.Length0, i requires 0 <= i < m.Length0 reads m => seq(m.Length1, j requires 0 <= j < m.Length1 reads m => m[i, j]))
  }

  /** The rows of the pair matrix of n poses. */
  function MatrixRows(n: nat, f: (nat, nat) -> real): (rows: seq<seq<real>>)
    ensures |rows| == n && forall i :: 0 <= i < n ==> |rows[i]| == n
  {
    seq(n, i requires 0 <= i < n => seq(n, j requires 0 <= j < n => Entry(f, i, j)))
  }

  // ---------------------------------------------------------------- 3DScore

  /** The first row with the smallest row sum (`sum(axis=1)`, ascending sort, `head(1)`). */
  function LowestRow(rows: seq<seq<real>>): (best: nat)
    requires |rows| > 0
    ensures best < |rows|
    ensures forall r :: 0 <= r < |rows| ==> Sum(rows[best]) <= Sum(rows[r])
  {
    if |rows| == 1 then 0
    else
      var b := LowestRow(rows[..|rows| - 1]);
      assert forall r :: 0 <= r < |rows| - 1 ==> rows[..|rows| - 1][r] == rows[r];
      if Sum(rows[|rows| - 1]) < Sum(rows[b]) then |rows| - 1 else b
  }

  // ---------------------------------------------------------------- number of clusters

  /** `max(d, key=d.get)` over a dict whose values, in insertion order, are `scores`:
      the position of the first largest score. */
  function FirstBest(scores: seq<real>): (i: nat)
    requires |scores| > 0
    ensures i < |scores|
    ensures forall j :: 0 <= j < |scores| ==> scores[j] <= scores[i]
    ensures forall j :: 0 <= j < i ==> scores[j] < scores[i]
  {
    if |scores| == 1 then 0
    else
      var prefix := scores[..|scores| - 1];
      var b := FirstBest(prefix);
      assert forall j :: 0 <= j < |scores| - 1 ==> prefix[j] == scores[j];
      if scores[|scores| - 1] > scores[b] then |scores| - 1 else b
  }

  /** The cluster count k-medoids is run with: the count in 2, 3, 4 with the largest
      silhouette score, the smallest such count on ties. */
  function BestClusterCount(silhouette: nat -> real): (k: nat)
    ensures 2 <= k <= 4
    ensures forall c :: 2 <= c <= 4 ==> silhouette(c) <= silhouette(k)
    ensures forall c :: 2 <= c < k ==> silhouette(c) < silhouette(k)
  {
    var scores := [silhouette(2), silhouette(3), silhouette(4)];
    var i := FirstBest(scores);
    assert forall c :: 2 <= c <= 4 ==> scores[c - 2] == silhouette(c);
    i + 2
  }

  /** Lines 46-60: the silhouette score of k = 2, 3, 4 recorded in a dict, then the
      count with the best score. */
  method ChooseClusterCount(silhouette: nat -> real) returns (k: nat)
    ensures k == BestClusterCount(silhouette)
  {
    var scores: map<nat, real> := map[];
    for c := 2 to 5
      invariant forall c' :: c' in scores <==> 2 <= c' < c
      invariant forall c' :: 2 <= c' < c ==> scores[c'] == silhouette(c')
    {
      scores := scores[c := silhouette(c)];
    }
    k := FirstBest([scores[2], scores[3], scores[4]]) + 2;
  }

  // ---------------------------------------------------------------- centre matching

  function CountOf(centres: seq<seq<real>>, row: seq<real>): nat
  {
    if centres == [] then 0 else (if centres[0] == row then 1 else 0) + CountOf(centres[1..], row)
  }

  lemma {:induction false} CountOfPositive(centres: seq<seq<real>>, row: seq<real>)
    ensures CountOf(centres, row) > 0 <==> row in centres
  {
    if centres != [] {
      CountOfPositive(centres[1..], row);
    }
  }

  function Repeat(x: string, n: nat): (r: seq<string>)
    ensures |r| == n && forall k :: 0 <= k < n ==> r[k] == x
  {
    seq(n, k requires 0 <= k < n => x)
  }

  /** `pd.merge(df, cluster_centers, on=molecule_list, how='inner')[['Pose ID']]`: in
      row order, each pose once per centre equal to its row. */
  function MatchCentres(poseIds: seq<string>, rows: seq<seq<real>>, centres: seq<seq<real>>): (r: seq<string>)
    requires |rows| == |poseIds|
    ensures forall x :: x in r <==> exists i :: 0 <= i < |rows| && poseIds[i] == x && rows[i] in centres
  {
    if rows == [] then []
    else
      var n := |rows| - 1;
      var front := MatchCentres(poseIds[..n], rows[..n], centres);
      var tail := Repeat(poseIds[n], CountOf(centres, rows[n]));
      CountOfPositive(centres, rows[n]);
      forall x ensures x in front + tail <==> exists i :: 0 <= i < |rows| && poseIds[i] == x && rows[i] in centres {
        if x in front {
          var i :| 0 <= i < n && poseIds[..n][i] == x && rows[..n][i] in centres;
          assert poseIds[i] == x && rows[i] in centres;
        }
        if x in tail {
          assert poseIds[n] == x && rows[n] in centres;
        }
        if exists i :: 0 <= i < |rows| && poseIds[i] == x && rows[i] in centres {
          var i :| 0 <= i < |rows| && poseIds[i] == x && rows[i] in centres;
          if i < n {
            assert poseIds[..n][i] == x && rows[..n][i] in centres;
          } else {
            assert tail[0] == x;
          }
        }
      }
      front + tail
  }

  /** `kmedoids_S_clustering`: scaled rows, the best cluster count, then the poses
      whose scaled row is a medoid. The loop over k = 2, 3, 4 raises ValueError
      below five poses: k-medoids refuses more clusters than poses, and the
      silhouette score needs between 2 and n - 1 distinct labels. */
  function KMedoidsPick(poseIds: seq<string>, rows: seq<seq<real>>, b: Backends): (r: Result<seq<string>, ClusterError>)
    ensures r.Err? <==> |poseIds| < 5
    ensures r.Err? ==> r.error == TooFewForKMedoids
    ensures r.Ok? ==> forall x :: x in r.value ==> x in poseIds
  {
    if |poseIds| < 5 then Err(TooFewForKMedoids)
    else
      var scaled := b.scale(rows);
      if |scaled| != |poseIds| then Ok([])
      else
        var k := BestClusterCount((c: nat) => b.silhouette(scaled, c));
        Ok(MatchCentres(poseIds, scaled, b.kmedoidsCentres(scaled, k)))
  }

  /** `affinity_propagation_clustering`: the poses whose scaled row is an exemplar. */
  function AffinityPick(poseIds: seq<string>, rows: seq<seq<real>>, b: Backends): (r: seq<string>)
    ensures forall x :: x in r ==> x in poseIds
  {
    var scaled := b.scale(rows);
    if |scaled| != |poseIds| then [] else MatchCentres(poseIds, scaled, b.affinityCentres(scaled))
  }

  // ---------------------------------------------------------------- one molecule

  function PoseIds(group: seq<Pose>): (ids: seq<string>)
    ensures |ids| == |group| && forall i :: 0 <= i < |group| ==> ids[i] == group[i].poseId
  {
    seq(|group|, i requires 0 <= i < |group| => group[i].poseId)
  }

  /** The metric of rows i and j of a group. */
  function GroupMetric(group: seq<Pose>, m: Metric, b: Backends): (nat, nat) -> real
  {
    (i: nat, j: nat) => if i < |group| && j < |group| then b.pairMetric(m, group[i].molecule, group[j].molecule) else 0.0
  }

  /** `calculate_and_cluster` on the poses of one molecule: the selected Pose IDs, or
      the error the call raises. */
  function ClusterGroup(metric: string, algorithm: string, group: seq<Pose>, b: Backends): (r: Result<seq<string>, ClusterError>)
    ensures ResolveMetric(metric).Err? ==> r == Err(InvalidMetric(metric))
    ensures ResolveMetric(metric).Ok? && |group| < 2 ==> r == Err(TooFewPoses)
    ensures ResolveMetric(metric).Ok? && |group| >= 2 && metric != "3DScore" && ResolveMethod(algorithm).Err? ==>
      r == Err(UnknownMethod(algorithm))
    ensures ResolveMetric(metric).Ok? && |group| >= 2 && metric != "3DScore" && ResolveMethod(algorithm) == Ok(KMedoids) ==>
      (r.Err? <==> |group| < 5) && (r.Err? ==> r.error == TooFewForKMedoids)
    ensures r.Err? <==> (ResolveMetric(metric).Err? || |group| < 2 ||
                         (metric != "3DScore" && (ResolveMethod(algorithm).Err? || (ResolveMethod(algorithm) == Ok(KMedoids) && |group| < 5))))
    ensures metric == "3DScore" && |group| >= 2 ==> r.Ok? && |r.value| == 1
    ensures r.Ok? ==> forall x :: x in r.value ==> x in PoseIds(group) || metric == "3DScore"
  {
    match ResolveMetric(metric)
    case Err(e) => Err(e)
    case Ok(m) =>
      if |group| < 2 then Err(TooFewPoses)
      else
        var rows := MatrixRows(|group|, GroupMetric(group, m, b));
        if metric == "3DScore" then Ok([Replace(group[LowestRow(rows)].poseId, "[()',]", "")])
        else
          match ResolveMethod(algorithm)
          case Err(e) => Err(e)
          case Ok(KMedoids) => KMedoidsPick(PoseIds(group), rows, b)
          case Ok(AffinityPropagation) => Ok(AffinityPick(PoseIds(group), rows, b))
  }

  /** The 3DScore pose has the smallest summed distance to the other poses. */
  lemma ThreeDScoreIsCentral(group: seq<Pose>, b: Backends)
    requires |group| >= 2
    ensures exists best :: 0 <= best < |group| &&
              ClusterGroup("3DScore", "", group, b) == Ok([Replace(group[best].poseId, "[()',]", "")]) &&
              forall r :: 0 <= r < |group| ==>
                Sum(MatrixRows(|group|, GroupMetric(group, SpyRMSD, b))[best]) <= Sum(MatrixRows(|group|, GroupMetric(group, SpyRMSD, b))[r])
  {
    var rows := MatrixRows(|group|, GroupMetric(group, SpyRMSD, b));
    var best := LowestRow(rows);
    assert ClusterGroup("3DScore", "", group, b) == Ok([Replace(group[best].poseId, "[()',]", "")]);
  }

  /** `calculate_and_cluster`, with the matrix filled in place. */
  method CalculateAndCluster(metric: string, algorithm: string, group: seq<Pose>, b: Backends) returns (r: Result<seq<string>, ClusterError>)
    ensures r == ClusterGroup(metric, algorithm, group, b)
  {
    var resolved := ResolveMetric(metric);
    if resolved.Err? {
      return Err(resolved.error);
    }
    if |group| < 2 {
      return Err(TooFewPoses);
    }
    var f := GroupMetric(group, resolved.value, b);
    var m := PairMatrix(|group|, f);
    var rows := Entries(m);
    forall i | 0 <= i < |group| ensures rows[i] == MatrixRows(|group|, f)[i] {
      assert forall j :: 0 <= j < |group| ==> rows[i][j] == MatrixRows(|group|, f)[i][j];
    }
    assert rows == MatrixRows(|group|, f);
    if metric == "3DScore" {
      var best := LowestRow(rows);
      return Ok([Replace(group[best].poseId, "[()',]", "")]);
    }
    var chosen := ResolveMethod(algorithm);
    if chosen.Err? {
      return Err(chosen.error);
    }
    if chosen.value == KMedoids && |group| < 5 {
      return Err(TooFewForKMedoids);
    }
    var scaled := b.scale(rows);
    if |scaled| != |group| {
      return Ok([]);
    }
    if chosen.value == KMedoids {
      var k := ChooseClusterCount((c: nat) => b.silhouette(scaled, c));
      return Ok(MatchCentres(PoseIds(group), scaled, b.kmedoidsCentres(scaled, k)));
    }
    return Ok(MatchCentres(PoseIds(group), scaled, b.affinityCentres(scaled)));
  }

  // ---------------------------------------------------------------- bestpose filters

  /** The Pose-ID suffixes each `bestpose` metric keeps. */
  const BestPoseFilters: map<string, (string, string)> := map[
    "bestpose" := ("_1", "_01"),
    "bestpose_GNINA" := ("GNINA_1", "GNINA_01"),
    "bestpose_SMINA" := ("SMINA_1", "SMINA_01"),
    "bestpose_QVINA2" := ("QVINA2_1", "QVINA2_01"),
    "bestpose_QVINAW" := ("QVINAW_1", "QVINAW_01"),
    "bestpose_PLANTS" := ("PLANTS_1", "PLANTS_01")]

  predicate EndsWithEither(poseId: string, suffixes: (string, string))
  {
    EndsWith(poseId, suffixes.0) || EndsWith(poseId, suffixes.1)
  }

  /** `all_poses[all_poses['Pose ID'].str.endswith(filter)]`: the poses in order whose
      Pose ID ends with one of the two suffixes. */
  function BestPoses(poses: seq<Pose>, suffixes: (string, string)): (r: seq<Pose>)
    ensures forall p :: p in r <==> p in poses && EndsWithEither(p.poseId, suffixes)
    ensures Combinations.IsSubsequence(r, poses)
  {
    if poses == [] then []
    else
      var rest := BestPoses(poses[1..], suffixes);
      assert forall p :: p in poses <==> p == poses[0] || p in poses[1..];
      if EndsWithEither(poses[0].poseId, suffixes) then
        assert ([poses[0]] + rest)[1..] == rest;
        [poses[0]] + rest
      else
        SubsequenceOfTail(rest, poses);
        rest
  }

  lemma SubsequenceOfTail<T>(c: seq<T>, s: seq<T>)
    requires s != [] && Combinations.IsSubsequence(c, s[1..])
    ensures Combinations.IsSubsequence(c, s)
  {
  }

  // ---------------------------------------------------------------- cluster_pebble

  /** `str.replace('[()\',]', '', regex=True)`: the characters ( ) ' , removed. */
  function CleanPoseId(s: string): (r: string)
    ensures forall c :: c in r ==> c in s && c !in "()',"
  {
    Filter(s, c => c !in "()',")
  }

  /** `all_poses[all_poses['Pose ID'].isin(selected)]`: the poses in order whose Pose ID
      was selected. */
  function SelectPoses(poses: seq<Pose>, selected: seq<string>): (r: seq<Pose>)
    ensures forall p :: p in r <==> p in poses && p.poseId in selected
    ensures Combinations.IsSubsequence(r, poses)
  {
    if poses == [] then []
    else
      var rest := SelectPoses(poses[1..], selected);
      assert forall p :: p in poses <==> p == poses[0] || p in poses[1..];
      if poses[0].poseId in selected then
        assert ([poses[0]] + rest)[1..] == rest;
        [poses[0]] + rest
      else
        SubsequenceOfTail(rest, poses);
        rest
  }

  /** The poses of one molecule, in order. */
  function GroupOf(poses: seq<Pose>, id: string): (g: seq<Pose>)
    ensures forall p :: p in g <==> p in poses && p.id == id
  {
    if poses == [] then []
    else
      assert forall p :: p in poses <==> p == poses[0] || p in poses[1..];
      (if poses[0].id == id then [poses[0]] else []) + GroupOf(poses[1..], id)
  }

  function MoleculeIds(poses: seq<Pose>): (ids: seq<string>)
    ensures |ids| == |poses| && forall i :: 0 <= i < |poses| ==> ids[i] == poses[i].id
  {
    seq(|poses|, i requires 0 <= i < |poses| => poses[i].id)
  }

  /** `np.unique(all_poses['ID'])`: the distinct IDs, sorted. */
  function UniqueIds(poses: seq<Pose>): (ids: seq<string>)
    ensures forall x :: x in ids <==> exists i :: 0 <= i < |poses| && poses[i].id == x
  {
    var d := Distinct(MoleculeIds(poses));
    var sorted := Sorting.SortStrings(d);
    assert forall x :: x in sorted <==> x in multiset(sorted);
    assert forall x :: x in multiset(d) <==> x in d;
    forall x | x in d ensures exists i :: 0 <= i < |poses| && poses[i].id == x {
      var i :| 0 <= i < |poses| && MoleculeIds(poses)[i] == x;
    }
    forall x | (exists i :: 0 <= i < |poses| && poses[i].id == x) ensures x in d {
      var i :| 0 <= i < |poses| && poses[i].id == x;
      assert MoleculeIds(poses)[i] == x;
    }
    sorted
  }

  /** The successful job results for the first `count` IDs, concatenated; `None` when
      no job succeeded (then `pd.concat` has nothing to join). */
  function JobResults(metric: string, algorithm: string, poses: seq<Pose>, ids: seq<string>, count: nat, b: Backends): (r: seq<seq<string>>)
    requires count <= |ids|
    ensures |r| <= count
  {
    if count == 0 then []
    else
      var front := JobResults(metric, algorithm, poses, ids, count - 1, b);
      match ClusterGroup(metric, algorithm, GroupOf(poses, ids[count - 1]), b)
      case Ok(selected) => front + [selected]
      case Err(_) => front
  }

  /** With k-medoids, every job on an ID with fewer than five poses raises, so such
      IDs add nothing to the concatenated selection. */
  lemma {:induction false} SmallKMedoidsGroupsDropped(metric: string, algorithm: string, poses: seq<Pose>, ids: seq<string>, count: nat, b: Backends)
    requires count <= |ids|
    requires metric != "3DScore" && ResolveMethod(algorithm) == Ok(KMedoids)
    requires forall k :: 0 <= k < count ==> |GroupOf(poses, ids[k])| < 5
    ensures JobResults(metric, algorithm, poses, ids, count, b) == []
  {
    if count > 0 {
      SmallKMedoidsGroupsDropped(metric, algorithm, poses, ids, count - 1, b);
      assert ClusterGroup(metric, algorithm, GroupOf(poses, ids[count - 1]), b).Err?;
    }
  }

  function Concat(parts: seq<seq<string>>): (r: seq<string>)
    ensures forall x :: x in r <==> exists k :: 0 <= k < |parts| && x in parts[k]
  {
    if parts == [] then []
    else
      var n := |parts| - 1;
      var front := Concat(parts[..n]);
      assert forall k :: 0 <= k < n ==> parts[..n][k] == parts[k];
      front + parts[n]
  }

  /** The pebble path (lines 213-238): one job per ID in sorted order; a job that
      raises contributes nothing. */
  method RunJobs(metric: string, algorithm: string, poses: seq<Pose>, b: Backends) returns (r: Result<seq<string>, ClusterError>)
    ensures var ids := UniqueIds(poses);
            var parts := JobResults(metric, algorithm, poses, ids, |ids|, b);
            r == if parts == [] then Err(NothingToConcatenate) else Ok(Concat(parts))
  {
    var ids := UniqueIds(poses);
    var clustered: seq<seq<string>> := [];
    for k := 0 to |ids|
      invariant clustered == JobResults(metric, algorithm, poses, ids, k, b)
    {
      var res := CalculateAndCluster(metric, algorithm, GroupOf(poses, ids[k]), b);
      if res.Ok? {
        clustered := clustered + [res.value];
      }
    }
    if clustered == [] {
      return Err(NothingToConcatenate);
    }
    return Ok(Concat(clustered));
  }

  /** The clustering folder: the clustered pose files written so far, by file name. */
  class ClusteringFolder {
    var files: map<string, seq<Pose>>

    constructor(existing: map<string, seq<Pose>>)
      ensures files == existing
    {
      files := existing;
    }

    static function ClusterFile(metric: string): string
    {
      metric + "_clustered.sdf"
    }

    /** `cluster_pebble`: nothing happens when the metric's file exists; otherwise the
        poses selected by the `bestpose` filter, by the per-ID jobs (more than one CPU)
        or by `sequential` (one CPU) are written, in the order of `all_poses`. */
    method ClusterPebble(metric: string, algorithm: string, poses: seq<Pose>, ncpus: int, b: Backends, sequential: seq<string>)
      returns (r: Result<(), ClusterError>)
      modifies this
      ensures ClusterFile(metric) in old(files) ==> files == old(files) && r.Ok?
      ensures ClusterFile(metric) !in old(files) && r.Ok? ==>
                exists selected :: files == old(files)[ClusterFile(metric) := SelectPoses(poses, selected)]
      ensures ClusterFile(metric) !in old(files) && metric in BestPoseFilters ==>
                r.Ok? && files == old(files)[ClusterFile(metric) := SelectPoses(poses, Cleaned(PoseIds(BestPoses(poses, BestPoseFilters[metric]))))]
      ensures ClusterFile(metric) !in old(files) && metric !in BestPoseFilters && ncpus > 1 ==>
                var ids := UniqueIds(poses);
                var parts := JobResults(metric, algorithm, poses, ids, |ids|, b);
                (r.Ok? <==> parts != []) &&
                (r.Ok? ==> files == old(files)[ClusterFile(metric) := SelectPoses(poses, Cleaned(Concat(parts)))]) &&
                (r.Err? ==> r.error == NothingToConcatenate)
      ensures ClusterFile(metric) !in old(files) && metric !in BestPoseFilters && ncpus <= 1 ==>
                r.Ok? && files == old(files)[ClusterFile(metric) := SelectPoses(poses, Cleaned(sequential))]
      ensures r.Err? ==> files == old(files)
    {
      var name := ClusterFile(metric);
      if name in files {
        return Ok(());
      }
      var selected: seq<string>;
      if metric in BestPoseFilters {
        selected := PoseIds(BestPoses(poses, BestPoseFilters[metric]));
      } else if ncpus > 1 {
        var jobs := RunJobs(metric, algorithm, poses, b);
        if jobs.Err? {
          return Err(jobs.error);
        }
        selected := jobs.value;
      } else {
        selected := sequential;
      }
      files := files[name := SelectPoses(poses, Cleaned(selected))];
      return Ok(());
    }
  }

  function Cleaned(ids: seq<string>): (r: seq<string>)
    ensures |r| == |ids| && forall k :: 0 <= k < |ids| ==> r[k] == CleanPoseId(ids[k])
  {
    seq(|ids|, k requires 0 <= k < |ids| => CleanPoseId(ids[k]))
  }

  /** Cleaning leaves a Pose ID without ( ) ' , characters unchanged. */
  lemma CleanKeepsPlainIds(s: string)
    requires forall i :: 0 <= i < |s| ==> s[i] !in "()',"
    ensures CleanPoseId(s) == s
  {
    FilterKeepsAll(s, c => c !in "()',");
  }

  /** A `bestpose` metric keeps exactly the poses with one of its suffixes, when the
      Pose IDs hold none of the characters cleaning removes. */
  lemma BestPoseSelection(poses: seq<Pose>, metric: string)
    requires metric in BestPoseFilters
    requires forall p, i :: p in poses && 0 <= i < |p.poseId| ==> p.poseId[i] !in "()',"
    ensures forall p :: p in SelectPoses(poses, Cleaned(PoseIds(BestPoses(poses, BestPoseFilters[metric])))) <==>
              p in poses && EndsWithEither(p.poseId, BestPoseFilters[metric])
  {
    var kept := BestPoses(poses, BestPoseFilters[metric]);
    var ids := PoseIds(kept);
    forall k | 0 <= k < |ids| ensures Cleaned(ids)[k] == ids[k] {
      assert kept[k] in poses;
      CleanKeepsPlainIds(ids[k]);
    }
    assert Cleaned(ids) == ids;
    forall p | p in poses && p.poseId in ids ensures EndsWithEither(p.poseId, BestPoseFilters[metric]) {
      var k :| 0 <= k < |ids| && ids[k] == p.poseId;
      assert kept[k] in kept;
    }
    forall p | p in poses && EndsWithEither(p.poseId, BestPoseFilters[metric]) ensures p.poseId in ids {
      var k :| 0 <= k < |kept| && kept[k] == p;
      assert ids[k] == p.poseId;
    }
  }
}
