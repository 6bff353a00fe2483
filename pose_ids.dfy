/** Pose IDs across the pipeline: the library gives every compound an ID without
    underscores (scripts/library_preparation.py), docking names each pose
    `{ID}_{PROGRAM}_{n}` (scripts/docking_functions.py), and ranking takes the text
    before the first underscore as the compound ID (scripts/ranking_functions.py).
    Together, ranking recovers the library ID of every pose exactly. */
module PoseIdentity {
  import opened Wrappers
  import opened Text
  import LibraryPreparation
  import Docking
  import Ranks

  /** The compound ID ranking reads from a pose ID is the ID the pose was docked under,
      whenever that ID has no underscore. */
  lemma {:induction false} IdOfPose(id: string, program: string, num: nat)
    requires '_' !in id
    ensures Ranks.MoleculeId(Docking.PoseId(id, program, num)) == id
  {
    var tail := program + "_" + NatToString(num);
    assert Docking.PoseId(id, program, num) == id + ['_'] + tail;
    SplitFirstField(id, '_', tail);
  }

  /** Every library ID survives the round trip through docking and ranking. */
  lemma LibraryIdRecovered(raw: string, program: string, num: nat)
    ensures var id := LibraryPreparation.NormaliseId(raw);
      Ranks.MoleculeId(Docking.PoseId(id, program, num)) == id
  {
    LibraryPreparation.NormaliseIdShape(raw);
    IdOfPose(LibraryPreparation.NormaliseId(raw), program, num);
  }

  /** The `ID` column ranking attaches to a docked library is the docked IDs, row by row. */
  lemma ColumnRecovered(raws: seq<string>, program: string, nPoses: int)
    requires Docking.PoseIds(seq(|raws|, k requires 0 <= k < |raws| => LibraryPreparation.NormaliseId(raws[k])), program, nPoses).Ok?
    ensures var ids := seq(|raws|, k requires 0 <= k < |raws| => LibraryPreparation.NormaliseId(raws[k]));
      Ranks.AttachIds(Docking.PoseIds(ids, program, nPoses).value) == ids
  {
    var ids := seq(|raws|, k requires 0 <= k < |raws| => LibraryPreparation.NormaliseId(raws[k]));
    var poseIds := Docking.PoseIds(ids, program, nPoses).value;
    forall k | 0 <= k < |ids|
      ensures Ranks.AttachIds(poseIds)[k] == ids[k]
    {
      var num := k % nPoses + 1;
      assert poseIds[k] == Docking.PoseId(ids[k], program, num);
      LibraryIdRecovered(raws[k], program, num);
    }
  }

  /** Without the rewriting, an ID with an underscore is cut short, and two
      compounds can end up with the same ID. */
  lemma UnderscoreIdsCollide()
    ensures Ranks.MoleculeId(Docking.PoseId("ZINC_1", "GNINA", 1)) == "ZINC"
    ensures Ranks.MoleculeId(Docking.PoseId("ZINC_2", "GNINA", 1)) == "ZINC"
    ensures LibraryPreparation.NormaliseId("ZINC_1") != LibraryPreparation.NormaliseId("ZINC_2")
  {
    var tail := "1_GNINA_" + NatToString(1);
    assert Docking.PoseId("ZINC_1", "GNINA", 1) == "ZINC" + ['_'] + tail;
    SplitFirstField("ZINC", '_', tail);
    var tail2 := "2_GNINA_" + NatToString(1);
    assert Docking.PoseId("ZINC_2", "GNINA", 1) == "ZINC" + ['_'] + tail2;
    SplitFirstField("ZINC", '_', tail2);
    assert LibraryPreparation.NormaliseId("ZINC_1")[5] == '1';
    assert LibraryPreparation.NormaliseId("ZINC_2")[5] == '2';
  }
}
