/**
 The landmark table of the pose overlay: the names the component gives to the
 detector's 33 body points and to five synthetic points appended after them, the
 31 bones it draws, the 14 joints it marks and its one posture-reference line.
 All of it is constant data.
 */
module Landmarks {

  /** Number of points the detector reports (indices 0..32). */
  const DetectorPoints := 33

  /** Number of named points in the table, raw and synthetic (indices 0..37). */
  const TablePoints := 38

  /** The keys of the `points` table, in table order. */
  datatype Point =
    | Nose
    | LeftEyeInner | LeftEye | LeftEyeOuter
    | RightEyeInner | RightEye | RightEyeOuter
    | LeftEar | RightEar
    | MouthLeft | MouthRight
    | LeftShoulder | RightShoulder
    | LeftElbow | RightElbow
    | LeftWrist | RightWrist
    | LeftPinky | RightPinky
    | LeftIndex | RightIndex
    | LeftThumb | RightThumb
    | LeftHip | RightHip
    | LeftKnee | RightKnee
    | LeftAnkle | RightAnkle
    | LeftHeel | RightHeel
    | LeftFootIndex | RightFootIndex
    | ReferencePoint | SecondReferencePoint
    | ShoulderMidPoint | EarsMidPoint
    | NormalVertex

  /** The index the `points` table assigns to a name. */
  function Index(p: Point): (i: nat)
    ensures i < TablePoints
  {
    match p
    case Nose => 0
    case LeftEyeInner => 1
    case LeftEye => 2
    case LeftEyeOuter => 3
    case RightEyeInner => 4
    case RightEye => 5
    case RightEyeOuter => 6
    case LeftEar => 7
    case RightEar => 8
    case MouthLeft => 9
    case MouthRight => 10
    case LeftShoulder => 11
    case RightShoulder => 12
    case LeftElbow => 13
    case RightElbow => 14
    case LeftWrist => 15
    case RightWrist => 16
    case LeftPinky => 17
    case RightPinky => 18
    case LeftIndex => 19
    case RightIndex => 20
    case LeftThumb => 21
    case RightThumb => 22
    case LeftHip => 23
    case RightHip => 24
    case LeftKnee => 25
    case RightKnee => 26
    case LeftAnkle => 27
    case RightAnkle => 28
    case LeftHeel => 29
    case RightHeel => 30
    case LeftFootIndex => 31
    case RightFootIndex => 32
    case ReferencePoint => 33
    case SecondReferencePoint => 34
    case ShoulderMidPoint => 35
    case EarsMidPoint => 36
    case NormalVertex => 37
  }

  /** The names in index order: position i of the table holds the name with index i. */
  const Table: seq<Point> := [
    Nose,
    LeftEyeInner, LeftEye, LeftEyeOuter,
    RightEyeInner, RightEye, RightEyeOuter,
    LeftEar, RightEar,
    MouthLeft, MouthRight,
    LeftShoulder, RightShoulder,
    LeftElbow, RightElbow,
    LeftWrist, RightWrist,
    LeftPinky, RightPinky,
    LeftIndex, RightIndex,
    LeftThumb, RightThumb,
    LeftHip, RightHip,
    LeftKnee, RightKnee,
    LeftAnkle, RightAnkle,
    LeftHeel, RightHeel,
    LeftFootIndex, RightFootIndex,
    ReferencePoint, SecondReferencePoint,
    ShoulderMidPoint, EarsMidPoint,
    NormalVertex
  ]

  /** Position i of the table holds the name with index i. */
  lemma TableOrder(i: nat)
    requires i < TablePoints
    ensures Index(Table[i]) == i
  {
    if i < 10 { TableOrder1(i); } else if i < 19 { TableOrder2(i); } else if i < 29 { TableOrder3(i); } else { TableOrder4(i); }
  }

  /** TableOrder1..TableOrder4 check the table a quarter at a time. */
  lemma TableOrder1(i: nat)
    requires 0 <= i < 10
    ensures Index(Table[i]) == i
  {
  }

  lemma TableOrder2(i: nat)
    requires 10 <= i < 19
    ensures Index(Table[i]) == i
  {
  }

  lemma TableOrder3(i: nat)
    requires 19 <= i < 29
    ensures Index(Table[i]) == i
  {
  }

  lemma TableOrder4(i: nat)
    requires 29 <= i < 38
    ensures Index(Table[i]) == i
  {
  }

  /** The name the table gives to an index: every index in 0..37 has one. */
  function PointAt(i: nat): (p: Point)
    requires i < TablePoints
    ensures Index(p) == i
  {
    TableOrder(i);
    Table[i]
  }

  /** Looking a name's index back up gives the same name. */
  lemma PointAtIndex(p: Point)
    ensures PointAt(Index(p)) == p
  {
    assert PointAt(Index(p)) == Table[Index(p)];
    match p
    case Nose =>
    case LeftEyeInner =>
    case LeftEye =>
    case LeftEyeOuter =>
    case RightEyeInner =>
    case RightEye =>
    case RightEyeOuter =>
    case LeftEar =>
    case RightEar =>
    case MouthLeft =>
    case MouthRight =>
    case LeftShoulder =>
    case RightShoulder =>
    case LeftElbow =>
    case RightElbow =>
    case LeftWrist =>
    case RightWrist =>
    case LeftPinky =>
    case RightPinky =>
    case LeftIndex =>
    case RightIndex =>
    case LeftThumb =>
    case RightThumb =>
    case LeftHip =>
    case RightHip =>
    case LeftKnee =>
    case RightKnee =>
    case LeftAnkle =>
    case RightAnkle =>
    case LeftHeel =>
    case RightHeel =>
    case LeftFootIndex =>
    case RightFootIndex =>
    case ReferencePoint =>
    case SecondReferencePoint =>
    case ShoulderMidPoint =>
    case EarsMidPoint =>
    case NormalVertex =>
  }

  /** Distinct names have distinct indices; with PointAt, the table is a bijection onto 0..37. */
  lemma IndexInjective(p: Point, q: Point)
    ensures Index(p) == Index(q) ==> p == q
  {
    PointAtIndex(p);
    PointAtIndex(q);
  }

  /** A point the detector reports, as opposed to a synthetic table entry. */
  predicate IsDetectorPoint(p: Point)
  {
    Index(p) < DetectorPoints
  }

  /** The synthetic entries are exactly the five names after the detector's points. */
  lemma SyntheticPoints(p: Point)
    ensures !IsDetectorPoint(p) <==>
      p in {ReferencePoint, SecondReferencePoint, ShoulderMidPoint, EarsMidPoint, NormalVertex}
  {
  }

  /** The bones: `modifiedConnections`, in source order, as index pairs. */
  const Bones: seq<(Point, Point)> := [
    (LeftHip, RightHip),
    (RightHip, RightShoulder),
    (LeftHip, LeftShoulder),
    (LeftShoulder, RightShoulder),
    (LeftShoulder, LeftEar),

    (RightShoulder, RightEar),
    (LeftEar, RightEar),
    (LeftShoulder, ShoulderMidPoint),
    (RightShoulder, ShoulderMidPoint),

    (LeftShoulder, LeftElbow),
    (LeftElbow, LeftWrist),
    (LeftWrist, LeftPinky),
    (LeftWrist, LeftIndex),
    (LeftWrist, LeftThumb),
    (LeftIndex, LeftPinky),

    (RightShoulder, RightElbow),
    (RightElbow, RightWrist),
    (RightWrist, RightPinky),
    (RightWrist, RightIndex),
    (RightWrist, RightThumb),
    (RightIndex, RightPinky),

    (LeftHip, LeftKnee),
    (LeftKnee, LeftAnkle),
    (LeftAnkle, LeftHeel),
    (LeftAnkle, LeftFootIndex),
    (LeftFootIndex, LeftHeel),

    (RightHip, RightKnee),
    (RightKnee, RightAnkle),
    (RightAnkle, RightHeel),
    (RightAnkle, RightFootIndex),
    (RightFootIndex, RightHeel)
  ]

  /** The joints marked with a dot: the points picked into `pointsToDraw`, in source order. */
  const Joints: seq<Point> := [
    LeftShoulder, RightShoulder,
    LeftEar, RightEar,
    LeftElbow, RightElbow,
    LeftWrist, RightWrist,
    LeftHip, RightHip,
    LeftKnee, RightKnee,
    LeftAnkle, RightAnkle
  ]

  /** The connection list passed for the posture-reference line. */
  const ReferenceLine: seq<Point> := [ShoulderMidPoint, NormalVertex]

  /** The bones as the index pairs the drawing library receives. */
  function BoneIndices(): (r: seq<(nat, nat)>)
    ensures |r| == |Bones|
    ensures forall k :: 0 <= k < |r| ==> r[k] == (Index(Bones[k].0), Index(Bones[k].1))
  {
    seq(|Bones|, k requires 0 <= k < |Bones| => (Index(Bones[k].0), Index(Bones[k].1)))
  }

  /** `modifiedConnections` as the numbers the source writes for it. */
  const BoneNumbers: seq<(nat, nat)> := [
    (23, 24), (24, 12), (23, 11), (11, 12), (11, 7),
    (12, 8), (7, 8), (11, 35), (12, 35),
    (11, 13), (13, 15), (15, 17), (15, 19), (15, 21), (19, 17),
    (12, 14), (14, 16), (16, 18), (16, 20), (16, 22), (20, 18),
    (23, 25), (25, 27), (27, 29), (27, 31), (31, 29),
    (24, 26), (26, 28), (28, 30), (28, 32), (32, 30)
  ]

  /** There are 31 bones, handed over as exactly the index pairs of the source. */
  lemma BonesInTable()
    ensures |Bones| == 31
    ensures BoneIndices() == BoneNumbers
  {
    forall k | 0 <= k < |Bones|
      ensures BoneIndices()[k] == BoneNumbers[k]
    {
      if k < 5 { TorsoNumbers(k); }
      else if k < 9 { MidpointNumbers(k); }
      else if k < 15 { LeftArmNumbers(k); }
      else if k < 21 { RightArmNumbers(k); }
      else if k < 26 { LeftLegNumbers(k); }
      else { RightLegNumbers(k); }
    }
  }

  /** The hips, shoulders and left ear (positions 0..4). */
  lemma TorsoNumbers(k: nat)
    requires k < 5
    ensures (Index(Bones[k].0), Index(Bones[k].1)) == BoneNumbers[k]
  {
  }

  /** The right ear, the ears and the two shoulder-midpoint bones (positions 5..8). */
  lemma MidpointNumbers(k: nat)
    requires 5 <= k < 9
    ensures (Index(Bones[k].0), Index(Bones[k].1)) == BoneNumbers[k]
  {
  }

  /** The left arm and hand (positions 9..14). */
  lemma LeftArmNumbers(k: nat)
    requires 9 <= k < 15
    ensures (Index(Bones[k].0), Index(Bones[k].1)) == BoneNumbers[k]
  {
  }

  /** The right arm and hand (positions 15..20). */
  lemma RightArmNumbers(k: nat)
    requires 15 <= k < 21
    ensures (Index(Bones[k].0), Index(Bones[k].1)) == BoneNumbers[k]
  {
  }

  /** The left leg and foot (positions 21..25). */
  lemma LeftLegNumbers(k: nat)
    requires 21 <= k < 26
    ensures (Index(Bones[k].0), Index(Bones[k].1)) == BoneNumbers[k]
  {
  }

  /** The right leg and foot (positions 26..30). */
  lemma RightLegNumbers(k: nat)
    requires 26 <= k < 31
    ensures (Index(Bones[k].0), Index(Bones[k].1)) == BoneNumbers[k]
  {
  }

  /**
   Only two bones reach a synthetic point, the two from a shoulder to the
   shoulder midpoint; every other bone joins two detector points.
   */
  lemma SyntheticBones()
    ensures forall k :: 0 <= k < |Bones| ==>
      (!IsDetectorPoint(Bones[k].0) || !IsDetectorPoint(Bones[k].1) <==> k == 7 || k == 8)
    ensures Bones[7] == (LeftShoulder, ShoulderMidPoint)
    ensures Bones[8] == (RightShoulder, ShoulderMidPoint)
  {
    forall k | 0 <= k < |Bones|
      ensures !IsDetectorPoint(Bones[k].0) || !IsDetectorPoint(Bones[k].1) <==> k == 7 || k == 8
    {
      if k < 16 { SyntheticBonesUpper(k); } else { SyntheticBonesLower(k); }
    }
  }

  /** The bones of the torso, head and left arm (positions 0..15). */
  lemma SyntheticBonesUpper(k: nat)
    requires k < 16
    ensures !IsDetectorPoint(Bones[k].0) || !IsDetectorPoint(Bones[k].1) <==> k == 7 || k == 8
  {
  }

  /** The bones of the right arm and the legs (positions 16..30): all between detector points. */
  lemma SyntheticBonesLower(k: nat)
    requires 16 <= k < |Bones|
    ensures IsDetectorPoint(Bones[k].0) && IsDetectorPoint(Bones[k].1)
  {
  }

  /** The indices `pointsToDraw` picks from the result, as the source writes them. */
  const JointNumbers: seq<nat> := [11, 12, 7, 8, 13, 14, 15, 16, 23, 24, 25, 26, 27, 28]

  /** The joints are handed over as exactly the indices of the source. */
  lemma JointsInTable()
    ensures |Joints| == |JointNumbers|
    ensures forall k :: 0 <= k < |Joints| ==> Index(Joints[k]) == JointNumbers[k]
  {
    forall k | 0 <= k < |Joints|
      ensures Index(Joints[k]) == JointNumbers[k]
    {
      if k < 7 { JointNumbersUpper(k); } else { JointNumbersLower(k); }
    }
  }

  /** The shoulders, ears, elbows and left wrist. */
  lemma JointNumbersUpper(k: nat)
    requires k < 7
    ensures Index(Joints[k]) == JointNumbers[k]
  {
  }

  /** The right wrist, hips, knees and ankles. */
  lemma JointNumbersLower(k: nat)
    requires 7 <= k < 14
    ensures Index(Joints[k]) == JointNumbers[k]
  {
  }

  /** There are 14 joints, all distinct detector points. */
  lemma JointsAreDetectorPoints()
    ensures |Joints| == 14
    ensures forall k :: 0 <= k < |Joints| ==> IsDetectorPoint(Joints[k])
    ensures forall j, k :: 0 <= j < k < |Joints| ==> Joints[j] != Joints[k]
  {
  }

  /** The reference line is the flat index list [35, 37]: the shoulder midpoint and the normal vertex, both synthetic. */
  lemma ReferenceLineInTable()
    ensures |ReferenceLine| == 2 && Index(ReferenceLine[0]) == 35 && Index(ReferenceLine[1]) == 37
    ensures forall k :: 0 <= k < |ReferenceLine| ==> !IsDetectorPoint(ReferenceLine[k])
  {
  }
}
