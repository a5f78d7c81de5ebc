/** `Layer5_Poppys_GA_Object`: one candidate object with its rank position in
    each of Layers 1-4, the display fields carried over from its Layer 1 view,
    and the two Layer 5 outputs the GA engine writes. */
module GAObjects {
  import opened Wrappers

  /** The fields the handler fills in once; identifiers are strings as in the
      cloud views the handler reads. */
  datatype GARecord = GARecord(
    userId: int,
    objectId: string,
    objectType: string,
    objectName: string,
    layer1Rank: int,
    layer2Rank: int,
    layer3Rank: int,
    layer4Rank: int,
    matchPercentage: real,
    score: real,
    isVisible: bool,
    altitude: real,
    azimuth: real,
    visibilityChance: int,
    chanceReason: string,
    boostDescription: string,
    spectralType: Option<string>,
    planetType: Option<string>,
    parent: Option<string>,
    color: Option<string>,
    diameter: real,
    mass: real,
    composition: Option<string>,
    surfaceFeatures: Option<string>,
    gmag: Option<real>)

  class GAObject {
    const record: GARecord
    var layer5FinalScore: real
    var layer5FinalRank: int

    constructor (record: GARecord)
      ensures this.record == record
      ensures layer5FinalScore == 0.0 && layer5FinalRank == 0
    {
      this.record := record;
      layer5FinalScore := 0.0;
      layer5FinalRank := 0;
    }
  }

  /** The records of a list of objects, in order. */
  function Records(objects: seq<GAObject>): (r: seq<GARecord>)
    ensures |r| == |objects|
    ensures forall i :: 0 <= i < |objects| ==> r[i] == objects[i].record
  {
    seq(|objects|, i requires 0 <= i < |objects| => objects[i].record)
  }

  /** No object appears twice in the list. */
  predicate Distinct(objects: seq<GAObject>) {
    forall i, j :: 0 <= i < j < |objects| ==> objects[i] != objects[j]
  }
}
