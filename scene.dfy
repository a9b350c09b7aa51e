/** The parts of the ECS world the two controller systems touch. */
module Scene {
  import opened Math

  /** An entity's `Transform` component: the rotation of its isometry, which
      the camera system overwrites in place, and the world matrix that
      transform propagation computed for it before the controllers run. */
  class Transform {
    var rotation: Rotation
    var globalMatrix: Matrix4

    constructor (rotation: Rotation, globalMatrix: Matrix4)
      ensures this.rotation == rotation && this.globalMatrix == globalMatrix
    {
      this.rotation := rotation;
      this.globalMatrix := globalMatrix;
    }
  }

  /** The `HideCursor` resource: whether the pointer is hidden and locked. */
  class HideCursor {
    var hidden: bool

    constructor (hidden: bool)
      ensures this.hidden == hidden
    {
      this.hidden := hidden;
    }
  }

  /** The transforms a join yields are those of distinct entities. */
  ghost predicate Distinct(ts: seq<Transform>)
  {
    forall i, j :: 0 <= i < j < |ts| ==> ts[i] != ts[j]
  }
}
